// The writer of the access log: only the listed critical controller actions
// are recorded, with the acting user (if any) and the request; a failure to
// write is swallowed so that the request itself never fails because of it.

module AccessLogger {
  import opened Common
  import UserProfiles
  import AccessLogs

  /** `CRITICAL_ACTIONS`: the `[controller_path, action_name]` pairs recorded. */
  const CriticalActions: seq<(string, string)> := [
    ("orders", "create"), ("orders", "update"), ("orders", "destroy"), ("orders", "ship"),
    ("orders", "deliver"), ("orders", "cancel"), ("orders", "export"),
    ("order_approval_requests", "approve"), ("order_approval_requests", "reject"),
    ("customers", "create"), ("customers", "update"), ("customers", "destroy"),
    ("customers", "download_invoice"), ("customers", "download_invoices_by_center"),
    ("customers", "download_statement"), ("customers", "import"), ("customers", "download_invoices_bulk"),
    ("items", "create"), ("items", "update"), ("items", "destroy"), ("items", "import"),
    ("manufacturers", "create"), ("manufacturers", "update"), ("manufacturers", "destroy"),
    ("shipping_requests", "register_shipment"), ("shipping_requests", "register_shipment_import"),
    ("admin/companies", "create"), ("admin/companies", "update"),
    ("admin/company_payments", "create"), ("admin/company_payments", "update"), ("admin/company_payments", "destroy"),
    ("admin/approval_requests", "approve"), ("admin/approval_requests", "reject"),
    ("admin/user_profiles", "update"), ("admin/user_profiles", "change_role"),
    ("admin/issuer_settings", "update"),
    ("admin/access_logs", "index")]

  /** `critical_action?`: list membership of the pair. */
  predicate CriticalAction(controllerPath: string, actionName: string)
  {
    (controllerPath, actionName) in CriticalActions
  }

  /** The same list read controller by controller: the actions of each
    * controller that are recorded. */
  function RecordedActions(controllerPath: string): set<string>
  {
    match controllerPath
    case "orders" => {"create", "update", "destroy", "ship", "deliver", "cancel", "export"}
    case "order_approval_requests" => {"approve", "reject"}
    case "customers" =>
      {"create", "update", "destroy", "download_invoice", "download_invoices_by_center", "download_statement",
       "import", "download_invoices_bulk"}
    case "items" => {"create", "update", "destroy", "import"}
    case "manufacturers" => {"create", "update", "destroy"}
    case "shipping_requests" => {"register_shipment", "register_shipment_import"}
    case "admin/companies" => {"create", "update"}
    case "admin/company_payments" => {"create", "update", "destroy"}
    case "admin/approval_requests" => {"approve", "reject"}
    case "admin/user_profiles" => {"update", "change_role"}
    case "admin/issuer_settings" => {"update"}
    case "admin/access_logs" => {"index"}
    case _ => {}
  }

  /** The list and the per-controller reading agree on every pair. */
  lemma CriticalActionsByController(controllerPath: string, actionName: string)
    ensures CriticalAction(controllerPath, actionName) <==> actionName in RecordedActions(controllerPath)
  {
    if CriticalAction(controllerPath, actionName) {
      var k :| 0 <= k < |CriticalActions| && CriticalActions[k] == (controllerPath, actionName);
      ListEntryRecorded(k);
    } else if actionName in RecordedActions(controllerPath) {
      CriticalListCovers(controllerPath, actionName);
    }
  }

  lemma ListEntryRecorded(k: nat)
    requires k < |CriticalActions|
    ensures CriticalActions[k].1 in RecordedActions(CriticalActions[k].0)
  {
  }

  lemma CriticalListCovers(controllerPath: string, actionName: string)
    requires actionName in RecordedActions(controllerPath)
    ensures (controllerPath, actionName) in CriticalActions
  {
  }

  /** Viewing pages is not recorded: no `show`, `new` or `edit` action is in
    * the list, and `index` only for the access log itself. */
  lemma ViewsAreNotRecorded(controllerPath: string, actionName: string)
    requires actionName in {"show", "new", "edit"} || (actionName == "index" && controllerPath != "admin/access_logs")
    ensures !CriticalAction(controllerPath, actionName)
  {
    CriticalActionsByController(controllerPath, actionName);
    if actionName == "index" {
      IndexOnlyForAccessLogs(controllerPath);
    } else {
      PageViewsNotRecorded(controllerPath);
    }
  }

  lemma PageViewsNotRecorded(controllerPath: string)
    ensures "show" !in RecordedActions(controllerPath)
    ensures "new" !in RecordedActions(controllerPath)
    ensures "edit" !in RecordedActions(controllerPath)
  {
  }

  lemma IndexOnlyForAccessLogs(controllerPath: string)
    ensures "index" in RecordedActions(controllerPath) ==> controllerPath == "admin/access_logs"
  {
  }

  /** What `log!` reads from the controller: its path and action and the request. */
  datatype Request = Request(controllerPath: string, actionName: string, path: string, verb: string,
                             remoteIp: Option<string>, userAgent: Option<string>)

  /** The name written when there is no user or no profile name. */
  const NotSignedIn: string := "（未ログイン）"

  const AgentLimit: nat := 500

  /** `String#truncate(500)`: a longer text is cut so that with "..." it is
    * exactly 500 characters long. */
  function TruncateAgent(s: string): (r: string)
    ensures |s| <= AgentLimit ==> r == s
    ensures |s| > AgentLimit ==> |r| == AgentLimit && r == s[..AgentLimit - 3] + "..."
  {
    if |s| <= AgentLimit then s else s[..AgentLimit - 3] + "..."
  }

  /** `user&.user_profile&.name || "（未ログイン）"`: only a missing name falls back. */
  function UserName(user: Option<UserProfiles.Account>): (r: string)
    ensures user.Some? && user.value.profile.Some? && user.value.profile.value.name.Some? ==>
              r == user.value.profile.value.name.value
    ensures user.None? || user.value.profile.None? || user.value.profile.value.name.None? ==> r == NotSignedIn
  {
    if user.Some? && user.value.profile.Some? && user.value.profile.value.name.Some? then
      user.value.profile.value.name.value
    else NotSignedIn
  }

  /** The row `AccessLog.create!` is given; `now` is its creation time. */
  function NewRow(user: Option<UserProfiles.Account>, req: Request, now: int): AccessLogs.AccessRow
  {
    AccessLogs.AccessRow(
      userId := if user.Some? then Some(user.value.id) else None,
      userName := Some(UserName(user)),
      userEmail := if user.Some? then Some(user.value.email) else None,
      companyId := if user.Some? && user.value.profile.Some? then user.value.profile.value.companyId else None,
      controllerPath := Some(req.controllerPath),
      actionName := Some(req.actionName),
      requestPath := Some(req.path),
      requestMethod := Some(req.verb),
      ipAddress := req.remoteIp,
      userAgent := if req.userAgent.Some? then Some(TruncateAgent(req.userAgent.value)) else None,
      targetSummary := None,
      createdAt := now)
  }

  /** The row of a critical action is written when it passes the presence
    * validations and the database accepts it (`storeFails` stands for any
    * other exception `create!` raises). */
  predicate Written(user: Option<UserProfiles.Account>, req: Request, now: int, storeFails: bool)
  {
    CriticalAction(req.controllerPath, req.actionName)
    && AccessLogs.AccessErrors(NewRow(user, req, now)) == {}
    && !storeFails
  }

  /** A critical action's row fails validation only through a blank request
    * path or method: the controller path and action come from the list and
    * are never blank. */
  lemma CriticalRowValid(user: Option<UserProfiles.Account>, req: Request, now: int)
    requires CriticalAction(req.controllerPath, req.actionName)
    ensures AccessLogs.AccessErrors(NewRow(user, req, now)) == {} <==> Present(req.path) && Present(req.verb)
  {
    var k :| 0 <= k < |CriticalActions| && CriticalActions[k] == (req.controllerPath, req.actionName);
    ListEntriesPresent(k);
    var row := NewRow(user, req, now);
    var errs := AccessLogs.AccessErrors(row);
    if Present(req.path) && Present(req.verb) {
      forall e: AccessLogs.AccessError ensures e !in errs {
        assert !AccessLogs.AccessViolates(e, row);
      }
    } else if Blank(req.path) {
      assert AccessLogs.RequestPathBlank in errs;
    } else {
      assert AccessLogs.RequestMethodBlank in errs;
    }
  }

  lemma ListEntriesPresent(k: nat)
    requires k < |CriticalActions|
    ensures Present(CriticalActions[k].0) && Present(CriticalActions[k].1)
  {
    if k < 19 {
      FirstEntriesStartLower(k);
    } else {
      LastEntriesStartLower(k);
    }
    PresentWord(CriticalActions[k].0);
    PresentWord(CriticalActions[k].1);
  }

  lemma FirstEntriesStartLower(k: nat)
    requires k < 19
    ensures |CriticalActions[k].0| > 0 && 'a' <= CriticalActions[k].0[0] <= 'z'
    ensures |CriticalActions[k].1| > 0 && 'a' <= CriticalActions[k].1[0] <= 'z'
  {
  }

  lemma LastEntriesStartLower(k: nat)
    requires 19 <= k < |CriticalActions|
    ensures |CriticalActions[k].0| > 0 && 'a' <= CriticalActions[k].0[0] <= 'z'
    ensures |CriticalActions[k].1| > 0 && 'a' <= CriticalActions[k].1[0] <= 'z'
  {
  }

  /** The access log table, in insertion order. */
  class AccessLogStore {
    var rows: seq<AccessLogs.AccessRow>

    constructor ()
      ensures rows == []
    {
      rows := [];
    }

    /** `AccessLogger.log!(controller)`: returns at once for other actions;
      * otherwise tries `create!`, and whatever it raises is swallowed, so
      * the table either gains the one row or stays as it was. */
    method Log(user: Option<UserProfiles.Account>, req: Request, now: int, storeFails: bool)
      modifies this
      ensures rows == old(rows) + (if Written(user, req, now, storeFails) then [NewRow(user, req, now)] else [])
    {
      if !CriticalAction(req.controllerPath, req.actionName) {
        return;
      }
      var row := NewRow(user, req, now);
      if AccessLogs.AccessErrors(row) != {} || storeFails {
        return;
      }
      rows := rows + [row];
    }
  }
}
