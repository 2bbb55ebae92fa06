// The before-actions every request passes: the member-status gate, the
// manufacturer user's restriction to the shipping pages, the password
// expiry warning and the header's pending counts; then the two error
// handlers and the access-log after-action.

module ApplicationController {
  import opened Common
  import opened Web
  import UserProfiles
  import Users
  import Customers
  import ApprovalRequests
  import OrderApprovalRequests
  import ApplicationPolicy
  import ApprovalRequestPolicy
  import OrderApprovalRequestPolicy
  import AccessLogger

  type Account = UserProfiles.Account

  // ---------------------------------------------------------------------
  // check_member_status

  const RejectedKey: string := "devise.failure.account_rejected"
  const UnassignedKey: string := "devise.failure.unassigned_company"

  /** `check_member_status`: skipped without a signed-in user, in the devise
    * controllers and, since no branch matches, for a user without a profile;
    * otherwise active members pass, pending members are sent to the waiting
    * page, and rejected or unassigned members are signed out. */
  function CheckMemberStatus(signedIn: bool, deviseController: bool, profile: Option<UserProfiles.Profile>): (r: Response)
    ensures !signedIn || deviseController || profile.None? ==> r == Continue
    ensures r != Continue ==> r.Redirect?
    ensures r.Redirect? && !r.signOut ==> r.to == PendingApproval && r.flash == NoFlash
    ensures r.Redirect? && r.signOut ==> r.to == Login && r.flash in {Alert(RejectedKey), Alert(UnassignedKey)}
  {
    if !signedIn || deviseController || profile.None? then Continue
    else
      match profile.value.memberStatus
      case Active => Continue
      case Pending => Redirect(PendingApproval, NoFlash, false)
      case Rejected => Redirect(Login, Alert(RejectedKey), true)
      case Unassigned => Redirect(Login, Alert(UnassignedKey), true)
  }

  /** For a signed-in member with a profile the gate lets through exactly
    * those the sign-in check `active_for_authentication?` accepts, and each
    * other status has its own outcome. */
  lemma MemberStatusGate(p: UserProfiles.Profile)
    ensures CheckMemberStatus(true, false, Some(p)) == Continue <==> Users.ActiveForAuthentication(true, Some(p))
    ensures CheckMemberStatus(true, false, Some(p)) == Redirect(PendingApproval, NoFlash, false) <==>
              p.memberStatus == UserProfiles.Pending
    ensures CheckMemberStatus(true, false, Some(p)) == Redirect(Login, Alert(RejectedKey), true) <==>
              p.memberStatus == UserProfiles.Rejected
    ensures CheckMemberStatus(true, false, Some(p)) == Redirect(Login, Alert(UnassignedKey), true) <==>
              p.memberStatus == UserProfiles.Unassigned
  {
  }

  // ---------------------------------------------------------------------
  // restrict_manufacturer_user_to_shipping_requests

  /** `controller_name`: the last segment of `controller_path`. */
  function ControllerName(controllerPath: string): (r: string)
    ensures '/' !in r
  {
    var ps := Pieces(controllerPath, '/');
    ps[|ps| - 1]
  }

  lemma ControllerNameOfPlain(name: string)
    requires '/' !in name
    ensures ControllerName(name) == name
  {
    PiecesWithoutSep(name, '/');
  }

  lemma ControllerNameOfNested(ns: string, name: string)
    requires '/' !in ns && '/' !in name
    ensures ControllerName(ns + "/" + name) == name
  {
    PiecesConcat(ns, name, '/');
    PiecesWithoutSep(name, '/');
  }

  predicate StartsWith(s: string, prefix: string)
  {
    |prefix| <= |s| && s[..|prefix|] == prefix
  }

  const NotAuthorizedKey: string := "pundit.not_authorized"

  /** `restrict_manufacturer_user_to_shipping_requests`: a manufacturer user
    * may use the shipping requests, the dashboard, the sign-in, sign-out
    * and registration controllers and the non-admin static pages; anything
    * else redirects to the shipping requests. */
  function RestrictManufacturer(manufacturerUser: bool, controllerPath: string): (r: Response)
    ensures !manufacturerUser ==> r == Continue
    ensures r != Continue ==> r == RedirectWith(ShippingRequests, Alert(NotAuthorizedKey))
  {
    if !manufacturerUser then Continue
    else if ControllerName(controllerPath) == "shipping_requests" then Continue
    else if ControllerName(controllerPath) == "dashboard" then Continue
    else if StartsWith(controllerPath, "devise/") || controllerPath == "users/registrations" then Continue
    else if controllerPath == "users/sessions" then Continue
    else if !StartsWith(controllerPath, "admin/") && ControllerName(controllerPath) == "pages" then Continue
    else RedirectWith(ShippingRequests, Alert(NotAuthorizedKey))
  }

  /** A top-level controller is open to a manufacturer user exactly when it is
    * the shipping requests, the dashboard or the static pages. */
  lemma TopLevelControllersForManufacturers(name: string)
    requires '/' !in name
    ensures RestrictManufacturer(true, name) == Continue <==> name in {"shipping_requests", "dashboard", "pages"}
  {
    ControllerNameOfPlain(name);
    assert "users/registrations"[5] == '/' && "users/sessions"[5] == '/';
    NoNamespace(name, "devise/");
  }

  lemma NoNamespace(name: string, ns: string)
    requires '/' !in name && |ns| > 0 && ns[|ns| - 1] == '/'
    ensures !StartsWith(name, ns)
  {
  }

  /** Under `admin/` only a controller named `shipping_requests` or
    * `dashboard` is open to a manufacturer user; the static pages are not. */
  lemma AdminControllersForManufacturers(name: string)
    requires '/' !in name
    ensures RestrictManufacturer(true, "admin/" + name) == Continue <==> name in {"shipping_requests", "dashboard"}
  {
    ControllerNameOfNested("admin", name);
    var path := "admin/" + name;
    assert path == "admin" + "/" + name;
    assert StartsWith(path, "admin/") by {
      assert path[..6] == "admin/";
    }
  }

  /** The restriction never sends a manufacturer user in a loop: the page it
    * redirects to, and the sign-in and sign-out controllers, are open. */
  lemma RestrictionTargetOpen()
    ensures RestrictManufacturer(true, "shipping_requests") == Continue
    ensures RestrictManufacturer(true, "users/sessions") == Continue
    ensures RestrictManufacturer(true, "users/registrations") == Continue
  {
    ControllerNameOfPlain("shipping_requests");
  }

  // ---------------------------------------------------------------------
  // warn_password_expiring_soon

  const Day: int := 86400
  const PasswordLifetime: int := 90 * Day
  const WarningWindow: int := 14 * Day

  /** `warn_password_expiring_soon`: the number of days shown in the warning,
    * `None` when there is none.  Times are seconds. */
  function PasswordWarning(signedIn: bool, deviseController: bool, controllerPath: string, actionName: string,
                           changedAt: Option<int>, now: int): (r: Option<int>)
    ensures r.Some? <==>
              signedIn && !deviseController && !(controllerPath == "users/registrations" && actionName == "edit")
              && changedAt.Some? && 0 < changedAt.value + PasswordLifetime - now <= WarningWindow
    ensures r.Some? ==>
              var left := changedAt.value + PasswordLifetime - now;
              1 <= r.value <= 14 && (r.value - 1) * Day < left <= r.value * Day
  {
    if !signedIn || deviseController then None
    else if controllerPath == "users/registrations" && actionName == "edit" then None
    else if changedAt.None? then None
    else
      var expiry := changedAt.value + PasswordLifetime;
      if now >= expiry then None
      else if expiry - now > WarningWindow then None
      else Some((expiry - now + Day - 1) / Day)
  }

  /** The warning's day count is the ceiling of the time left in days: it
    * changes at whole days before expiry and never shows zero. */
  lemma PasswordWarningMonotone(changedAt: int, now1: int, now2: int)
    requires now1 <= now2
    requires PasswordWarning(true, false, "", "", Some(changedAt), now1).Some?
    requires PasswordWarning(true, false, "", "", Some(changedAt), now2).Some?
    ensures PasswordWarning(true, false, "", "", Some(changedAt), now2).value
            <= PasswordWarning(true, false, "", "", Some(changedAt), now1).value
  {
  }

  // ---------------------------------------------------------------------
  // pending counts for the header

  /** `status_pending.count` over a request list. */
  function PendingRequests(scope: map<Id, ApprovalRequests.RequestRow>): set<Id>
  {
    set k | k in scope && scope[k].status == ApprovalRequests.Pending
  }

  function PendingOrderRequests(scope: map<Id, OrderApprovalRequests.OrderRequestRow>): set<Id>
  {
    set k | k in scope && scope[k].status == ApprovalRequests.Pending
  }

  /** `centers_as_approver.any?`. */
  predicate ApproverOfSomeCenter(p: UserProfiles.Profile, customers: map<Id, Customers.Customer>)
  {
    exists k :: k in customers && customers[k].approverProfileId == Some(p.id)
  }

  /** `set_pending_approval_requests_count`: `None` leaves the header count
    * unset; a query that raises (`raised`) shows 0. */
  function PendingApprovalRequestsCount(signedIn: bool, deviseController: bool, u: Account,
                                        table: map<Id, ApprovalRequests.RequestRow>, companyIds: set<Id>,
                                        raised: bool): (r: Option<nat>)
    ensures r.Some? <==> signedIn && !deviseController && ApprovalRequestPolicy.ActiveAdmin(u)
    ensures r.Some? && raised ==> r.value == 0
    ensures r.Some? && !raised ==> r.value == |PendingRequests(ApprovalRequestPolicy.RequestScope(u, table, companyIds))|
  {
    if !signedIn || deviseController then None
    else if !ApplicationPolicy.ActiveUser(u) then None
    else if !UserProfiles.CanApproveMembers(u.profile.value) then None
    else if raised then Some(0)
    else Some(|PendingRequests(ApprovalRequestPolicy.RequestScope(u, table, companyIds))|)
  }

  /** `set_pending_order_approvals_count` as written.  `centers_as_approver`
    * is defined nowhere (`UserProfile` has no such association or method), so
    * for an active user who is no admin the call raises NoMethodError and the
    * bare `rescue` sets the count to 0; only admins reach the query. */
  function PendingOrderApprovalsCountAsWritten(signedIn: bool, deviseController: bool, u: Account,
                                               table: map<Id, OrderApprovalRequests.OrderRequestRow>, companyIds: set<Id>,
                                               customerOf: OrderApprovalRequests.OrderRequestRow -> Option<Customers.Customer>,
                                               raised: bool): (r: Option<nat>)
    ensures r.Some? <==> signedIn && !deviseController && ApplicationPolicy.ActiveUser(u)
    ensures r.Some? && (raised || !UserProfiles.CanApproveMembers(u.profile.value)) ==> r.value == 0
    ensures r.Some? && !raised && UserProfiles.CanApproveMembers(u.profile.value) ==>
              r.value == |PendingOrderRequests(OrderApprovalRequestPolicy.OrderRequestScope(u, table, companyIds, customerOf))|
  {
    if !signedIn || deviseController then None
    else if !ApplicationPolicy.ActiveUser(u) then None
    else if !UserProfiles.CanApproveMembers(u.profile.value) then Some(0)
    else if raised then Some(0)
    else Some(|PendingOrderRequests(OrderApprovalRequestPolicy.OrderRequestScope(u, table, companyIds, customerOf))|)
  }

  /** As written, the approver of a receiving center who is no admin always
    * sees 0 pending order approvals, while the intended count is the number of
    * pending requests in that user's scope; and a user who approves nothing
    * gets a badge of 0 where none was meant. */
  lemma CenterApproverSeesZero(u: Account, customers: map<Id, Customers.Customer>,
                               table: map<Id, OrderApprovalRequests.OrderRequestRow>, companyIds: set<Id>,
                               customerOf: OrderApprovalRequests.OrderRequestRow -> Option<Customers.Customer>)
    requires ApplicationPolicy.ActiveUser(u) && !UserProfiles.CanApproveMembers(u.profile.value)
    ensures PendingOrderApprovalsCountAsWritten(true, false, u, table, companyIds, customerOf, false) == Some(0)
    ensures ApproverOfSomeCenter(u.profile.value, customers) ==>
              PendingOrderApprovalsCount(true, false, u, customers, table, companyIds, customerOf, false)
              == Some(|PendingOrderRequests(OrderApprovalRequestPolicy.OrderRequestScope(u, table, companyIds, customerOf))|)
    ensures !ApproverOfSomeCenter(u.profile.value, customers) ==>
              PendingOrderApprovalsCount(true, false, u, customers, table, companyIds, customerOf, false) == None
  {
  }

  /** `set_pending_order_approvals_count` as evidently intended: for active
    * admins and the approvers of some center; a query that raises shows 0. */
  function PendingOrderApprovalsCount(signedIn: bool, deviseController: bool, u: Account,
                                      customers: map<Id, Customers.Customer>,
                                      table: map<Id, OrderApprovalRequests.OrderRequestRow>, companyIds: set<Id>,
                                      customerOf: OrderApprovalRequests.OrderRequestRow -> Option<Customers.Customer>,
                                      raised: bool): (r: Option<nat>)
    ensures r.Some? <==>
              signedIn && !deviseController && ApplicationPolicy.ActiveUser(u)
              && (UserProfiles.CanApproveMembers(u.profile.value) || ApproverOfSomeCenter(u.profile.value, customers))
    ensures r.Some? && raised ==> r.value == 0
    ensures r.Some? && !raised ==>
              r.value == |PendingOrderRequests(OrderApprovalRequestPolicy.OrderRequestScope(u, table, companyIds, customerOf))|
  {
    if !signedIn || deviseController then None
    else if !ApplicationPolicy.ActiveUser(u) then None
    else if !(UserProfiles.CanApproveMembers(u.profile.value) || ApproverOfSomeCenter(u.profile.value, customers)) then None
    else if raised then Some(0)
    else Some(|PendingOrderRequests(OrderApprovalRequestPolicy.OrderRequestScope(u, table, companyIds, customerOf))|)
  }

  /** The member-approval count counts only requests of the admin's own
    * company (all of them for an internal admin). */
  lemma PendingApprovalCountIsolated(u: Account, table: map<Id, ApprovalRequests.RequestRow>, companyIds: set<Id>)
    requires !ApplicationPolicy.InternalAdmin(u)
    ensures forall k :: k in PendingRequests(ApprovalRequestPolicy.RequestScope(u, table, companyIds)) ==>
              k in table && table[k].status == ApprovalRequests.Pending
              && (table[k].companyId.None? || table[k].companyId == ApplicationPolicy.UserCompanyId(u))
  {
    ApprovalRequestPolicy.RequestScopeMatchesPolicy(u, table, companyIds);
  }

  // ---------------------------------------------------------------------
  // Error handlers

  datatype Rescued = NotAuthorized | RecordNotFound

  /** `user_not_authorized` and `record_not_found`: an alert and a redirect
    * back to the previous page, or to the root page without one. */
  function Rescue(e: Rescued): (r: Response)
    ensures r.Redirect? && r.to == Back(Root) && !r.signOut && r.flash.Alert?
    ensures e == NotAuthorized <==> r.flash == Alert(NotAuthorizedKey)
  {
    match e
    case NotAuthorized => RedirectWith(Back(Root), Alert(NotAuthorizedKey))
    case RecordNotFound => RedirectWith(Back(Root), Alert("errors.record_not_found"))
  }

  // ---------------------------------------------------------------------
  // log_critical_access

  /** `skip_access_log?`. */
  predicate SkipAccessLog(deviseController: bool, controllerPath: string)
  {
    deviseController || controllerPath == "pages"
  }

  /** The skipped controllers have no critical action: the skip changes
    * nothing about which requests are logged. */
  lemma SkippedControllersNotCritical(controllerPath: string, actionName: string)
    requires controllerPath in {"pages", "users/sessions", "users/registrations"}
    ensures !AccessLogger.CriticalAction(controllerPath, actionName)
  {
    assert AccessLogger.RecordedActions(controllerPath) == {};
    AccessLogger.CriticalActionsByController(controllerPath, actionName);
  }

  /** `log_critical_access`: only signed-in requests outside the skipped
    * controllers reach the logger. */
  method LogCriticalAccess(store: AccessLogger.AccessLogStore, signedIn: bool, deviseController: bool,
                           user: Account, req: AccessLogger.Request, now: int, storeFails: bool)
    modifies store
    ensures store.rows == old(store.rows)
              + (if signedIn && !SkipAccessLog(deviseController, req.controllerPath)
                    && AccessLogger.Written(Some(user), req, now, storeFails)
                 then [AccessLogger.NewRow(Some(user), req, now)] else [])
  {
    if SkipAccessLog(deviseController, req.controllerPath) || !signedIn {
      return;
    }
    store.Log(Some(user), req, now, storeFails);
  }
}
