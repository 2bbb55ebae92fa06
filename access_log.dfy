// The access log of critical operations: its required request fields, the
// translation key and fallback text of an action's label, the label with
// its target, and the pruning scope of old rows.

module AccessLogs {
  import opened Common

  /** One `access_logs` row; `createdAt` is a time in seconds. */
  datatype AccessRow = AccessRow(
    userId: Option<Id>,
    userName: Option<string>,
    userEmail: Option<string>,
    companyId: Option<Id>,
    controllerPath: Option<string>,
    actionName: Option<string>,
    requestPath: Option<string>,
    requestMethod: Option<string>,
    ipAddress: Option<string>,
    userAgent: Option<string>,
    targetSummary: Option<string>,
    createdAt: int)

  datatype AccessError = ControllerPathBlank | ActionNameBlank | RequestPathBlank | RequestMethodBlank

  const AllAccessErrors: seq<AccessError> := [ControllerPathBlank, ActionNameBlank, RequestPathBlank, RequestMethodBlank]

  predicate AccessViolates(e: AccessError, r: AccessRow)
  {
    match e
    case ControllerPathBlank => BlankOpt(r.controllerPath)
    case ActionNameBlank => BlankOpt(r.actionName)
    case RequestPathBlank => BlankOpt(r.requestPath)
    case RequestMethodBlank => BlankOpt(r.requestMethod)
  }

  function AccessErrors(r: AccessRow): (res: set<AccessError>)
    ensures forall e :: e in res <==> AccessViolates(e, r)
  {
    set e | e in AllAccessErrors && AccessViolates(e, r)
  }

  /** `s.gsub(from, to)` for single characters. */
  function ReplaceChar(s: string, from: char, to: char): (r: string)
    ensures |r| == |s|
    ensures forall i :: 0 <= i < |s| ==> r[i] == (if s[i] == from then to else s[i])
  {
    if s == [] then [] else [if s[0] == from then to else s[0]] + ReplaceChar(s[1..], from, to)
  }

  /** The translation key below `access_logs.actions`: the controller path
    * with '/' turned into '.', a '.', and the action name. */
  function ActionKey(controllerPath: string, actionName: string): string
  {
    ReplaceChar(controllerPath, '/', '.') + "." + actionName
  }

  /** The text used when no translation exists. */
  function DefaultLabel(controllerPath: string, actionName: string): string
  {
    controllerPath + "#" + actionName
  }

  /** `action_label`; `translations` holds the `access_logs.actions.*` entries.
    * A nil action interpolates as "".  A nil path would make `gsub` raise;
    * the presence validation keeps it out of saved rows, and the model reads
    * it as "" (see the left-out list). */
  function ActionLabel(r: AccessRow, translations: map<string, string>): (text: string)
    ensures var cp := if r.controllerPath.Some? then r.controllerPath.value else "";
            var an := if r.actionName.Some? then r.actionName.value else "";
            (ActionKey(cp, an) in translations ==> text == translations[ActionKey(cp, an)])
            && (ActionKey(cp, an) !in translations ==> text == DefaultLabel(cp, an))
  {
    var cp := if r.controllerPath.Some? then r.controllerPath.value else "";
    var an := if r.actionName.Some? then r.actionName.value else "";
    var key := ActionKey(cp, an);
    if key in translations then translations[key] else DefaultLabel(cp, an)
  }

  /** Controller paths are '/'-separated and never hold a '.', so the key
    * gives the path back by turning each '.' of its prefix into '/'. */
  lemma ActionKeyRecoversPath(controllerPath: string, actionName: string)
    requires '.' !in controllerPath
    ensures ReplaceChar(ActionKey(controllerPath, actionName)[..|controllerPath|], '.', '/') == controllerPath
    ensures ActionKey(controllerPath, actionName)[|controllerPath| + 1..] == actionName
  {
    var key := ActionKey(controllerPath, actionName);
    var back := ReplaceChar(key[..|controllerPath|], '.', '/');
    assert forall i :: 0 <= i < |controllerPath| ==> key[i] == (if controllerPath[i] == '/' then '.' else controllerPath[i]);
    assert back == controllerPath;
  }

  /** Controller paths and action names hold no '.', so distinct (path,
    * action) pairs have distinct keys. */
  lemma ActionKeyInjective(p1: string, a1: string, p2: string, a2: string)
    requires '.' !in p1 && '.' !in p2 && '.' !in a1 && '.' !in a2
    requires ActionKey(p1, a1) == ActionKey(p2, a2)
    ensures p1 == p2 && a1 == a2
  {
    var k := ActionKey(p1, a1);
    var r1, r2 := ReplaceChar(p1, '/', '.'), ReplaceChar(p2, '/', '.');
    assert k == r1 + ['.'] + a1 && k == r2 + ['.'] + a2;
    // the separator is the last '.' of the key, as action names hold none
    assert k[|r1|] == '.' && k[|r2|] == '.';
    assert forall j :: |r1| < j < |k| ==> k[j] == a1[j - |r1| - 1] && k[j] != '.';
    assert forall j :: |r2| < j < |k| ==> k[j] == a2[j - |r2| - 1] && k[j] != '.';
    ActionKeyRecoversPath(p1, a1);
    ActionKeyRecoversPath(p2, a2);
  }

  /** `action_with_target`: the label alone, or `"label: target"`. */
  function ActionWithTarget(r: AccessRow, translations: map<string, string>): (s: string)
    ensures BlankOpt(r.targetSummary) ==> s == ActionLabel(r, translations)
    ensures !BlankOpt(r.targetSummary) ==> |s| == |ActionLabel(r, translations)| + 2 + |r.targetSummary.value|
    ensures !BlankOpt(r.targetSummary) ==> s[..|ActionLabel(r, translations)|] == ActionLabel(r, translations)
    ensures !BlankOpt(r.targetSummary) ==> s[|s| - |r.targetSummary.value|..] == r.targetSummary.value
  {
    var base := ActionLabel(r, translations);
    if BlankOpt(r.targetSummary) then base else base + ": " + r.targetSummary.value
  }

  /** The `older_than(date)` scope. */
  function OlderThan(table: map<Id, AccessRow>, date: int): (r: map<Id, AccessRow>)
    ensures forall k :: k in r <==> k in table && table[k].createdAt < date
    ensures forall k :: k in r ==> r[k] == table[k]
  {
    map k | k in table && table[k].createdAt < date :: table[k]
  }

  /** Pruning the rows older than `date` keeps exactly the others: no row
    * from `date` on is lost and nothing older survives. */
  lemma PruneKeepsRecent(table: map<Id, AccessRow>, date: int)
    ensures var kept := table - OlderThan(table, date).Keys;
            (forall k :: k in kept <==> k in table && table[k].createdAt >= date)
            && (forall k :: k in kept ==> kept[k] == table[k])
  {
  }
}
