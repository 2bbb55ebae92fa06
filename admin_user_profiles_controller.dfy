// The member administration screens (`Admin::UserProfilesController`): the
// lookup through the profile scope, the tab selection and member list of the
// index, the profile update with its manufacturer rule, and the guarded role
// change.

module AdminUserProfilesController {
  import opened Common
  import opened Web
  import opened UserProfiles
  import ApplicationPolicy
  import UserProfilePolicy
  import ApplicationController

  type Account = ApplicationPolicy.Account

  const UpdatedKey: string := "user_profiles.updated"
  const InvalidRoleKey: string := "user_profiles.invalid_role"
  const CannotChangeOwnRoleKey: string := "user_profiles.cannot_change_own_role"
  const CannotGrantInternalAdminKey: string := "user_profiles.cannot_grant_internal_admin"
  const RoleChangedKey: string := "user_profiles.role_changed"
  const RoleChangeFailedKey: string := "user_profiles.role_change_failed"

  // ---------------------------------------------------------------------
  // Before-actions

  datatype ProfileAction = Show | Edit | Update | ChangeRole

  function PolicyAction(a: ProfileAction): ApplicationPolicy.Action
  {
    match a
    case Show => ApplicationPolicy.Show
    case Edit => ApplicationPolicy.Edit
    case Update => ApplicationPolicy.Update
    case ChangeRole => ApplicationPolicy.ChangeRole
  }

  /** `set_user_profile` (a find in the profile scope; a miss is rescued as
    * RecordNotFound), then `authorize`. */
  function Gate(u: Account, a: ProfileAction, pid: Id, table: map<Id, Profile>, companyIds: set<Id>): (r: Response)
    ensures r == Continue ==>
              pid in UserProfilePolicy.ProfileScope(u, table, companyIds)
              && UserProfilePolicy.ProfileAllows(u, table[pid], PolicyAction(a)) == Some(true)
  {
    var scope := UserProfilePolicy.ProfileScope(u, table, companyIds);
    if pid !in scope then ApplicationController.Rescue(ApplicationController.RecordNotFound)
    else if UserProfilePolicy.ProfileAllows(u, scope[pid], PolicyAction(a)) == Some(true) then Continue
    else ApplicationController.Rescue(ApplicationController.NotAuthorized)
  }

  /** Anyone but an internal admin reaches only the own profile or the
    * profiles of the own company, and never changes the own role. */
  lemma GateKeepsTenant(u: Account, a: ProfileAction, pid: Id, table: map<Id, Profile>, companyIds: set<Id>)
    requires Gate(u, a, pid, table, companyIds) == Continue
    ensures !ApplicationPolicy.InternalAdmin(u) ==>
              UserProfilePolicy.OwnProfile(u, table[pid]) || table[pid].companyId == ApplicationPolicy.UserCompanyId(u)
    ensures a == ChangeRole ==> table[pid].userId != Some(u.id)
  {
    UserProfilePolicy.ProfileScopeMatchesShow(u, table, companyIds);
    if !ApplicationPolicy.InternalAdmin(u) && !UserProfilePolicy.OwnProfile(u, table[pid]) {
      UserProfilePolicy.OthersProfileRules(u, table[pid]);
    }
  }

  // ---------------------------------------------------------------------
  // index: tabs and the member list

  /** The index's tabs: the unassigned members, the manufacturer accounts, or
    * one company; no tab when there is no company to show. */
  datatype Tab = UnassignedTab | ManufacturersTab | CompanyTab(companyId: Id) | NoTab

  /** The companies offered: every active company (ordered by code, given as
    * `activeByCode`) for an internal admin, the own company otherwise. */
  function CompanyList(u: Account, activeByCode: seq<Id>, companyIds: set<Id>): (r: seq<Id>)
    ensures !ApplicationPolicy.InternalAdmin(u) ==> |r| <= 1
    ensures !ApplicationPolicy.InternalAdmin(u) ==>
              forall i :: 0 <= i < |r| ==> Some(r[i]) == ApplicationPolicy.UserCompanyId(u)
  {
    if ApplicationPolicy.InternalAdmin(u) then activeByCode
    else
      match ApplicationPolicy.CurrentCompanyId(u, companyIds)
      case Some(c) => [c]
      case None => []
  }

  /** The `company_id` parameter: "unassigned" and "manufacturers" open those
    * tabs for an internal admin; a present value whose `to_i` is one of the
    * offered companies opens that company; otherwise the first company. */
  function SelectTab(u: Account, param: Option<string>, companies: seq<Id>): (r: Tab)
    ensures r.UnassignedTab? ==> ApplicationPolicy.InternalAdmin(u) && param == Some("unassigned")
    ensures r.ManufacturersTab? ==> ApplicationPolicy.InternalAdmin(u) && param == Some("manufacturers")
    ensures r.CompanyTab? ==> r.companyId in companies
    ensures r.NoTab? ==> companies == []
  {
    var s := if param.Some? then param.value else "";
    if s == "unassigned" && ApplicationPolicy.InternalAdmin(u) then UnassignedTab
    else if s == "manufacturers" && ApplicationPolicy.InternalAdmin(u) then ManufacturersTab
    else if Present(s) && ToI(s) >= 0 && ToI(s) as Id in companies then CompanyTab(ToI(s) as Id)
    else if companies != [] then CompanyTab(companies[0])
    else NoTab
  }

  /** The link of a company's tab selects that company, and without a
    * parameter the first company is shown. */
  lemma TabLinkRoundTrip(u: Account, c: Id, companies: seq<Id>)
    requires c in companies
    ensures SelectTab(u, Some(NatToString(c)), companies) == CompanyTab(c)
    ensures SelectTab(u, None, companies) == CompanyTab(companies[0])
  {
    NumeralNotKeyword(c);
    NumeralReadsBack(c);
    DefaultTab(u, companies);
  }

  lemma DefaultTab(u: Account, companies: seq<Id>)
    requires companies != []
    ensures SelectTab(u, None, companies) == CompanyTab(companies[0])
  {
    assert !Present("");
  }

  /** A company id written out is neither tab keyword. */
  lemma NumeralNotKeyword(c: Id)
    ensures NatToString(c) != "unassigned" && NatToString(c) != "manufacturers"
  {
    var s := NatToString(c);
    assert IsDigit(s[0]);
    assert "unassigned"[0] == 'u' && "manufacturers"[0] == 'm';
  }

  /** A company id written out is present and reads back as the id. */
  lemma NumeralReadsBack(c: Id)
    ensures Present(NatToString(c)) && ToI(NatToString(c)) == c
  {
    var s := NatToString(c);
    assert IsDigit(s[0]);
    assert !IsBlankChar(s[0]);
    ToIOfNumeral(s);
    NatToStringValue(c);
  }

  /** The members listed under a tab: the profile scope narrowed to the
    * unassigned members, the manufacturer accounts, or the active members of
    * the company. */
  function ListedProfiles(u: Account, tab: Tab, table: map<Id, Profile>, companyIds: set<Id>): (r: map<Id, Profile>)
    ensures forall k :: k in r ==> k in UserProfilePolicy.ProfileScope(u, table, companyIds) && r[k] == table[k]
    ensures tab.UnassignedTab? ==> forall k :: k in r ==> r[k].memberStatus == Unassigned
    ensures tab.ManufacturersTab? ==> forall k :: k in r ==> ManufacturerUser(r[k])
    ensures tab.CompanyTab? ==> forall k :: k in r ==> r[k].memberStatus == Active && r[k].companyId == Some(tab.companyId)
    ensures tab.NoTab? ==> r == map[]
  {
    var scope := UserProfilePolicy.ProfileScope(u, table, companyIds);
    match tab
    case UnassignedTab => map k | k in scope && scope[k].memberStatus == Unassigned :: scope[k]
    case ManufacturersTab => map k | k in scope && scope[k].manufacturerId.Some? :: scope[k]
    case CompanyTab(c) => map k | k in scope && scope[k].memberStatus == Active && scope[k].companyId == Some(c) :: scope[k]
    case NoTab => map[]
  }

  /** The index as a company admin or member sees it: only active members of
    * the own company, whatever the parameter; an active internal admin sees
    * every active member of the selected company. */
  lemma IndexIsolation(u: Account, param: Option<string>, activeByCode: seq<Id>, table: map<Id, Profile>, companyIds: set<Id>)
    ensures var tab := SelectTab(u, param, CompanyList(u, activeByCode, companyIds));
            var listed := ListedProfiles(u, tab, table, companyIds);
            (!ApplicationPolicy.InternalAdmin(u) ==>
               forall k :: k in listed ==> listed[k].companyId == ApplicationPolicy.UserCompanyId(u))
            && (ApplicationPolicy.InternalAdmin(u) && ApplicationPolicy.ActiveUser(u) && tab.CompanyTab? ==>
               forall k :: k in table && table[k].memberStatus == Active && table[k].companyId == Some(tab.companyId) ==>
                 k in listed)
  {
    var companies := CompanyList(u, activeByCode, companyIds);
    var tab := SelectTab(u, param, companies);
    if !ApplicationPolicy.InternalAdmin(u) && tab.CompanyTab? {
      assert tab.companyId == companies[0];
    }
  }

  // ---------------------------------------------------------------------
  // update

  /** The submitted profile fields, already cast; `None` for a field not
    * submitted, `Some(None)` for an id submitted blank. */
  datatype ProfileParams = ProfileParams(
    name: Option<string>,
    phone: Option<string>,
    paymentTerms: Option<string>,
    billingCenterId: Option<Option<Id>>,
    manufacturerId: Option<Option<Id>>,
    companyId: Option<Option<Id>>)

  /** `user_profile_params`: the manufacturer and the company only for an
    * internal admin. */
  function PermittedParams(u: Account, a: ProfileParams): (r: ProfileParams)
    ensures ApplicationPolicy.InternalAdmin(u) ==> r == a
    ensures !ApplicationPolicy.InternalAdmin(u) ==>
              r.manufacturerId.None? && r.companyId.None?
              && r.name == a.name && r.phone == a.phone && r.paymentTerms == a.paymentTerms
              && r.billingCenterId == a.billingCenterId
  {
    if ApplicationPolicy.InternalAdmin(u) then a else a.(manufacturerId := None, companyId := None)
  }

  function Assigned<T>(current: T, posted: Option<T>): T
  {
    if posted.Some? then posted.value else current
  }

  /** The attributes `update` writes: the permitted fields, and when a
    * manufacturer is assigned, no company and an active membership. */
  function UpdatedProfile(u: Account, p: Profile, a: ProfileParams): (r: Profile)
    ensures r.id == p.id && r.userId == p.userId && r.role == p.role && r.supervisorId == p.supervisorId
  {
    var f := PermittedParams(u, a);
    var assigning := f.manufacturerId.Some? && f.manufacturerId.value.Some?;
    var q := p.(name := if f.name.Some? then f.name else p.name,
                phone := if f.phone.Some? then f.phone else p.phone,
                paymentTerms := if f.paymentTerms.Some? then f.paymentTerms else p.paymentTerms,
                billingCenterId := Assigned(p.billingCenterId, f.billingCenterId),
                manufacturerId := Assigned(p.manufacturerId, f.manufacturerId),
                companyId := if assigning then None else Assigned(p.companyId, f.companyId));
    if assigning then q.(memberStatus := Active) else q
  }

  /** A company admin's update never moves a member between companies,
    * never links a manufacturer and never changes a membership status. */
  lemma CompanyAdminCannotReassign(u: Account, p: Profile, a: ProfileParams)
    requires !ApplicationPolicy.InternalAdmin(u)
    ensures UpdatedProfile(u, p, a).companyId == p.companyId
    ensures UpdatedProfile(u, p, a).manufacturerId == p.manufacturerId
    ensures UpdatedProfile(u, p, a).memberStatus == p.memberStatus
  {
  }

  /** An internal admin linking a manufacturer turns the member into an
    * active manufacturer user without a company, and the company rule of the
    * validations can then never fail. */
  lemma ManufacturerAssignment(u: Account, p: Profile, a: ProfileParams, m: Id, rows: map<Id, Profile>)
    requires ApplicationPolicy.InternalAdmin(u) && a.manufacturerId == Some(Some(m))
    ensures var r := UpdatedProfile(u, p, a);
            r.manufacturerId == Some(m) && r.companyId.None? && r.memberStatus == Active
            && ManufacturerUser(r) && CompanyIdBlank !in ProfileErrors(r, rows)
  {
  }

  /** Unlinking a manufacturer (a blank id) keeps the company as it is. */
  lemma UnlinkKeepsCompany(u: Account, p: Profile, a: ProfileParams)
    requires ApplicationPolicy.InternalAdmin(u) && a.manufacturerId == Some(None)
    ensures UpdatedProfile(u, p, a).manufacturerId.None?
    ensures UpdatedProfile(u, p, a).companyId == Assigned(p.companyId, a.companyId)
    ensures UpdatedProfile(u, p, a).memberStatus == p.memberStatus
  {
  }

  /** `update` of a found, authorized profile: the changed row is validated
    * against the table and written, or the form is shown again. */
  method UpdateProfile(t: ProfileTable, u: Account, pid: Id, a: ProfileParams) returns (resp: Response)
    requires pid in t.rows
    modifies t
    ensures var q := UpdatedProfile(u, old(t.rows)[pid], a);
            (ProfileValid(q, old(t.rows)[pid := q]) ==>
               t.rows == old(t.rows)[pid := q] && resp == RedirectWith(AdminUserProfile(pid), Notice(UpdatedKey)))
            && (!ProfileValid(q, old(t.rows)[pid := q]) ==>
               t.rows == old(t.rows) && resp == Render("edit", Unprocessable))
  {
    var q := UpdatedProfile(u, t.rows[pid], a);
    if ProfileValid(q, t.rows[pid := q]) {
      t.rows := t.rows[pid := q];
      resp := RedirectWith(AdminUserProfile(pid), Notice(UpdatedKey));
    } else {
      resp := Render("edit", Unprocessable);
    }
  }

  // ---------------------------------------------------------------------
  // change_role

  /** The guards of `change_role`, in order: the role must be one of the
    * enum's names, the profile must not be the acting user's own, and only
    * an internal admin grants the internal admin role. */
  function RoleDecision(u: Account, p: Profile, newRole: Option<string>): (r: Result<Role, string>)
    ensures r.Ok? ==> newRole == Some(RoleName(r.value))
    ensures r.Ok? ==> p.userId != Some(u.id)
    ensures r.Ok? && r.value == InternalAdmin ==> ApplicationPolicy.InternalAdmin(u)
    ensures newRole.None? || RoleOfName(newRole.value).None? <==> r == Err(InvalidRoleKey)
  {
    if newRole.None? || RoleOfName(newRole.value).None? then Err(InvalidRoleKey)
    else if p.userId == Some(u.id) then Err(CannotChangeOwnRoleKey)
    else if newRole.value == "internal_admin" && !ApplicationPolicy.InternalAdmin(u) then Err(CannotGrantInternalAdminKey)
    else Ok(RoleOfName(newRole.value).value)
  }

  /** Every role name is accepted by the first guard, and once the policy has
    * let the request through the own-role guard is never what stops it;
    * nobody who passes the policy grants a role above their own. */
  lemma RoleGuards(u: Account, p: Profile, role: Role)
    requires UserProfilePolicy.ProfileAllows(u, p, ApplicationPolicy.ChangeRole) == Some(true)
    ensures RoleDecision(u, p, Some(RoleName(role))) != Err(InvalidRoleKey)
    ensures RoleDecision(u, p, Some(RoleName(role))) != Err(CannotChangeOwnRoleKey)
    ensures RoleDecision(u, p, Some(RoleName(role))).Ok? ==> RoleCode(role) <= RoleCode(u.profile.value.role)
  {
    RoleNameRoundTrip(role);
    assert "internal_admin" != "normal" && "internal_admin" != "approver" && "internal_admin" != "company_admin";
  }

  /** Taking the internal admin role from a member without a company, a
    * manufacturer or the unassigned status leaves a profile the company rule
    * refuses, so that change always ends in `role_change_failed`. */
  lemma DemotingCompanylessAdminFails(p: Profile, role: Role, rows: map<Id, Profile>)
    requires p.role == InternalAdmin && p.companyId.None? && p.manufacturerId.None? && p.memberStatus != Unassigned
    requires role != InternalAdmin
    ensures !ProfileValid(p.(role := role), rows)
  {
    assert CompanyIdBlank in ProfileErrors(p.(role := role), rows);
  }

  /** `change_role` of a found, authorized profile: a refused guard or a
    * failed save redirects to the profile with an alert and writes nothing;
    * otherwise the new role is written. */
  method ChangeRoleOf(t: ProfileTable, u: Account, pid: Id, newRole: Option<string>) returns (resp: Response)
    requires pid in t.rows
    modifies t
    ensures var d := RoleDecision(u, old(t.rows)[pid], newRole);
            (d.Err? ==> t.rows == old(t.rows) && resp == RedirectWith(AdminUserProfile(pid), Alert(d.error)))
            && (d.Ok? ==>
                 var q := old(t.rows)[pid].(role := d.value);
                 (ProfileValid(q, old(t.rows)[pid := q]) ==>
                    t.rows == old(t.rows)[pid := q] && resp == RedirectWith(AdminUserProfile(pid), Notice(RoleChangedKey)))
                 && (!ProfileValid(q, old(t.rows)[pid := q]) ==>
                    t.rows == old(t.rows) && resp == RedirectWith(AdminUserProfile(pid), Alert(RoleChangeFailedKey))))
  {
    var d := RoleDecision(u, t.rows[pid], newRole);
    if d.Err? {
      resp := RedirectWith(AdminUserProfile(pid), Alert(d.error));
      return;
    }
    var q := t.rows[pid].(role := d.value);
    if ProfileValid(q, t.rows[pid := q]) {
      t.rows := t.rows[pid := q];
      resp := RedirectWith(AdminUserProfile(pid), Notice(RoleChangedKey));
    } else {
      resp := RedirectWith(AdminUserProfile(pid), Alert(RoleChangeFailedKey));
    }
  }
}
