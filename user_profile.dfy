// A member's profile: role and membership status enums, the capability
// predicates built on them, and the profile validations.  The profile table
// is a class so that the approval workflow can rewrite a row in place.

module UserProfiles {
  import opened Common

  // ---------------------------------------------------------------------
  // Enums and their integer column codes

  datatype Role = Normal | Approver | CompanyAdmin | InternalAdmin

  function RoleCode(r: Role): (n: nat)
    ensures n <= 3
  {
    match r
    case Normal => 0
    case Approver => 1
    case CompanyAdmin => 2
    case InternalAdmin => 3
  }

  /** Reading the `role` column back; codes outside the enum have no role. */
  function RoleOfCode(n: int): (r: Option<Role>)
    ensures r.Some? <==> 0 <= n <= 3
  {
    if n == 0 then Some(Normal)
    else if n == 1 then Some(Approver)
    else if n == 2 then Some(CompanyAdmin)
    else if n == 3 then Some(InternalAdmin)
    else None
  }

  lemma RoleCodeRoundTrip(r: Role, n: int)
    ensures RoleOfCode(RoleCode(r)) == Some(r)
    ensures RoleOfCode(n).Some? ==> RoleCode(RoleOfCode(n).value) == n
  {
  }

  /** The enum keys as strings (`UserProfile.roles.keys`). */
  function RoleName(r: Role): string
  {
    match r
    case Normal => "normal"
    case Approver => "approver"
    case CompanyAdmin => "company_admin"
    case InternalAdmin => "internal_admin"
  }

  /** `UserProfile.roles.key?(name)` followed by the lookup. */
  function RoleOfName(s: string): (r: Option<Role>)
    ensures r.Some? ==> RoleName(r.value) == s
  {
    if s == "normal" then Some(Normal)
    else if s == "approver" then Some(Approver)
    else if s == "company_admin" then Some(CompanyAdmin)
    else if s == "internal_admin" then Some(InternalAdmin)
    else None
  }

  lemma RoleNameRoundTrip(r: Role)
    ensures RoleOfName(RoleName(r)) == Some(r)
  {
  }

  datatype MemberStatus = Pending | Active | Rejected | Unassigned

  function StatusCode(s: MemberStatus): (n: nat)
    ensures n <= 3
  {
    match s
    case Pending => 0
    case Active => 1
    case Rejected => 2
    case Unassigned => 3
  }

  function StatusOfCode(n: int): (r: Option<MemberStatus>)
    ensures r.Some? <==> 0 <= n <= 3
  {
    if n == 0 then Some(Pending)
    else if n == 1 then Some(Active)
    else if n == 2 then Some(Rejected)
    else if n == 3 then Some(Unassigned)
    else None
  }

  lemma StatusCodeRoundTrip(s: MemberStatus, n: int)
    ensures StatusOfCode(StatusCode(s)) == Some(s)
    ensures StatusOfCode(n).Some? ==> StatusCode(StatusOfCode(n).value) == n
  {
  }

  // ---------------------------------------------------------------------
  // The profile row

  /** One `user_profiles` row, in the schema that still has `supervisor_id`
    * (migration 20260230000000 drops it; `ValidateAsWritten` shows what the
    * code does then); `billingCenterId` is the member's billing center. */
  datatype Profile = Profile(
    id: Id,
    userId: Option<Id>,
    name: Option<string>,
    phone: Option<string>,
    paymentTerms: Option<string>,
    role: Role,
    memberStatus: MemberStatus,
    companyId: Option<Id>,
    manufacturerId: Option<Id>,
    supervisorId: Option<Id>,
    billingCenterId: Option<Id>)

  /** A user account as the policies and reviewer checks see it: its id, its
    * e-mail and its profile, if any. */
  datatype Account = Account(id: Id, email: string, profile: Option<Profile>)

  predicate IsActive(p: Profile) { p.memberStatus == Active }

  predicate IsInternalAdmin(p: Profile) { p.role == InternalAdmin }

  predicate IsCompanyAdmin(p: Profile) { p.role == CompanyAdmin }

  /** `can_approve_members?`, and equally `can_access_admin_dashboard?`. */
  predicate CanApproveMembers(p: Profile)
  {
    p.role == CompanyAdmin || p.role == InternalAdmin
  }

  /** `can_approve_orders?`: the member approvers plus the approver role. */
  predicate CanApproveOrders(p: Profile)
  {
    p.role == Approver || p.role == CompanyAdmin || p.role == InternalAdmin
  }

  /** `manufacturer_user?`. */
  predicate ManufacturerUser(p: Profile)
  {
    p.manufacturerId.Some?
  }

  /** The capabilities follow the numeric privilege order of the role codes:
    * approving orders needs code 1 or more, approving members code 2 or more. */
  lemma CapabilityLadder(p: Profile)
    ensures CanApproveOrders(p) <==> RoleCode(p.role) >= 1
    ensures CanApproveMembers(p) <==> RoleCode(p.role) >= 2
    ensures CanApproveMembers(p) ==> CanApproveOrders(p)
    ensures CanApproveOrders(p) && !CanApproveMembers(p) <==> p.role == Approver
  {
  }

  /** `company_optional?`: unassigned members, internal admins and manufacturer users. */
  predicate CompanyOptional(p: Profile)
  {
    p.memberStatus == Unassigned || p.role == InternalAdmin || p.manufacturerId.Some?
  }

  // ---------------------------------------------------------------------
  // Validations

  datatype ProfileError =
    | UserIdBlank | UserIdTaken
    | NameBlank | NameTooLong
    | PhoneTooLong | PaymentTermsTooLong
    | CompanyIdBlank
    | SupervisorOtherCompany | OwnSupervisor

  /** Another row of the table already belongs to the same user. */
  predicate UserIdTakenIn(p: Profile, rows: map<Id, Profile>)
  {
    p.userId.Some? && exists k :: k in rows && k != p.id && rows[k].userId == p.userId
  }

  /** The supervisor rule: with both ids set, the supervisor row must exist and
    * share the company. */
  predicate SupervisorMismatch(p: Profile, rows: map<Id, Profile>)
  {
    p.supervisorId.Some? && p.companyId.Some?
    && (p.supervisorId.value !in rows || rows[p.supervisorId.value].companyId != p.companyId)
  }

  /** The presence, uniqueness and length rules on the profile's own fields. */
  function FieldErrors(p: Profile, rows: map<Id, Profile>): (r: set<ProfileError>)
    ensures NameBlank in r <==> BlankOpt(p.name)
    ensures CompanyIdBlank !in r && OwnSupervisor !in r && SupervisorOtherCompany !in r
  {
    (if p.userId.None? then {UserIdBlank} else {})
    + (if UserIdTakenIn(p, rows) then {UserIdTaken} else {})
    + (if BlankOpt(p.name) then {NameBlank} else {})
    + (if LongerThan(p.name, 255) then {NameTooLong} else {})
    + (if LongerUnlessBlank(p.phone, 50) then {PhoneTooLong} else {})
    + (if LongerUnlessBlank(p.paymentTerms, 255) then {PaymentTermsTooLong} else {})
  }

  /** The rules on the company and the supervisor. */
  function LinkErrors(p: Profile, rows: map<Id, Profile>): (r: set<ProfileError>)
    ensures CompanyIdBlank in r <==> p.companyId.None? && !CompanyOptional(p)
    ensures OwnSupervisor in r <==> p.supervisorId == Some(p.id)
    ensures SupervisorOtherCompany in r ==> p.supervisorId.Some? && p.companyId.Some?
    ensures NameBlank !in r
  {
    (if p.companyId.None? && !CompanyOptional(p) then {CompanyIdBlank} else {})
    + (if SupervisorMismatch(p, rows) then {SupervisorOtherCompany} else {})
    + (if p.supervisorId.Some? && p.supervisorId.value == p.id then {OwnSupervisor} else {})
  }

  /** The errors `valid?` collects for `p` against the rest of the table. */
  function ProfileErrors(p: Profile, rows: map<Id, Profile>): (r: set<ProfileError>)
    ensures CompanyIdBlank in r <==> p.companyId.None? && !CompanyOptional(p)
    ensures NameBlank in r <==> BlankOpt(p.name)
    ensures OwnSupervisor in r <==> p.supervisorId == Some(p.id)
    ensures SupervisorOtherCompany in r ==> p.supervisorId.Some? && p.companyId.Some?
  {
    FieldErrors(p, rows) + LinkErrors(p, rows)
  }

  predicate ProfileValid(p: Profile, rows: map<Id, Profile>)
  {
    ProfileErrors(p, rows) == {}
  }

  // ---------------------------------------------------------------------
  // The schema without `supervisor_id`

  /** What `valid?` does with a profile: collect the errors, or raise. */
  datatype Validation = Validated(errors: set<ProfileError>) | NameErrorRaised

  /** `valid?` as written, in a schema with or without the `supervisor_id`
    * column.  The two supervisor validators call `supervisor_id` with no
    * `respond_to?` guard (the manufacturer validator has one), so once
    * migration 20260230000000 has dropped the column every validation of a
    * profile raises. */
  function ValidateAsWritten(p: Profile, rows: map<Id, Profile>, supervisorColumn: bool): (v: Validation)
    ensures v.Validated? <==> supervisorColumn
    ensures v.Validated? ==> (v.errors == {} <==> ProfileValid(p, rows))
  {
    if supervisorColumn then Validated(ProfileErrors(p, rows)) else NameErrorRaised
  }

  /** `valid?` with the supervisor validators guarded as the manufacturer
    * one is: without the column the supervisor reads as nil and only the
    * other rules remain.  This is what `ProfileErrors` states for a profile
    * whose `supervisorId` is nil, the form every other member of the model
    * relies on. */
  function ValidateGuarded(p: Profile, rows: map<Id, Profile>, supervisorColumn: bool): (v: Validation)
    ensures v.Validated?
    ensures supervisorColumn ==> v == ValidateAsWritten(p, rows, true)
    ensures !supervisorColumn ==> SupervisorOtherCompany !in v.errors && OwnSupervisor !in v.errors
  {
    if supervisorColumn then Validated(ProfileErrors(p, rows))
    else Validated(ProfileErrors(p.(supervisorId := None), rows))
  }

  /** After migration 20260230000000 the validation as written raises for
    * every profile, so no profile can be created or updated; the guarded
    * validation never raises and reports exactly the field and company
    * errors. */
  lemma DroppedSupervisorColumnRaises(p: Profile, rows: map<Id, Profile>)
    ensures ValidateAsWritten(p, rows, false) == NameErrorRaised
    ensures ValidateGuarded(p, rows, false)
            == Validated(FieldErrors(p, rows) + (if p.companyId.None? && !CompanyOptional(p) then {CompanyIdBlank} else {}))
  {
    var q := p.(supervisorId := None);
    assert FieldErrors(q, rows) == FieldErrors(p, rows) by {
      assert UserIdTakenIn(q, rows) == UserIdTakenIn(p, rows);
    }
    assert !SupervisorMismatch(q, rows);
  }

  /** Clearing the supervisor keeps a valid profile valid, so every property
    * proved here of valid profiles holds in the schema without the column
    * under the guarded validation. */
  lemma ClearedSupervisorKeepsValid(p: Profile, rows: map<Id, Profile>)
    requires ProfileValid(p, rows)
    ensures ValidateGuarded(p, rows, false) == Validated({})
    ensures ProfileValid(p.(supervisorId := None), rows)
  {
    DroppedSupervisorColumnRaises(p, rows);
    assert ProfileErrors(p, rows) == {};
    assert FieldErrors(p, rows) == {};
    assert !(p.companyId.None? && !CompanyOptional(p)) by {
      assert CompanyIdBlank !in ProfileErrors(p, rows);
    }
  }

  /** `supervisor_user`: the user of the profile `supervisor_id` names.  Once
    * the column is dropped, `belongs_to :supervisor` reads the missing key as
    * nil, so no profile has a supervisor. */
  function SupervisorUser(p: Profile, rows: map<Id, Profile>, supervisorColumn: bool): (r: Option<Id>)
    ensures r.Some? <==> supervisorColumn && p.supervisorId.Some? && p.supervisorId.value in rows
                         && rows[p.supervisorId.value].userId.Some?
    ensures r.Some? ==> r == rows[p.supervisorId.value].userId
  {
    if supervisorColumn && p.supervisorId.Some? && p.supervisorId.value in rows then rows[p.supervisorId.value].userId
    else None
  }

  /** Only the membership status enters `company_optional?` among the fields the
    * approval workflow writes, so for a company member (or an internal admin or
    * manufacturer user) moving between statuses keeps a valid profile valid. */
  lemma StatusChangeKeepsValid(p: Profile, rows: map<Id, Profile>, s: MemberStatus)
    requires ProfileValid(p, rows)
    requires p.companyId.Some? || p.role == InternalAdmin || p.manufacturerId.Some?
    ensures ProfileValid(p.(memberStatus := s), rows[p.id := p.(memberStatus := s)])
  {
    var q := p.(memberStatus := s);
    var rows' := rows[p.id := q];
    forall k | k in rows' && k != q.id
      ensures rows'[k].userId == rows[k].userId
    {
    }
    if q.supervisorId.Some? && q.companyId.Some? {
      var sid := q.supervisorId.value;
      assert sid != p.id;
      assert sid in rows' ==> rows'[sid] == rows[sid];
    }
  }

  /** An unassigned member's status change to pending needs a company. */
  lemma PendingWithoutCompanyInvalid(p: Profile, rows: map<Id, Profile>)
    requires p.companyId.None? && p.role != InternalAdmin && p.manufacturerId.None?
    ensures ProfileValid(p, rows) ==> p.memberStatus == Unassigned
    ensures p.memberStatus != Unassigned ==> CompanyIdBlank in ProfileErrors(p, rows)
  {
  }

  // ---------------------------------------------------------------------
  // The table the approval workflow writes to

  /** The table once row `pid` has membership status `s`. */
  function WithMemberStatus(rows: map<Id, Profile>, pid: Id, s: MemberStatus): map<Id, Profile>
    requires pid in rows
  {
    rows[pid := rows[pid].(memberStatus := s)]
  }

  /** `update!(member_status: s)` on row `pid` succeeds: the row exists and the
    * changed row is valid against the changed table. */
  predicate MemberStatusWritable(rows: map<Id, Profile>, pid: Id, s: MemberStatus)
  {
    pid in rows && ProfileValid(rows[pid].(memberStatus := s), WithMemberStatus(rows, pid, s))
  }

  /** A valid stored profile of a company member, an internal admin or a
    * manufacturer user accepts every status. */
  lemma WritableWhenValid(rows: map<Id, Profile>, pid: Id, s: MemberStatus)
    requires pid in rows && rows[pid].id == pid && ProfileValid(rows[pid], rows)
    requires rows[pid].companyId.Some? || rows[pid].role == InternalAdmin || rows[pid].manufacturerId.Some?
    ensures MemberStatusWritable(rows, pid, s)
  {
    StatusChangeKeepsValid(rows[pid], rows, s);
  }

  class ProfileTable {
    var rows: map<Id, Profile>

    constructor (rows0: map<Id, Profile>)
      ensures rows == rows0
    {
      rows := rows0;
    }

    /** `profile.save!` of a new row: validated against the table; on success
      * inserted, otherwise raises and writes nothing. */
    method Insert(p: Profile) returns (ok: bool)
      modifies this
      ensures ok <==> p.id !in old(rows) && ProfileValid(p, old(rows))
      ensures ok ==> rows == old(rows)[p.id := p]
      ensures !ok ==> rows == old(rows)
    {
      if p.id in rows || !ProfileValid(p, rows) {
        return false;
      }
      rows := rows[p.id := p];
      return true;
    }

    /** `user_profile.update!(member_status: s)`: validates the changed row against
      * the table; on success writes it, otherwise raises and writes nothing. */
    method UpdateMemberStatus(pid: Id, s: MemberStatus) returns (ok: bool)
      modifies this
      ensures ok <==> MemberStatusWritable(old(rows), pid, s)
      ensures ok ==> rows == WithMemberStatus(old(rows), pid, s)
      ensures !ok ==> rows == old(rows)
    {
      if pid !in rows {
        return false;
      }
      var q := rows[pid].(memberStatus := s);
      if ProfileValid(q, rows[pid := q]) {
        rows := rows[pid := q];
        return true;
      }
      return false;
    }
  }
}
