// Membership approval requests: a one-shot pending -> approved | rejected
// review whose saved status change rewrites the requesting profile's
// membership status, plus the pending-uniqueness rule and the reviewed-by rule.
// `approve!` and `reject!` do not check that the request is still pending;
// that guard is in the approval request policy.

module ApprovalRequests {
  import opened Common
  import opened MultiTenant
  import UserProfiles

  datatype RequestStatus = Pending | Approved | Rejected

  /** The integer stored in `status`. */
  function RequestStatusCode(s: RequestStatus): nat
  {
    match s
    case Pending => 0
    case Approved => 1
    case Rejected => 2
  }

  function RequestStatusOfCode(n: int): (r: Option<RequestStatus>)
    ensures r.Some? <==> 0 <= n <= 2
    ensures r.Some? ==> RequestStatusCode(r.value) == n
  {
    if n == 0 then Some(Pending) else if n == 1 then Some(Approved) else if n == 2 then Some(Rejected) else None
  }

  /** `reviewer_must_be_company_admin`, shared by both request kinds: the
    * reviewer's profile is an internal admin, or a company admin of the
    * request's company. */
  predicate ReviewerAdmitted(profile: Option<UserProfiles.Profile>, companyId: Option<Id>)
  {
    profile.Some?
    && (profile.value.role == UserProfiles.InternalAdmin
        || (profile.value.role == UserProfiles.CompanyAdmin && profile.value.companyId == companyId))
  }

  /** The roles the reviewed-by rule admits, whatever the company. */
  lemma ReviewerAdmittedRoles(profile: Option<UserProfiles.Profile>, companyId: Option<Id>)
    ensures ReviewerAdmitted(profile, companyId) ==> UserProfiles.CanApproveMembers(profile.value)
    ensures profile.Some? && profile.value.role == UserProfiles.InternalAdmin ==> ReviewerAdmitted(profile, companyId)
    ensures (profile.Some? && (profile.value.role == UserProfiles.Normal || profile.value.role == UserProfiles.Approver))
              ==> !ReviewerAdmitted(profile, companyId)
  {
  }

  /** The membership status a saved change to request status `s` writes, if any. */
  function ProfileStatusFor(s: RequestStatus): Option<UserProfiles.MemberStatus>
  {
    match s
    case Approved => Some(UserProfiles.Active)
    case Rejected => Some(UserProfiles.Rejected)
    case Pending => None
  }

  /** The columns of one `approval_requests` row; times are seconds. */
  datatype RequestRow = RequestRow(
    userProfileId: Id,
    companyId: Option<Id>,
    status: RequestStatus,
    reviewedById: Option<Id>,
    reviewedAt: Option<int>,
    reviewComment: Option<string>)

  datatype RequestError = CompanyIdBlank | ProfileHasRequest | ReviewerNotAdmin

  const AllRequestErrors: seq<RequestError> := [CompanyIdBlank, ProfileHasRequest, ReviewerNotAdmin]

  /** Another request, in any status, exists for the same profile and company. */
  predicate OtherRequestFor(id: Id, r: RequestRow, table: map<Id, RequestRow>)
  {
    exists k :: k in table && k != id && table[k].userProfileId == r.userProfileId && table[k].companyId == r.companyId
  }

  /** Whether the rule behind `e` fires for row `r` with key `id`; `reviewer` is
    * the user `reviewed_by_id` refers to, when that row exists. */
  predicate RequestViolates(e: RequestError, id: Id, r: RequestRow, reviewer: Option<UserProfiles.Account>, table: map<Id, RequestRow>)
  {
    match e
    case CompanyIdBlank => !CompanyIdPresent(r.companyId)
    case ProfileHasRequest => r.status == Pending && OtherRequestFor(id, r, table)
    case ReviewerNotAdmin => r.reviewedById.Some? && reviewer.Some? && !ReviewerAdmitted(reviewer.value.profile, r.companyId)
  }

  function RequestErrors(id: Id, r: RequestRow, reviewer: Option<UserProfiles.Account>, table: map<Id, RequestRow>): (res: set<RequestError>)
    ensures forall e :: e in res <==> RequestViolates(e, id, r, reviewer, table)
  {
    set e | e in AllRequestErrors && RequestViolates(e, id, r, reviewer, table)
  }

  /** A valid pending request is the only request of its profile in its company. */
  lemma ValidPendingIsOnly(table: map<Id, RequestRow>, a: Id, reviewer: Option<UserProfiles.Account>)
    requires a in table && table[a].status == Pending
    requires RequestErrors(a, table[a], reviewer, table) == {}
    ensures forall k :: k in table && k != a ==>
              !(table[k].userProfileId == table[a].userProfileId && table[k].companyId == table[a].companyId)
  {
    assert !RequestViolates(ProfileHasRequest, a, table[a], reviewer, table);
  }

  /** The outcome of a review (`update!` of status, reviewer, time and, for a
    * rejection, comment): the new row, the profile table after the
    * `after_update` callback, and whether the transaction committed.  The
    * callback runs only when the status really changed; a failing profile
    * update rolls the whole review back. */
  datatype ReviewOutcome = ReviewOutcome(row: RequestRow, profiles: map<Id, UserProfiles.Profile>, saved: bool)

  function Review(id: Id, r: RequestRow, s: RequestStatus, reviewer: UserProfiles.Account, now: int, comment: Option<string>,
                  table: map<Id, RequestRow>, profiles: map<Id, UserProfiles.Profile>): (o: ReviewOutcome)
    ensures o.row == r.(status := s, reviewedById := Some(reviewer.id), reviewedAt := Some(now), reviewComment := comment)
    ensures o.saved ==> RequestErrors(id, o.row, Some(reviewer), table) == {}
    ensures o.saved && s != r.status && ProfileStatusFor(s).Some? ==>
              UserProfiles.MemberStatusWritable(profiles, r.userProfileId, ProfileStatusFor(s).value)
    ensures o.saved && s != r.status && ProfileStatusFor(s).Some? ==>
              o.profiles == UserProfiles.WithMemberStatus(profiles, r.userProfileId, ProfileStatusFor(s).value)
    ensures !o.saved || s == r.status || ProfileStatusFor(s).None? ==> o.profiles == profiles
  {
    var row := r.(status := s, reviewedById := Some(reviewer.id), reviewedAt := Some(now), reviewComment := comment);
    if RequestErrors(id, row, Some(reviewer), table) != {} then ReviewOutcome(row, profiles, false)
    else if s == r.status || ProfileStatusFor(s).None? then ReviewOutcome(row, profiles, true)
    else if UserProfiles.MemberStatusWritable(profiles, r.userProfileId, ProfileStatusFor(s).value) then
      ReviewOutcome(row, UserProfiles.WithMemberStatus(profiles, r.userProfileId, ProfileStatusFor(s).value), true)
    else ReviewOutcome(row, profiles, false)
  }

  /** An admin of the request's company approving a pending request of a valid
    * member of that company commits and activates the member. */
  lemma ApprovalActivatesMember(id: Id, r: RequestRow, reviewer: UserProfiles.Account, now: int,
                                table: map<Id, RequestRow>, profiles: map<Id, UserProfiles.Profile>)
    requires r.status == Pending && r.companyId.Some?
    requires ReviewerAdmitted(reviewer.profile, r.companyId)
    requires r.userProfileId in profiles && profiles[r.userProfileId].id == r.userProfileId
    requires UserProfiles.ProfileValid(profiles[r.userProfileId], profiles)
    requires profiles[r.userProfileId].companyId == r.companyId
    ensures Review(id, r, Approved, reviewer, now, r.reviewComment, table, profiles).saved
    ensures Review(id, r, Approved, reviewer, now, r.reviewComment, table, profiles).profiles[r.userProfileId].memberStatus
              == UserProfiles.Active
  {
    UserProfiles.WritableWhenValid(profiles, r.userProfileId, UserProfiles.Active);
    var row := r.(status := Approved, reviewedById := Some(reviewer.id), reviewedAt := Some(now));
    assert forall e :: !RequestViolates(e, id, row, Some(reviewer), table);
  }

  /** A reviewer who is neither internal admin nor admin of the company cannot
    * review: the update fails and the profile table is untouched. */
  lemma NonAdminReviewFails(id: Id, r: RequestRow, s: RequestStatus, reviewer: UserProfiles.Account, now: int, comment: Option<string>,
                            table: map<Id, RequestRow>, profiles: map<Id, UserProfiles.Profile>)
    requires !ReviewerAdmitted(reviewer.profile, r.companyId)
    ensures !Review(id, r, s, reviewer, now, comment, table, profiles).saved
    ensures Review(id, r, s, reviewer, now, comment, table, profiles).profiles == profiles
  {
    var row := r.(status := s, reviewedById := Some(reviewer.id), reviewedAt := Some(now), reviewComment := comment);
    assert RequestViolates(ReviewerNotAdmin, id, row, Some(reviewer), table);
  }

  class ApprovalRequest {
    const id: Id
    var userProfileId: Id
    var companyId: Option<Id>
    var status: RequestStatus
    var reviewedById: Option<Id>
    var reviewedAt: Option<int>
    var reviewComment: Option<string>

    constructor (id: Id, r: RequestRow)
      ensures this.id == id && Row() == r
    {
      this.id := id;
      userProfileId := r.userProfileId;
      companyId := r.companyId;
      status := r.status;
      reviewedById := r.reviewedById;
      reviewedAt := r.reviewedAt;
      reviewComment := r.reviewComment;
    }

    function Row(): RequestRow
      reads this
    {
      RequestRow(userProfileId, companyId, status, reviewedById, reviewedAt, reviewComment)
    }

    /** The shared body of `approve!` and `reject!`. */
    method ReviewAs(s: RequestStatus, reviewer: UserProfiles.Account, now: int, comment: Option<string>,
                    table: map<Id, RequestRow>, profiles: UserProfiles.ProfileTable) returns (saved: bool)
      modifies this, profiles
      ensures var o := Review(id, old(Row()), s, reviewer, now, comment, table, old(profiles.rows));
              Row() == o.row && profiles.rows == o.profiles && saved == o.saved
    {
      var old0 := status;
      var errs := RequestErrors(id, Row().(status := s, reviewedById := Some(reviewer.id), reviewedAt := Some(now),
                                          reviewComment := comment), Some(reviewer), table);
      status := s;
      reviewedById := Some(reviewer.id);
      reviewedAt := Some(now);
      reviewComment := comment;
      if errs != {} {
        return false;
      }
      var target := ProfileStatusFor(s);
      if s == old0 || target.None? {
        return true;
      }
      saved := profiles.UpdateMemberStatus(userProfileId, target.value);
    }

    /** `approve!(reviewer)`: status approved, reviewer and time; the comment is kept. */
    method Approve(reviewer: UserProfiles.Account, now: int, table: map<Id, RequestRow>, profiles: UserProfiles.ProfileTable)
      returns (saved: bool)
      modifies this, profiles
      ensures var o := Review(id, old(Row()), Approved, reviewer, now, old(reviewComment), table, old(profiles.rows));
              Row() == o.row && profiles.rows == o.profiles && saved == o.saved
    {
      saved := ReviewAs(Approved, reviewer, now, reviewComment, table, profiles);
    }

    /** `reject!(reviewer, comment = nil)`: status rejected, reviewer, time and comment. */
    method Reject(reviewer: UserProfiles.Account, now: int, comment: Option<string>, table: map<Id, RequestRow>,
                  profiles: UserProfiles.ProfileTable)
      returns (saved: bool)
      modifies this, profiles
      ensures var o := Review(id, old(Row()), Rejected, reviewer, now, comment, table, old(profiles.rows));
              Row() == o.row && profiles.rows == o.profiles && saved == o.saved
    {
      saved := ReviewAs(Rejected, reviewer, now, comment, table, profiles);
    }
  }

  /** The `approval_requests` table. */
  class RequestTable {
    var rows: map<Id, RequestRow>

    constructor (rows0: map<Id, RequestRow>)
      ensures rows == rows0
    {
      rows := rows0;
    }

    /** `ApprovalRequest.create!(...)`: validated against the table; on success
      * inserted, otherwise raises and writes nothing. */
    method Create(id: Id, r: RequestRow, reviewer: Option<UserProfiles.Account>) returns (ok: bool)
      modifies this
      ensures ok <==> id !in old(rows) && RequestErrors(id, r, reviewer, old(rows)) == {}
      ensures ok ==> rows == old(rows)[id := r]
      ensures !ok ==> rows == old(rows)
    {
      if id in rows || RequestErrors(id, r, reviewer, rows) != {} {
        return false;
      }
      rows := rows[id := r];
      return true;
    }
  }
}
