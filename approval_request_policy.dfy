// Who may list and decide member approval requests: admins of the request's
// company and internal admins, and only while active.

module ApprovalRequestPolicy {
  import opened Common
  import opened MultiTenant
  import opened ApplicationPolicy
  import UserProfiles
  import ApprovalRequests

  type RequestRow = ApprovalRequests.RequestRow

  /** The common part of every action: an active admin. */
  predicate ActiveAdmin(u: Account)
  {
    AdminOrCompanyAdmin(u) && ActiveUser(u)
  }

  function RequestAllows(u: Account, r: RequestRow, a: Action): Decision
  {
    match a
    case Index => Some(ActiveAdmin(u))
    case Show => Some(ActiveAdmin(u) && SameCompany(u, r.companyId))
    case Approve => Some(ActiveAdmin(u) && SameCompany(u, r.companyId) && r.status == ApprovalRequests.Pending)
    case Reject => Some(ActiveAdmin(u) && SameCompany(u, r.companyId) && r.status == ApprovalRequests.Pending)
    case _ => BaseAllows(a, false, false)
  }

  /** Policy and record agree: whoever may approve or reject a request with a
    * company passes the reviewed-by validation of the request, so a decision the
    * policy lets through is never refused for the reviewing user's role. */
  lemma DecisionAdmitsReviewer(u: Account, r: RequestRow)
    requires r.companyId.Some?
    requires RequestAllows(u, r, Approve) == Some(true) || RequestAllows(u, r, Reject) == Some(true)
    ensures ApprovalRequests.ReviewerAdmitted(u.profile, r.companyId)
    ensures r.status == ApprovalRequests.Pending
  {
    ApprovalRequests.ReviewerAdmittedRoles(u.profile, r.companyId);
  }

  /** No approver or normal member may see or decide member requests. */
  lemma MembersCannotDecide(u: Account, r: RequestRow, a: Action)
    requires u.profile.Some? && u.profile.value.role in {UserProfiles.Normal, UserProfiles.Approver}
    requires a in {Index, Show, Approve, Reject}
    ensures RequestAllows(u, r, a) == Some(false)
  {
  }

  /** `ApprovalRequestPolicy::Scope#resolve`. */
  function RequestScope(u: Account, table: map<Id, RequestRow>, companyIds: set<Id>): map<Id, RequestRow>
  {
    if !ActiveUser(u) then map[]
    else if !UserProfiles.CanApproveMembers(u.profile.value) then map[]
    else if InternalAdmin(u) then table
    else ForCompany(table, (r: RequestRow) => r.companyId, CurrentCompanyId(u, companyIds))
  }

  /** The list is empty for anyone `index?` refuses, holds no request of
    * another company, and every request with a company in it can be opened. */
  lemma RequestScopeMatchesPolicy(u: Account, table: map<Id, RequestRow>, companyIds: set<Id>)
    ensures RequestScope(u, table, companyIds) != map[] ==> ActiveAdmin(u)
    ensures !InternalAdmin(u) ==>
              forall k :: k in RequestScope(u, table, companyIds) ==>
                k in table && (table[k].companyId.None? || table[k].companyId == UserCompanyId(u))
    ensures forall k :: k in RequestScope(u, table, companyIds) && table[k].companyId.Some? ==>
              RequestAllows(u, table[k], Show) == Some(true)
  {
  }
}
