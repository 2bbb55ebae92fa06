// The base authorization policy: every action denied unless a policy says
// otherwise, `new?`/`edit?` following `create?`/`update?`, the role and
// status helpers, and the same-company check the tenant isolation rests on.
// The signed-in user is an `Account`; its profile may be missing.

module ApplicationPolicy {
  import opened Common
  import UserProfiles

  type Account = UserProfiles.Account

  /** The `action?` methods a policy may answer. */
  datatype Action =
    | Index | Show | Create | New | Update | Edit | Destroy
    | Ship | Deliver | Cancel | Export | Import | Pdf | Approve | Reject | ChangeRole

  /** A policy's answer: `None` when the policy class defines no such method. */
  type Decision = Option<bool>

  /** The base class: the five basic actions deny; `new?` asks `create?` and
    * `edit?` asks `update?` of the same (possibly overriding) policy, whose
    * answers are passed in. */
  function BaseAllows(a: Action, create: bool, update: bool): (d: Decision)
    ensures a in {Index, Show, Create, Update, Destroy} ==> d == Some(false)
    ensures a == New ==> d == Some(create)
    ensures a == Edit ==> d == Some(update)
    ensures a !in {Index, Show, Create, New, Update, Edit, Destroy} ==> d.None?
  {
    match a
    case Index => Some(false)
    case Show => Some(false)
    case Create => Some(false)
    case New => Some(create)
    case Update => Some(false)
    case Edit => Some(update)
    case Destroy => Some(false)
    case _ => None
  }

  /** The base policy itself denies every action it defines. */
  lemma BaseDeniesAll(a: Action)
    ensures BaseAllows(a, false, false).Some? ==> !BaseAllows(a, false, false).value
  {
  }

  /** The outcome of a `Scope#resolve`: the selected rows, or the base class's NotImplementedError. */
  datatype Resolution<R> = Rows(rows: map<Id, R>) | NotImplemented

  /** The base `Scope#resolve` raises. */
  function BaseResolve<R>(table: map<Id, R>): (r: Resolution<R>)
    ensures r.NotImplemented?
  {
    NotImplemented
  }

  // ---------------------------------------------------------------------
  // helpers

  /** `user_profile`. */
  function ProfileOf(u: Account): Option<UserProfiles.Profile>
  {
    u.profile
  }

  /** `active_user?`: the profile exists and is active. */
  predicate ActiveUser(u: Account)
  {
    u.profile.Some? && UserProfiles.IsActive(u.profile.value)
  }

  /** `internal_admin?`. */
  predicate InternalAdmin(u: Account)
  {
    u.profile.Some? && UserProfiles.IsInternalAdmin(u.profile.value)
  }

  /** `company_admin?`. */
  predicate CompanyAdmin(u: Account)
  {
    u.profile.Some? && UserProfiles.IsCompanyAdmin(u.profile.value)
  }

  /** `admin_or_company_admin?`. */
  predicate AdminOrCompanyAdmin(u: Account)
  {
    InternalAdmin(u) || CompanyAdmin(u)
  }

  /** `user_company_id` (`user.company_id`): the profile's company id. */
  function UserCompanyId(u: Account): Option<Id>
  {
    if u.profile.Some? then u.profile.value.companyId else None
  }

  /** The id of `user.current_company`: the profile's company when that
    * company row exists among `companyIds`, nil otherwise. */
  function CurrentCompanyId(u: Account, companyIds: set<Id>): (c: Option<Id>)
    ensures c.Some? ==> c == UserCompanyId(u) && c.value in companyIds
    ensures UserCompanyId(u).Some? && UserCompanyId(u).value in companyIds ==> c == UserCompanyId(u)
  {
    var cid := UserCompanyId(u);
    if cid.Some? && cid.value in companyIds then cid else None
  }

  /** `same_company?` against a record whose `company_id` is `recordCompanyId`. */
  predicate SameCompany(u: Account, recordCompanyId: Option<Id>)
  {
    if InternalAdmin(u) then true
    else if UserCompanyId(u).None? then false
    else recordCompanyId == UserCompanyId(u)
  }

  /** `same_company?` holds for an internal admin whatever the record, and for
    * anyone else exactly when user and record name the same, present company. */
  lemma SameCompanyIff(u: Account, recordCompanyId: Option<Id>)
    ensures InternalAdmin(u) ==> SameCompany(u, recordCompanyId)
    ensures !InternalAdmin(u) ==>
              (SameCompany(u, recordCompanyId) <==> recordCompanyId.Some? && recordCompanyId == UserCompanyId(u))
  {
  }

  /** Only internal admins pass `same_company?` for two different companies. */
  lemma SameCompanyExclusive(u: Account, c: Id, d: Id)
    requires c != d && SameCompany(u, Some(c)) && SameCompany(u, Some(d))
    ensures InternalAdmin(u)
  {
  }
}
