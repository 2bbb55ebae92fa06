// Who may see and maintain receiving and billing centers: every active user
// sees the centers of the own company, only internal admins change them.

module CustomerPolicy {
  import opened Common
  import opened MultiTenant
  import opened ApplicationPolicy
  import Customers

  function CustomerAllows(u: Account, c: Customers.Customer, a: Action): Decision
  {
    match a
    case Index => Some(ActiveUser(u))
    case Show => Some(ActiveUser(u) && (InternalAdmin(u) || SameCompany(u, c.companyId)))
    case Create => Some(InternalAdmin(u))
    case Update => Some(InternalAdmin(u))
    case Destroy => Some(InternalAdmin(u))
    case Import => Some(InternalAdmin(u))
    case _ => BaseAllows(a, InternalAdmin(u), InternalAdmin(u))
  }

  /** Changes are the internal admins' alone, active or not; `show?` reduces to
    * an active user of the center's company (internal admins pass `same_company?`). */
  lemma CustomerWritesInternalOnly(u: Account, c: Customers.Customer)
    ensures forall a :: a in {Create, New, Update, Edit, Destroy, Import} ==>
              CustomerAllows(u, c, a) == Some(InternalAdmin(u))
    ensures CustomerAllows(u, c, Show) == Some(ActiveUser(u) && SameCompany(u, c.companyId))
  {
  }

  /** `CustomerPolicy::Scope#resolve`. */
  function CustomerScope(u: Account, table: map<Id, Customers.Customer>, companyIds: set<Id>): map<Id, Customers.Customer>
  {
    if !ActiveUser(u) then map[]
    else if InternalAdmin(u) then table
    else ForCompany(table, (c: Customers.Customer) => c.companyId, CurrentCompanyId(u, companyIds))
  }

  /** For a user whose company exists, the list holds exactly the centers
    * with a company that `show?` opens. */
  lemma CustomerScopeMatchesShow(u: Account, table: map<Id, Customers.Customer>, companyIds: set<Id>, k: Id)
    requires k in table && table[k].companyId.Some?
    requires InternalAdmin(u) || CurrentCompanyId(u, companyIds) == UserCompanyId(u)
    ensures k in CustomerScope(u, table, companyIds) <==> CustomerAllows(u, table[k], Show) == Some(true)
  {
  }
}
