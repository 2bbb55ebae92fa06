// Companies are managed by internal admins; an active member sees the own company.

module CompanyPolicy {
  import opened Common
  import opened ApplicationPolicy

  /** `CompanyPolicy#action?` for the company with id `companyId`. */
  function CompanyAllows(u: Account, companyId: Id, a: Action): Decision
  {
    match a
    case Index => Some(InternalAdmin(u))
    case Show => Some(InternalAdmin(u) || (ActiveUser(u) && Some(companyId) == UserCompanyId(u)))
    case Create => Some(InternalAdmin(u))
    case Update => Some(InternalAdmin(u))
    case Destroy => Some(InternalAdmin(u))
    case _ => BaseAllows(a, InternalAdmin(u), InternalAdmin(u))
  }

  /** `CompanyPolicy::Scope#resolve` over the companies keyed by id; internal
    * admins see every company whatever their member status. */
  function CompanyScope<C>(u: Account, table: map<Id, C>): map<Id, C>
  {
    if InternalAdmin(u) then table
    else if ActiveUser(u) then map k | k in table && Some(k) == UserCompanyId(u) :: table[k]
    else map[]
  }

  /** The list holds exactly the companies `show?` opens: everything for an
    * internal admin, at most the own company for anyone else. */
  lemma CompanyScopeMatchesShow<C>(u: Account, table: map<Id, C>, k: Id)
    requires k in table
    ensures k in CompanyScope(u, table) <==> CompanyAllows(u, k, Show) == Some(true)
    ensures !InternalAdmin(u) ==> |CompanyScope(u, table).Keys| <= 1
  {
    if !InternalAdmin(u) {
      var ks := CompanyScope(u, table).Keys;
      if UserCompanyId(u).Some? {
        var c := UserCompanyId(u).value;
        assert ks <= {c};
        if c in ks { assert ks == {c}; } else { assert ks == {}; }
      } else {
        assert ks == {};
      }
    }
  }
}
