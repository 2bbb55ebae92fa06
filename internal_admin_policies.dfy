// The three policies that admit internal admins only: company payments, the
// access log and the issuer settings.  Their scopes ask for the role alone,
// not for an active member status.

module InternalAdminPolicies {
  import opened Common
  import opened ApplicationPolicy

  /** `CompanyPaymentPolicy`: every action it defines is the internal admins'. */
  function CompanyPaymentAllows(u: Account, a: Action): Decision
  {
    if a in {Index, Show, New, Create, Edit, Update, Destroy} then Some(InternalAdmin(u))
    else BaseAllows(a, InternalAdmin(u), InternalAdmin(u))
  }

  /** `AccessLogPolicy`: reading only. */
  function AccessLogAllows(u: Account, a: Action): Decision
  {
    if a in {Index, Show} then Some(InternalAdmin(u))
    else BaseAllows(a, false, false)
  }

  /** `IssuerSettingPolicy`: showing and editing the single row. */
  function IssuerSettingAllows(u: Account, a: Action): Decision
  {
    if a in {Show, Update} then Some(InternalAdmin(u))
    else BaseAllows(a, false, InternalAdmin(u))
  }

  /** The scope of company payments and of access logs. */
  function InternalAdminScope<R>(u: Account, table: map<Id, R>): map<Id, R>
  {
    if InternalAdmin(u) then table else map[]
  }

  /** Nobody but an internal admin passes any of the three policies; access
    * logs and the issuer row are never created, changed or removed through
    * them, and the issuer row is never listed. */
  lemma OnlyInternalAdmins(u: Account, a: Action)
    ensures CompanyPaymentAllows(u, a) == Some(true) ==> InternalAdmin(u)
    ensures AccessLogAllows(u, a) == Some(true) <==> InternalAdmin(u) && a in {Index, Show}
    ensures IssuerSettingAllows(u, a) == Some(true) <==> InternalAdmin(u) && a in {Show, Edit, Update}
    ensures a in {Index, Show, New, Create, Edit, Update, Destroy} ==> CompanyPaymentAllows(u, a) == Some(InternalAdmin(u))
  {
  }

  /** The scopes show all or nothing, and an internal admin still pending or
    * rejected sees all of it. */
  lemma InternalAdminScopeIgnoresStatus<R>(u: Account, table: map<Id, R>)
    ensures InternalAdminScope(u, table) != map[] ==> InternalAdmin(u)
    ensures InternalAdmin(u) && !ActiveUser(u) ==> InternalAdminScope(u, table) == table
  {
  }
}
