// The manufacturer master is shared by every company; a manufacturer's own
// users see only their manufacturer, internal admins maintain it.

module ManufacturerPolicy {
  import opened Common
  import opened ApplicationPolicy
  import UserProfiles

  /** `show?`, which `pdf?` asks in turn. */
  predicate ShowManufacturer(u: Account)
  {
    ActiveUser(u)
  }

  function ManufacturerAllows(u: Account, a: Action): Decision
  {
    match a
    case Index => Some(ActiveUser(u))
    case Show => Some(ShowManufacturer(u))
    case Pdf => Some(ShowManufacturer(u))
    case Create => Some(InternalAdmin(u))
    case Update => Some(InternalAdmin(u))
    case Destroy => Some(InternalAdmin(u))
    case _ => BaseAllows(a, InternalAdmin(u), InternalAdmin(u))
  }

  /** `ManufacturerPolicy::Scope#resolve` over the manufacturers keyed by id. */
  function ManufacturerScope<M>(u: Account, table: map<Id, M>): map<Id, M>
  {
    if !ActiveUser(u) then map[]
    else if UserProfiles.ManufacturerUser(u.profile.value) then
      map k | k in table && Some(k) == u.profile.value.manufacturerId :: table[k]
    else table
  }

  /** `pdf?` answers as `show?`; a manufacturer user lists at most the own
    * manufacturer, any other active user the whole master. */
  lemma ManufacturerScopeRules<M>(u: Account, table: map<Id, M>)
    ensures ManufacturerAllows(u, Pdf) == ManufacturerAllows(u, Show)
    ensures ActiveUser(u) && u.profile.value.manufacturerId.Some? ==>
              ManufacturerScope(u, table).Keys <= {u.profile.value.manufacturerId.value}
    ensures ActiveUser(u) && u.profile.value.manufacturerId.None? ==> ManufacturerScope(u, table) == table
    ensures ManufacturerScope(u, table) != map[] ==> ManufacturerAllows(u, Index) == Some(true)
  {
  }
}
