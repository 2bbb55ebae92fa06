// Who may see and act on an order.  The status conditions of shipping,
// delivery, editing and cancelling live here, not in the order model,
// whose transitions accept any prior status.

module OrderPolicy {
  import opened Common
  import opened MultiTenant
  import opened ApplicationPolicy
  import UserProfiles
  import Orders

  predicate CreateAllowed(u: Account)
  {
    ActiveUser(u) && !InternalAdmin(u)
  }

  predicate UpdateAllowed(u: Account, o: Orders.OrderRow)
  {
    ActiveUser(u) && SameCompany(u, o.companyId) && Orders.CanBeEdited(o.status)
  }

  /** `OrderPolicy#action?` for the order `o`. */
  function OrderAllows(u: Account, o: Orders.OrderRow, a: Action): Decision
  {
    match a
    case Index => Some(ActiveUser(u))
    case Show => Some(ActiveUser(u) && SameCompany(u, o.companyId))
    case Create => Some(CreateAllowed(u))
    case Update => Some(UpdateAllowed(u, o))
    case Destroy => Some(AdminOrCompanyAdmin(u) && SameCompany(u, o.companyId) && Orders.CanBeCancelled(o.status))
    case Ship => Some(ActiveUser(u) && SameCompany(u, o.companyId) && o.status == Orders.Confirmed)
    case Deliver => Some(ActiveUser(u) && SameCompany(u, o.companyId) && o.status == Orders.Shipped)
    case Cancel => Some(ActiveUser(u) && SameCompany(u, o.companyId) && Orders.CanBeCancelled(o.status))
    case Export => Some(CreateAllowed(u))
    case _ => BaseAllows(a, CreateAllowed(u), UpdateAllowed(u, o))
  }

  /** `new?` and `edit?` answer as `create?` and `update?`; the policy defines no
    * `import?`, `pdf?`, `approve?`, `reject?` or `change_role?`. */
  lemma OrderInheritedActions(u: Account, o: Orders.OrderRow)
    ensures OrderAllows(u, o, New) == OrderAllows(u, o, Create)
    ensures OrderAllows(u, o, Edit) == OrderAllows(u, o, Update)
    ensures forall a :: a in {Import, Pdf, Approve, Reject, ChangeRole} ==> OrderAllows(u, o, a).None?
  {
  }

  /** The status gates: with an active user of the order's company, `ship?` holds
    * exactly on confirmed orders, `deliver?` on shipped ones, `update?` on
    * editable ones and `cancel?` on cancellable ones; so an order moves only
    * forward through the status codes under the policy. */
  lemma StatusGates(u: Account, o: Orders.OrderRow)
    requires ActiveUser(u) && SameCompany(u, o.companyId)
    ensures OrderAllows(u, o, Ship) == Some(Orders.StatusCode(o.status) == 1)
    ensures OrderAllows(u, o, Deliver) == Some(Orders.StatusCode(o.status) == 2)
    ensures OrderAllows(u, o, Update) == Some(Orders.StatusCode(o.status) <= 1)
    ensures OrderAllows(u, o, Cancel) == Some(Orders.StatusCode(o.status) <= 2)
  {
    Orders.StatusGates(o.status);
  }

  /** No status gate is passed without the status it names, whoever asks. */
  lemma GatesNeedStatus(u: Account, o: Orders.OrderRow)
    ensures OrderAllows(u, o, Ship) == Some(true) ==> o.status == Orders.Confirmed
    ensures OrderAllows(u, o, Deliver) == Some(true) ==> o.status == Orders.Shipped
    ensures OrderAllows(u, o, Update) == Some(true) ==> o.status in {Orders.Draft, Orders.Confirmed}
    ensures OrderAllows(u, o, Cancel) == Some(true) || OrderAllows(u, o, Destroy) == Some(true) ==>
              o.status !in {Orders.Delivered, Orders.Cancelled}
  {
  }

  /** `destroy?` does not ask for an active profile: a company admin still
    * pending approval may destroy a cancellable order of the company, though
    * `cancel?` (the same `cancel!` in the controller) is refused. */
  lemma DestroySkipsActiveCheck(u: Account, o: Orders.OrderRow)
    requires u.profile.Some? && u.profile.value.role == UserProfiles.CompanyAdmin
    requires u.profile.value.memberStatus == UserProfiles.Pending
    requires o.companyId.Some? && o.companyId == u.profile.value.companyId
    requires Orders.CanBeCancelled(o.status)
    ensures OrderAllows(u, o, Destroy) == Some(true)
    ensures OrderAllows(u, o, Cancel) == Some(false)
  {
  }

  /** Internal admins belong to no company and may neither create nor export. */
  lemma InternalAdminCannotCreate(u: Account, o: Orders.OrderRow)
    requires InternalAdmin(u)
    ensures OrderAllows(u, o, Create) == Some(false) && OrderAllows(u, o, Export) == Some(false)
  {
  }

  /** `OrderPolicy::Scope#resolve`; `companyIds` are the ids of existing companies. */
  function OrderScope(u: Account, table: map<Id, Orders.OrderRow>, companyIds: set<Id>): map<Id, Orders.OrderRow>
  {
    if !ActiveUser(u) then map[]
    else if InternalAdmin(u) then table
    else ForCompany(table, (o: Orders.OrderRow) => o.companyId, CurrentCompanyId(u, companyIds))
  }

  /** Tenant isolation: outside the internal admins, no user's scope holds an
    * order of another company. */
  lemma OrderScopeIsolation(u: Account, table: map<Id, Orders.OrderRow>, companyIds: set<Id>)
    requires !InternalAdmin(u)
    ensures forall k :: k in OrderScope(u, table, companyIds) ==>
              table[k].companyId.None? || table[k].companyId == UserCompanyId(u)
    ensures forall k :: k in OrderScope(u, table, companyIds) ==> OrderScope(u, table, companyIds)[k] == table[k]
  {
  }

  /** The scope and `show?` agree on orders with a company, for a user whose
    * company exists: the list shows exactly the orders the user may open. */
  lemma OrderScopeMatchesShow(u: Account, table: map<Id, Orders.OrderRow>, companyIds: set<Id>, k: Id)
    requires k in table && table[k].companyId.Some?
    requires InternalAdmin(u) || CurrentCompanyId(u, companyIds) == UserCompanyId(u)
    ensures k in OrderScope(u, table, companyIds) <==> OrderAllows(u, table[k], Show) == Some(true)
  {
  }
}
