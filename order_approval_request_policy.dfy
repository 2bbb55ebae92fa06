// Who may see and decide an order approval request: admins, and the
// approver named on the ordering receiving center.  The model's reviewer
// rule admits only admins, so such an approver passes the policy and is then
// refused by the record's validation.

module OrderApprovalRequestPolicy {
  import opened Common
  import opened MultiTenant
  import opened ApplicationPolicy
  import UserProfiles
  import Customers
  import Orders
  import ApprovalRequests
  import OrderApprovalRequests

  type OrderRequestRow = OrderApprovalRequests.OrderRequestRow

  /** `is_receiving_center_approver?`; `customer` is the request's order's
    * customer, `None` when the order or the customer is missing. */
  predicate ReceivingCenterApprover(u: Account, customer: Option<Customers.Customer>)
  {
    customer.Some? && u.profile.Some? && customer.value.approverProfileId == Some(u.profile.value.id)
  }

  /** Admin role or the center's approver: the first conjunct of every action. */
  predicate MayDecide(u: Account, customer: Option<Customers.Customer>)
  {
    AdminOrCompanyAdmin(u) || ReceivingCenterApprover(u, customer)
  }

  function OrderRequestAllows(u: Account, r: OrderRequestRow, customer: Option<Customers.Customer>, a: Action): Decision
  {
    match a
    case Index => Some(MayDecide(u, customer) && ActiveUser(u))
    case Show => Some(MayDecide(u, customer) && ActiveUser(u) && SameCompany(u, r.companyId))
    case Approve =>
      Some(MayDecide(u, customer) && ActiveUser(u) && SameCompany(u, r.companyId) && r.status == ApprovalRequests.Pending)
    case Reject =>
      Some(MayDecide(u, customer) && ActiveUser(u) && SameCompany(u, r.companyId) && r.status == ApprovalRequests.Pending)
    case _ => BaseAllows(a, false, false)
  }

  /** Only pending requests can be decided, and `approve?` and `reject?` always agree. */
  lemma DecideOnlyPending(u: Account, r: OrderRequestRow, customer: Option<Customers.Customer>)
    ensures OrderRequestAllows(u, r, customer, Approve) == OrderRequestAllows(u, r, customer, Reject)
    ensures OrderRequestAllows(u, r, customer, Approve) == Some(true) ==> r.status == ApprovalRequests.Pending
    ensures OrderRequestAllows(u, r, customer, Approve) == Some(true) ==> OrderRequestAllows(u, r, customer, Show) == Some(true)
  {
  }

  /** The approver check fails without the order's customer or without a profile. */
  lemma ApproverNeedsCustomerAndProfile(u: Account, customer: Option<Customers.Customer>)
    requires customer.None? || u.profile.None?
    ensures !ReceivingCenterApprover(u, customer)
  {
  }

  /** The tension: an active approver of the ordering center, of the request's
    * company and without an admin role, passes `approve?`, yet the review it
    * starts is refused by the reviewed-by validation and leaves the order as it was. */
  lemma ApproverPassesPolicyButReviewFails(u: Account, id: Id, r: OrderRequestRow, customer: Customers.Customer,
                                           now: int, table: map<Id, OrderRequestRow>, orderId: Id,
                                           order: Orders.OrderRow, orderCustomer: Option<Customers.Customer>,
                                           orders: map<Id, Orders.OrderRow>)
    requires u.profile.Some? && u.profile.value.role == UserProfiles.Approver
    requires u.profile.value.memberStatus == UserProfiles.Active
    requires u.profile.value.companyId.Some? && r.companyId == u.profile.value.companyId
    requires customer.approverProfileId == Some(u.profile.value.id)
    requires r.status == ApprovalRequests.Pending
    ensures OrderRequestAllows(u, r, Some(customer), Approve) == Some(true)
    ensures !OrderApprovalRequests.ReviewOrder(id, r, ApprovalRequests.Approved, u, now, r.reviewComment, table,
                                               orderId, order, orderCustomer, orders).saved
    ensures OrderApprovalRequests.ReviewOrder(id, r, ApprovalRequests.Approved, u, now, r.reviewComment, table,
                                              orderId, order, orderCustomer, orders).order == order
  {
    ApprovalRequests.ReviewerAdmittedRoles(u.profile, r.companyId);
    var row := r.(status := ApprovalRequests.Approved, reviewedById := Some(u.id), reviewedAt := Some(now));
    assert OrderApprovalRequests.OrderRequestViolates(OrderApprovalRequests.ReviewerNotAdmin, id, row, Some(u), table);
  }

  /** `OrderApprovalRequestPolicy::Scope#resolve`; `customerOf` follows a request
    * to its order's customer (the inner join drops requests without one). */
  function OrderRequestScope(u: Account, table: map<Id, OrderRequestRow>, companyIds: set<Id>,
                             customerOf: OrderRequestRow -> Option<Customers.Customer>): map<Id, OrderRequestRow>
  {
    if !ActiveUser(u) then map[]
    else if InternalAdmin(u) then table
    else
      var own := ForCompany(table, (r: OrderRequestRow) => r.companyId, CurrentCompanyId(u, companyIds));
      if CompanyAdmin(u) then own
      else map k | k in own && ReceivingCenterApprover(u, customerOf(own[k])) :: own[k]
  }

  /** Tenant isolation, and for a user who is not an admin only the requests
    * whose ordering center names that user as approver. */
  lemma OrderRequestScopeIsolation(u: Account, table: map<Id, OrderRequestRow>, companyIds: set<Id>,
                                   customerOf: OrderRequestRow -> Option<Customers.Customer>)
    requires !InternalAdmin(u)
    ensures forall k :: k in OrderRequestScope(u, table, companyIds, customerOf) ==>
              k in table && (table[k].companyId.None? || table[k].companyId == UserCompanyId(u))
    ensures !CompanyAdmin(u) ==>
              forall k :: k in OrderRequestScope(u, table, companyIds, customerOf) ==>
                ReceivingCenterApprover(u, customerOf(table[k]))
  {
  }

  /** A request in a non-admin's list can be opened by that user. */
  lemma OrderRequestScopeShowable(u: Account, table: map<Id, OrderRequestRow>, companyIds: set<Id>,
                                  customerOf: OrderRequestRow -> Option<Customers.Customer>, k: Id)
    requires k in OrderRequestScope(u, table, companyIds, customerOf) && table[k].companyId.Some?
    ensures OrderRequestAllows(u, table[k], customerOf(table[k]), Show) == Some(true)
  {
  }
}
