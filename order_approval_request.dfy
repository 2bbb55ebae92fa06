// Order approval requests: at most one per order, reviewed once by an admin;
// a saved change to approved confirms the order, a rejection leaves the
// order's status as it was.  The pending guard is in the policy.

module OrderApprovalRequests {
  import opened Common
  import opened MultiTenant
  import UserProfiles
  import Customers
  import Orders
  import ApprovalRequests

  type RequestStatus = ApprovalRequests.RequestStatus

  /** The columns of one `order_approval_requests` row; times are seconds. */
  datatype OrderRequestRow = OrderRequestRow(
    orderId: Id,
    companyId: Option<Id>,
    status: RequestStatus,
    reviewedById: Option<Id>,
    reviewedAt: Option<int>,
    reviewComment: Option<string>)

  datatype OrderRequestError = CompanyIdBlank | OrderHasRequest | ReviewerNotAdmin

  const AllOrderRequestErrors: seq<OrderRequestError> := [CompanyIdBlank, OrderHasRequest, ReviewerNotAdmin]

  /** Another request exists for the same order, whatever its status. */
  predicate OtherRequestForOrder(id: Id, r: OrderRequestRow, table: map<Id, OrderRequestRow>)
  {
    exists k :: k in table && k != id && table[k].orderId == r.orderId
  }

  predicate OrderRequestViolates(e: OrderRequestError, id: Id, r: OrderRequestRow, reviewer: Option<UserProfiles.Account>,
                                 table: map<Id, OrderRequestRow>)
  {
    match e
    case CompanyIdBlank => !CompanyIdPresent(r.companyId)
    case OrderHasRequest => OtherRequestForOrder(id, r, table)
    case ReviewerNotAdmin =>
      r.reviewedById.Some? && reviewer.Some? && !ApprovalRequests.ReviewerAdmitted(reviewer.value.profile, r.companyId)
  }

  function OrderRequestErrors(id: Id, r: OrderRequestRow, reviewer: Option<UserProfiles.Account>, table: map<Id, OrderRequestRow>)
    : (res: set<OrderRequestError>)
    ensures forall e :: e in res <==> OrderRequestViolates(e, id, r, reviewer, table)
  {
    set e | e in AllOrderRequestErrors && OrderRequestViolates(e, id, r, reviewer, table)
  }

  /** In a table of valid rows no two requests share an order. */
  lemma OneRequestPerOrder(table: map<Id, OrderRequestRow>, a: Id, b: Id, reviewer: Option<UserProfiles.Account>)
    requires a in table && b in table && a != b
    requires OrderRequestErrors(a, table[a], reviewer, table) == {}
    ensures table[a].orderId != table[b].orderId
  {
    assert !OrderRequestViolates(OrderHasRequest, a, table[a], reviewer, table);
  }

  /** The outcome of a review: the new request row, the order row after the
    * `after_update` callback, and whether the transaction committed. */
  datatype OrderReviewOutcome = OrderReviewOutcome(row: OrderRequestRow, order: Orders.OrderRow, saved: bool)

  /** A review with status `s`.  Only a saved change to approved touches the
    * order (`update!(shipping_status: :confirmed)`); when that update is
    * invalid the whole review rolls back, though the order object keeps the
    * assigned status. */
  function ReviewOrder(id: Id, r: OrderRequestRow, s: RequestStatus, reviewer: UserProfiles.Account, now: int,
                       comment: Option<string>, table: map<Id, OrderRequestRow>,
                       orderId: Id, order: Orders.OrderRow, customer: Option<Customers.Customer>, orders: map<Id, Orders.OrderRow>)
    : (o: OrderReviewOutcome)
    ensures o.row == r.(status := s, reviewedById := Some(reviewer.id), reviewedAt := Some(now), reviewComment := comment)
    ensures o.saved ==> OrderRequestErrors(id, o.row, Some(reviewer), table) == {}
    ensures o.order != order ==> s == ApprovalRequests.Approved && r.status != ApprovalRequests.Approved
                                 && o.order == order.(status := Orders.Confirmed)
    ensures o.saved && s == ApprovalRequests.Approved && r.status != ApprovalRequests.Approved ==>
              o.order.status == Orders.Confirmed
              && Orders.OrderErrors(orderId, o.order, customer, orders) == {}
  {
    var row := r.(status := s, reviewedById := Some(reviewer.id), reviewedAt := Some(now), reviewComment := comment);
    if OrderRequestErrors(id, row, Some(reviewer), table) != {} then OrderReviewOutcome(row, order, false)
    else if s == r.status || s != ApprovalRequests.Approved then OrderReviewOutcome(row, order, true)
    else
      var confirmed := order.(status := Orders.Confirmed);
      OrderReviewOutcome(row, confirmed, Orders.OrderErrors(orderId, confirmed, customer, orders) == {})
  }

  /** Rejecting never changes the order. */
  lemma RejectionKeepsOrder(id: Id, r: OrderRequestRow, reviewer: UserProfiles.Account, now: int, comment: Option<string>,
                            table: map<Id, OrderRequestRow>, orderId: Id, order: Orders.OrderRow,
                            customer: Option<Customers.Customer>, orders: map<Id, Orders.OrderRow>)
    ensures ReviewOrder(id, r, ApprovalRequests.Rejected, reviewer, now, comment, table, orderId, order, customer, orders).order == order
  {
  }

  /** Approval by an admin of the request's company, of a pending request on a
    * valid order, commits and confirms the order; its status is the only column
    * that changes. */
  lemma AdminApprovalConfirms(id: Id, r: OrderRequestRow, reviewer: UserProfiles.Account, now: int,
                              table: map<Id, OrderRequestRow>, orderId: Id, order: Orders.OrderRow,
                              customer: Option<Customers.Customer>, orders: map<Id, Orders.OrderRow>)
    requires r.status == ApprovalRequests.Pending && r.companyId.Some?
    requires !OtherRequestForOrder(id, r, table)
    requires ApprovalRequests.ReviewerAdmitted(reviewer.profile, r.companyId)
    requires Orders.OrderErrors(orderId, order, customer, orders) == {}
    ensures ReviewOrder(id, r, ApprovalRequests.Approved, reviewer, now, r.reviewComment, table, orderId, order, customer, orders).saved
    ensures ReviewOrder(id, r, ApprovalRequests.Approved, reviewer, now, r.reviewComment, table, orderId, order, customer, orders).order
              == order.(status := Orders.Confirmed)
  {
    var row := r.(status := ApprovalRequests.Approved, reviewedById := Some(reviewer.id), reviewedAt := Some(now));
    assert forall e :: !OrderRequestViolates(e, id, row, Some(reviewer), table);
    var confirmed := order.(status := Orders.Confirmed);
    assert forall e :: Orders.OrderViolates(e, orderId, confirmed, customer, orders) ==> Orders.OrderViolates(e, orderId, order, customer, orders) by {
      assert forall k :: k in orders && k != orderId ==> (orders[k].companyId == confirmed.companyId <==> orders[k].companyId == order.companyId);
    }
  }

  class OrderApprovalRequest {
    const id: Id
    var orderId: Id
    var companyId: Option<Id>
    var status: RequestStatus
    var reviewedById: Option<Id>
    var reviewedAt: Option<int>
    var reviewComment: Option<string>

    constructor (id: Id, r: OrderRequestRow)
      ensures this.id == id && Row() == r
    {
      this.id := id;
      orderId := r.orderId;
      companyId := r.companyId;
      status := r.status;
      reviewedById := r.reviewedById;
      reviewedAt := r.reviewedAt;
      reviewComment := r.reviewComment;
    }

    function Row(): OrderRequestRow
      reads this
    {
      OrderRequestRow(orderId, companyId, status, reviewedById, reviewedAt, reviewComment)
    }

    /** The shared body of `approve!` and `reject!`; `order` is the request's order. */
    method ReviewAs(s: RequestStatus, reviewer: UserProfiles.Account, now: int, comment: Option<string>,
                    table: map<Id, OrderRequestRow>, order: Orders.Order, customer: Option<Customers.Customer>,
                    orders: map<Id, Orders.OrderRow>) returns (saved: bool)
      requires order.id == orderId
      modifies this, order
      ensures var o := ReviewOrder(id, old(Row()), s, reviewer, now, comment, table, order.id, old(order.Row()), customer, orders);
              Row() == o.row && order.Row() == o.order && saved == o.saved
    {
      var old0 := status;
      var errs := OrderRequestErrors(id, Row().(status := s, reviewedById := Some(reviewer.id), reviewedAt := Some(now),
                                               reviewComment := comment), Some(reviewer), table);
      status := s;
      reviewedById := Some(reviewer.id);
      reviewedAt := Some(now);
      reviewComment := comment;
      if errs != {} {
        return false;
      }
      if s == old0 || s != ApprovalRequests.Approved {
        return true;
      }
      saved := order.Update(order.Row().(status := Orders.Confirmed), customer, orders);
    }

    /** `approve!(reviewer)`. */
    method Approve(reviewer: UserProfiles.Account, now: int, table: map<Id, OrderRequestRow>, order: Orders.Order,
                   customer: Option<Customers.Customer>, orders: map<Id, Orders.OrderRow>) returns (saved: bool)
      requires order.id == orderId
      modifies this, order
      ensures var o := ReviewOrder(id, old(Row()), ApprovalRequests.Approved, reviewer, now, old(reviewComment), table,
                                   order.id, old(order.Row()), customer, orders);
              Row() == o.row && order.Row() == o.order && saved == o.saved
    {
      saved := ReviewAs(ApprovalRequests.Approved, reviewer, now, reviewComment, table, order, customer, orders);
    }

    /** `reject!(reviewer, comment = nil)`. */
    method Reject(reviewer: UserProfiles.Account, now: int, comment: Option<string>, table: map<Id, OrderRequestRow>,
                  order: Orders.Order, customer: Option<Customers.Customer>, orders: map<Id, Orders.OrderRow>)
      returns (saved: bool)
      requires order.id == orderId
      modifies this, order
      ensures var o := ReviewOrder(id, old(Row()), ApprovalRequests.Rejected, reviewer, now, comment, table,
                                   order.id, old(order.Row()), customer, orders);
              Row() == o.row && order.Row() == o.order && saved == o.saved
    {
      saved := ReviewAs(ApprovalRequests.Rejected, reviewer, now, comment, table, order, customer, orders);
    }
  }
}
