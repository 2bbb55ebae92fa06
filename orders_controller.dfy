// The orders controller: the list's "mine" filter and sort choice, the
// company stamping of the nested line parameters, `create` with its
// auto-confirmation or approval-request branch, `update` with its
// recalculation, and the member actions that change the status.

module OrdersController {
  import opened Common
  import opened Web
  import UserProfiles
  import ApplicationPolicy
  import Users
  import Companies
  import Customers
  import OrderLines
  import Orders
  import ApprovalRequests
  import OrderApprovalRequests

  type Account = UserProfiles.Account
  type OrderRequestRow = OrderApprovalRequests.OrderRequestRow

  const NotAuthorizedKey: string := "pundit.not_authorized"

  // ---------------------------------------------------------------------
  // index: the "mine" filter and the sort

  /** The user id the list is narrowed to, if any: `params[:mine]` counts
    * only for users who are not internal admins. */
  function MineFilter(mine: Option<string>, u: Account): (r: Option<Id>)
    ensures r.Some? <==> !BlankOpt(mine) && !ApplicationPolicy.InternalAdmin(u)
    ensures r.Some? ==> r.value == u.id
  {
    if !BlankOpt(mine) && !ApplicationPolicy.InternalAdmin(u) then Some(u.id) else None
  }

  /** The orders left after the "mine" filter. */
  function Listed(orders: map<Id, Orders.OrderRow>, mine: Option<string>, u: Account): (r: map<Id, Orders.OrderRow>)
    ensures forall k :: k in r <==> k in orders && (MineFilter(mine, u).None? || orders[k].orderedByUserId == Some(u.id))
    ensures forall k :: k in r ==> r[k] == orders[k]
  {
    var f := MineFilter(mine, u);
    if f.None? then orders else map k | k in orders && orders[k].orderedByUserId == Some(u.id) :: orders[k]
  }

  /** An internal admin sees the same list whether or not "mine" is given;
    * anyone else asking for "mine" sees only their own orders. */
  lemma MineIgnoredForInternalAdmin(orders: map<Id, Orders.OrderRow>, mine: Option<string>, u: Account)
    ensures ApplicationPolicy.InternalAdmin(u) ==> Listed(orders, mine, u) == orders
    ensures !ApplicationPolicy.InternalAdmin(u) && !BlankOpt(mine) ==>
              forall k :: k in Listed(orders, mine, u) ==> orders[k].orderedByUserId == Some(u.id)
  {
  }

  datatype Direction = Asc | Desc

  /** The columns the list can be sorted by; `Recent` is the default order
    * (newest order date, then newest creation first). */
  datatype SortKey = ByOrderNo | ByOrderDate | ByCustomer | ByStatus | ByTotalAmount | Recent

  /** `params[:direction].presence == "asc" ? :asc : :desc`. */
  function SortDirection(direction: Option<string>): (d: Direction)
    ensures d == Asc <==> direction == Some("asc")
  {
    PresentWord("asc");
    if Presence(direction) == Some("asc") then Asc else Desc
  }

  /** The `case` on `params[:sort]`. */
  function SortKeyOf(sort: Option<string>): SortKey
  {
    match Presence(sort)
    case Some("order_no") => ByOrderNo
    case Some("order_date") => ByOrderDate
    case Some("customer") => ByCustomer
    case Some("status") => ByStatus
    case Some("total_amount") => ByTotalAmount
    case _ => Recent
  }

  /** The parameter that selects each explicit sort. */
  function SortParam(k: SortKey): (p: Option<string>)
    ensures p.None? <==> k == Recent
  {
    match k
    case ByOrderNo => Some("order_no")
    case ByOrderDate => Some("order_date")
    case ByCustomer => Some("customer")
    case ByStatus => Some("status")
    case ByTotalAmount => Some("total_amount")
    case Recent => None
  }

  /** Every explicit sort is reached by its parameter, and every parameter
    * that does not name one falls back to the default order. */
  lemma SortParamRoundTrip(k: SortKey, sort: Option<string>)
    ensures SortKeyOf(SortParam(k)) == k
    ensures SortKeyOf(sort) != Recent ==> SortParam(SortKeyOf(sort)) == sort
    ensures sort.None? || sort.value !in {"order_no", "order_date", "customer", "status", "total_amount"} ==>
              SortKeyOf(sort) == Recent
  {
    PresentWord("order_no");
    PresentWord("order_date");
    PresentWord("customer");
    PresentWord("status");
    PresentWord("total_amount");
  }

  // ---------------------------------------------------------------------
  // order_params

  /** One nested line of the order form (`id item_id quantity _destroy`) and
    * the `company_id` the controller may add. */
  datatype LineParams = LineParams(lineId: Option<string>, itemId: Option<string>, quantity: Option<string>,
                                   destroy: Option<string>, companyId: Option<Id>)

  /** One line after the stamping: the current company is added to a line
    * that names an item; nothing else changes. */
  function Stamped(l: LineParams, currentCompany: Option<Id>): (r: LineParams)
    ensures r.(companyId := l.companyId) == l
    ensures currentCompany.Some? && !BlankOpt(l.itemId) ==> r.companyId == currentCompany
    ensures currentCompany.None? || BlankOpt(l.itemId) ==> r == l
  {
    if currentCompany.Some? && !BlankOpt(l.itemId) then l.(companyId := currentCompany) else l
  }

  /** The `tap` block of `order_params`: each nested line hash is updated in place. */
  method StampLineCompanies(lines: array<LineParams>, currentCompany: Option<Id>)
    modifies lines
    ensures forall i :: 0 <= i < lines.Length ==> lines[i] == Stamped(old(lines[i]), currentCompany)
  {
    if lines.Length == 0 || currentCompany.None? {
      return;
    }
    for i := 0 to lines.Length
      invariant forall j :: 0 <= j < i ==> lines[j] == Stamped(old(lines[j]), currentCompany)
      invariant forall j :: i <= j < lines.Length ==> lines[j] == old(lines[j])
    {
      if !BlankOpt(lines[i].itemId) {
        lines[i] := lines[i].(companyId := currentCompany);
      }
    }
  }

  /** The order's `reject_if`: a nested line without item or quantity is dropped. */
  predicate RejectedLine(l: LineParams)
  {
    BlankOpt(l.itemId) || BlankOpt(l.quantity)
  }

  /** Every nested line the order keeps carries the current company, and
    * stamping a second time changes nothing. */
  lemma KeptLinesCarryCompany(l: LineParams, c: Id)
    ensures !RejectedLine(l) ==> Stamped(l, Some(c)).companyId == Some(c)
    ensures Stamped(Stamped(l, Some(c)), Some(c)) == Stamped(l, Some(c))
  {
  }

  // ---------------------------------------------------------------------
  // create

  /** `create` confirms the saved order itself for company and internal
    * admins, and for other members without a supervisor. */
  predicate ConfirmsAtOnce(u: Account, supervisor: Option<Id>)
  {
    (u.profile.Some? && UserProfiles.CanApproveMembers(u.profile.value)) || supervisor.None?
  }

  /** With `supervisor_id` in the schema, a member who is no admin waits for
    * approval exactly when `supervisor_user` finds a supervisor.  Once
    * migration 20260230000000 has dropped the column, `supervisor_user` is
    * always nil, so `create` confirms every order itself and never builds
    * an approval request. */
  lemma DroppedSupervisorConfirmsAtOnce(u: Account, profiles: map<Id, UserProfiles.Profile>)
    requires u.profile.Some?
    ensures ConfirmsAtOnce(u, UserProfiles.SupervisorUser(u.profile.value, profiles, false))
    ensures !UserProfiles.CanApproveMembers(u.profile.value) ==>
              (ConfirmsAtOnce(u, UserProfiles.SupervisorUser(u.profile.value, profiles, true))
               <==> !(u.profile.value.supervisorId.Some? && u.profile.value.supervisorId.value in profiles
                      && profiles[u.profile.value.supervisorId.value].userId.Some?))
  {
  }

  /** `build_order_approval_request(company: order.company, status: :pending)`. */
  function PendingRequestFor(orderId: Id, companyId: Option<Id>): (r: OrderRequestRow)
    ensures r.orderId == orderId && r.companyId == companyId && r.status == ApprovalRequests.Pending
    ensures r.reviewedById.None? && r.reviewedAt.None? && r.reviewComment.None?
  {
    OrderApprovalRequests.OrderRequestRow(orderId, companyId, ApprovalRequests.Pending, None, None, None)
  }

  /** The request of a new order is valid: it has a company, and no other
    * request can refer to an order that did not exist before. */
  lemma NewRequestValid(requests: map<Id, OrderRequestRow>, requestId: Id, orderId: Id, companyId: Id)
    requires forall k :: k in requests ==> requests[k].orderId != orderId
    ensures var r := PendingRequestFor(orderId, Some(companyId));
            OrderApprovalRequests.OrderRequestErrors(requestId, r, None, requests[requestId := r]) == {}
  {
    var r := PendingRequestFor(orderId, Some(companyId));
    var t := requests[requestId := r];
    forall e: OrderApprovalRequests.OrderRequestError
      ensures !OrderApprovalRequests.OrderRequestViolates(e, requestId, r, None, t)
    {
    }
  }

  /** `create`.  `company` is the user's current company (null without one),
    * `linesValid` whether the kept nested lines pass their own validations,
    * `lines` their amounts once saved, and `supervisor` the creator's
    * supervisor, if any.  A failed save rolls back the company's order
    * sequence; an `update!` that raises after the save leaves the saved order
    * as it is and ends in the error page. */
  method Create(u: Account, company: Companies.Company?, id: Id, attrs: Orders.OrderAttrs,
                customer: Option<Customers.Customer>, others: map<Id, Orders.OrderRow>,
                lines: seq<OrderLines.LineAmounts>, linesValid: bool, supervisor: Option<Id>,
                requests: map<Id, OrderRequestRow>, requestId: Id)
    returns (resp: Response, o: Orders.Order?, after: map<Id, OrderRequestRow>)
    requires company != null ==> Users.CompanyIdOf(u) == Some(company.id)
    requires requestId !in requests
    requires forall k :: k in requests ==> requests[k].orderId != id
    modifies company
    ensures company == null ==> resp == RedirectWith(Root, Alert(NotAuthorizedKey)) && o == null && after == requests
    ensures company != null ==> company.orderPrefix == old(company.orderPrefix)
    ensures company != null ==>
              (resp == Render("new", Unprocessable) <==>
                 !linesValid
                 || Orders.OrderErrors(id, Orders.CreatedRow(attrs, u.id, company.id,
                                                       Companies.OrderNumber(company.orderPrefix, old(company.orderSeq) + 1),
                                                       customer), customer, others) != {})
    ensures resp == Render("new", Unprocessable) ==> o == null && after == requests && company.orderSeq == old(company.orderSeq)
    ensures o != null ==> fresh(o) && company != null && o.id == id
                          && o.companyId == Some(company.id) && o.orderedByUserId == Some(u.id)
                          && company.orderSeq == old(company.orderSeq) + 1
                          && o.orderNo == Some(Companies.OrderNumber(company.orderPrefix, company.orderSeq))
    ensures resp == RedirectWith(OrderPage(id), Notice("orders.created")) ==>
              o != null
              && o.totalAmount == Orders.SumColumn(lines, Orders.AmountColumn)
              && o.co2Total == Some(Orders.SumColumn(lines, Orders.Co2Column))
              && (if ConfirmsAtOnce(u, supervisor) then o.status == Orders.Confirmed && after == requests
                  else o.status == attrs.status && after == requests[requestId := PendingRequestFor(id, o.companyId)])
    ensures resp == RedirectWith(Root, Alert(NotAuthorizedKey)) || resp == Render("new", Unprocessable)
            || resp == Raised || resp == RedirectWith(OrderPage(id), Notice("orders.created"))
    ensures resp == Raised ==> o != null && after == requests
  {
    if company == null {
      return RedirectWith(Root, Alert(NotAuthorizedKey)), null, requests;
    }
    var seq0 := company.orderSeq;
    var order := BuildOrder(u, company, id, attrs, customer);
    if order.Errors(customer, others) != {} || !linesValid {
      company.orderSeq := seq0;
      return Render("new", Unprocessable), null, requests;
    }
    o := order;
    resp, after := AfterSave(u, order, lines, customer, others, supervisor, requests, requestId);
  }

  /** The order `create` builds before saving it: the form's attributes, the
    * company and the user, the next number of the company's sequence and the
    * customer's address snapshot. */
  method BuildOrder(u: Account, company: Companies.Company, id: Id, attrs: Orders.OrderAttrs,
                    customer: Option<Customers.Customer>)
    returns (order: Orders.Order)
    modifies company
    ensures fresh(order) && order.id == id
    ensures company.orderPrefix == old(company.orderPrefix) && company.orderSeq == old(company.orderSeq) + 1
    ensures order.Row() == Orders.CreatedRow(attrs, u.id, company.id,
                                       Companies.OrderNumber(company.orderPrefix, company.orderSeq), customer)
  {
    order := new Orders.Order(id, attrs);
    order.companyId := Some(company.id);
    order.orderedByUserId := Some(u.id);
    ghost var r0 := order.Row();
    order.SetOrderNo(company);
    ghost var no := Companies.OrderNumber(company.orderPrefix, company.orderSeq);
    assert order.Row() == r0.(orderNo := Some(no));
    order.SnapshotCustomerAddress(customer);
    assert order.Row() == r0.(orderNo := Some(no), ship := order.ship);
  }

  /** The steps of `create` after a successful save: the totals are
    * recalculated, then the order is confirmed or a pending approval request
    * is created for it. */
  method AfterSave(u: Account, order: Orders.Order, lines: seq<OrderLines.LineAmounts>,
                   customer: Option<Customers.Customer>, others: map<Id, Orders.OrderRow>, supervisor: Option<Id>,
                   requests: map<Id, OrderRequestRow>, requestId: Id)
    returns (resp: Response, after: map<Id, OrderRequestRow>)
    requires order.companyId.Some?
    requires forall k :: k in requests ==> requests[k].orderId != order.id
    modifies order
    ensures order.companyId == old(order.companyId) && order.orderedByUserId == old(order.orderedByUserId)
    ensures order.orderNo == old(order.orderNo)
    ensures resp == Raised || resp == RedirectWith(OrderPage(order.id), Notice("orders.created"))
    ensures resp == Raised ==> after == requests
    ensures resp == RedirectWith(OrderPage(order.id), Notice("orders.created")) ==>
              order.totalAmount == Orders.SumColumn(lines, Orders.AmountColumn)
              && order.co2Total == Some(Orders.SumColumn(lines, Orders.Co2Column))
              && (if ConfirmsAtOnce(u, supervisor) then order.status == Orders.Confirmed && after == requests
                  else order.status == old(order.status)
                       && after == requests[requestId := PendingRequestFor(order.id, order.companyId)])
  {
    after := requests;
    var recalculated := order.RecalculateTotals(lines, customer, others);
    if !recalculated {
      return Raised, requests;
    }
    if ConfirmsAtOnce(u, supervisor) {
      var confirmed := order.Update(order.Row().(status := Orders.Confirmed), customer, others);
      if !confirmed {
        return Raised, requests;
      }
    } else {
      after := requests[requestId := PendingRequestFor(order.id, order.companyId)];
    }
    resp := RedirectWith(OrderPage(order.id), Notice("orders.created"));
  }

  // ---------------------------------------------------------------------
  // update and the member actions

  /** The form's attributes assigned onto a stored row. */
  function Assign(r: Orders.OrderRow, attrs: Orders.OrderAttrs): Orders.OrderRow
  {
    r.(orderDate := attrs.orderDate, customerId := attrs.customerId, status := attrs.status,
       shipDate := attrs.shipDate, trackingNo := attrs.trackingNo, deliveredDate := attrs.deliveredDate)
  }

  /** `update`: a valid update is saved and its totals recalculated from the
    * order's stored lines; an invalid one renders the form again. */
  method UpdateOrder(o: Orders.Order, attrs: Orders.OrderAttrs, lines: seq<OrderLines.LineAmounts>,
                     customer: Option<Customers.Customer>, others: map<Id, Orders.OrderRow>)
    returns (resp: Response)
    modifies o
    ensures resp == Render("edit", Unprocessable) <==>
              Orders.OrderErrors(o.id, Assign(old(o.Row()), attrs), customer, others) != {}
    ensures resp == Render("edit", Unprocessable) ==> o.Row() == Assign(old(o.Row()), attrs)
    ensures resp != Render("edit", Unprocessable) ==>
              o.Row() == Assign(old(o.Row()), attrs).(totalAmount := Orders.SumColumn(lines, Orders.AmountColumn),
                                                       co2Total := Some(Orders.SumColumn(lines, Orders.Co2Column)))
    ensures resp in {Render("edit", Unprocessable), Raised, RedirectWith(OrderPage(o.id), Notice("orders.updated"))}
  {
    var saved := o.Update(Assign(o.Row(), attrs), customer, others);
    if !saved {
      return Render("edit", Unprocessable);
    }
    var recalculated := o.RecalculateTotals(lines, customer, others);
    if !recalculated {
      return Raised;
    }
    resp := RedirectWith(OrderPage(o.id), Notice("orders.updated"));
  }

  /** `destroy`: the order is not deleted but cancelled, and the list is shown.
    * `cancel!` raises rather than returning false, so the "cancel failed"
    * branch is never taken: an invalid order ends in the error page. */
  method Destroy(o: Orders.Order, customer: Option<Customers.Customer>, others: map<Id, Orders.OrderRow>)
    returns (resp: Response)
    modifies o
    ensures o.Row() == old(o.Row()).(status := Orders.Cancelled)
    ensures resp == (if Orders.OrderErrors(o.id, o.Row(), customer, others) == {}
                     then RedirectWith(OrdersIndex, Notice("orders.cancelled")) else Raised)
  {
    var saved := o.Cancel(customer, others);
    resp := if saved then RedirectWith(OrdersIndex, Notice("orders.cancelled")) else Raised;
  }

  /** `cancel`: the same status change as `destroy`, back on the order's page. */
  method CancelOrder(o: Orders.Order, customer: Option<Customers.Customer>, others: map<Id, Orders.OrderRow>)
    returns (resp: Response)
    modifies o
    ensures o.Row() == old(o.Row()).(status := Orders.Cancelled)
    ensures resp == (if Orders.OrderErrors(o.id, o.Row(), customer, others) == {}
                     then RedirectWith(OrderPage(o.id), Notice("orders.cancelled")) else Raised)
  {
    var saved := o.Cancel(customer, others);
    resp := if saved then RedirectWith(OrderPage(o.id), Notice("orders.cancelled")) else Raised;
  }

  /** How the `date` columns cast what is assigned to them: an empty text is
    * nil, any other text is what `parse` makes of it (nil when it is not a
    * date). */
  function CastDate(s: string, parse: string -> Option<Date>): (r: Option<Date>)
    ensures s == "" ==> r == None
    ensures s != "" ==> r == parse(s)
  {
    if s == "" then None else parse(s)
  }

  /** `params[:x] || Date.current`: only a missing parameter falls back to
    * today; a posted text, even an empty one, is kept and cast by the column. */
  function DateParam(x: Option<string>, today: Date, parse: string -> Option<Date>): (r: Option<Date>)
    ensures x.None? ==> r == Some(today)
    ensures x.Some? ==> r == CastDate(x.value, parse)
  {
    if x.None? then Some(today) else CastDate(x.value, parse)
  }

  /** An empty date field is kept by `||` and stored as a nil date. */
  lemma EmptyDateParamIsNil(today: Date, parse: string -> Option<Date>)
    ensures DateParam(Some(""), today, parse) == None
    ensures DateParam(None, today, parse) == Some(today)
  {
  }

  /** `ship`: the tracking number and the posted date, today only when no
    * date is posted. */
  method ShipOrder(o: Orders.Order, trackingNo: Option<string>, shipDate: Option<string>, today: Date,
                   parse: string -> Option<Date>, customer: Option<Customers.Customer>, others: map<Id, Orders.OrderRow>)
    returns (resp: Response)
    modifies o
    ensures o.Row() == old(o.Row()).(status := Orders.Shipped, trackingNo := trackingNo,
                                     shipDate := DateParam(shipDate, today, parse))
    ensures resp == (if Orders.OrderErrors(o.id, o.Row(), customer, others) == {}
                     then RedirectWith(OrderPage(o.id), Notice("orders.shipped")) else Raised)
  {
    var date := DateParam(shipDate, today, parse);
    var saved := o.Ship(trackingNo, date, customer, others);
    resp := if saved then RedirectWith(OrderPage(o.id), Notice("orders.shipped")) else Raised;
  }

  /** `deliver`: the posted delivery date, today only when no date is posted. */
  method DeliverOrder(o: Orders.Order, deliveredDate: Option<string>, today: Date, parse: string -> Option<Date>,
                      customer: Option<Customers.Customer>, others: map<Id, Orders.OrderRow>)
    returns (resp: Response)
    modifies o
    ensures o.Row() == old(o.Row()).(status := Orders.Delivered, deliveredDate := DateParam(deliveredDate, today, parse))
    ensures resp == (if Orders.OrderErrors(o.id, o.Row(), customer, others) == {}
                     then RedirectWith(OrderPage(o.id), Notice("orders.delivered")) else Raised)
  {
    var date := DateParam(deliveredDate, today, parse);
    var saved := o.Deliver(date, customer, others);
    resp := if saved then RedirectWith(OrderPage(o.id), Notice("orders.delivered")) else Raised;
  }

  /** `new`: the form needs a current company. */
  function NewOrderForm(hasCompany: bool): (r: Response)
    ensures r == Continue <==> hasCompany
    ensures !hasCompany ==> r == RedirectWith(Root, Alert(NotAuthorizedKey))
  {
    if hasCompany then Continue else RedirectWith(Root, Alert(NotAuthorizedKey))
  }
}
