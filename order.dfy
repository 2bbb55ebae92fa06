// The order aggregate: the shipping-status enum and its two gates, the
// status-changing `update!` calls, the totals recalculation, the create-time
// callbacks (order number and shipping-address snapshot), the validations
// and `create_with_lines!`.  The gates are predicates here and are NOT
// checked by `Ship`, `Deliver` or `Cancel`: the prior-status guard lives in
// the order policy, exactly as in the application.

module Orders {
  import opened Common
  import opened MultiTenant
  import Customers
  import Companies
  import Items
  import OrderLines

  // ---------------------------------------------------------------------
  // Shipping status

  datatype OrderStatus = Draft | Confirmed | Shipped | Delivered | Cancelled

  /** The integer stored in `shipping_status`. */
  function StatusCode(s: OrderStatus): nat
  {
    match s
    case Draft => 0
    case Confirmed => 1
    case Shipped => 2
    case Delivered => 3
    case Cancelled => 4
  }

  /** The status a stored integer denotes, if any. */
  function StatusOfCode(n: int): (r: Option<OrderStatus>)
    ensures r.Some? <==> 0 <= n <= 4
    ensures r.Some? ==> StatusCode(r.value) == n
  {
    if n == 0 then Some(Draft)
    else if n == 1 then Some(Confirmed)
    else if n == 2 then Some(Shipped)
    else if n == 3 then Some(Delivered)
    else if n == 4 then Some(Cancelled)
    else None
  }

  lemma StatusCodeRoundTrip(s: OrderStatus)
    ensures StatusOfCode(StatusCode(s)) == Some(s)
  {
  }

  /** `can_be_edited?`. */
  predicate CanBeEdited(s: OrderStatus)
  {
    s == Draft || s == Confirmed
  }

  /** `can_be_cancelled?`. */
  predicate CanBeCancelled(s: OrderStatus)
  {
    s != Delivered && s != Cancelled
  }

  /** The two gates in terms of the stored codes: editable is the first two
    * statuses, cancellable the first three, so every editable order is cancellable. */
  lemma StatusGates(s: OrderStatus)
    ensures CanBeEdited(s) <==> StatusCode(s) <= 1
    ensures CanBeCancelled(s) <==> StatusCode(s) <= 2
    ensures CanBeEdited(s) ==> CanBeCancelled(s)
  {
  }

  // ---------------------------------------------------------------------
  // Line sums

  /** The two summed `order_lines` columns. */
  datatype LineColumn = AmountColumn | Co2Column

  function Cell(l: OrderLines.LineAmounts, c: LineColumn): Option<real>
  {
    match c
    case AmountColumn => l.amount
    case Co2Column => l.co2Amount
  }

  /** `order_lines.sum(column)`: NULL cells are skipped and the empty sum is zero. */
  function SumColumn(ls: seq<OrderLines.LineAmounts>, c: LineColumn): real
  {
    if ls == [] then 0.0 else SumColumn(ls[..|ls| - 1], c) + OrderLines.OrZero(Cell(ls[|ls| - 1], c))
  }

  lemma {:induction false} SumColumnAppend(a: seq<OrderLines.LineAmounts>, b: seq<OrderLines.LineAmounts>, c: LineColumn)
    ensures SumColumn(a + b, c) == SumColumn(a, c) + SumColumn(b, c)
  {
    if b == [] {
      assert a + b == a;
    } else {
      assert (a + b)[..|a + b| - 1] == a + b[..|b| - 1];
      assert (a + b)[|a + b| - 1] == b[|b| - 1];
      SumColumnAppend(a, b[..|b| - 1], c);
    }
  }

  /** Taking one row out of a sum. */
  lemma SumColumnRemove(b: seq<OrderLines.LineAmounts>, j: nat, c: LineColumn)
    requires j < |b|
    ensures SumColumn(b, c) == SumColumn(b[..j] + b[j + 1..], c) + OrderLines.OrZero(Cell(b[j], c))
  {
    assert b == (b[..j] + [b[j]]) + b[j + 1..];
    SumColumnAppend(b[..j] + [b[j]], b[j + 1..], c);
    SumColumnAppend(b[..j], [b[j]], c);
    SumColumnAppend(b[..j], b[j + 1..], c);
    assert SumColumn([b[j]], c) == OrderLines.OrZero(Cell(b[j], c)) by {
      assert [b[j]][..0] == [];
    }
  }

  lemma MultisetRemove<T>(b: seq<T>, j: nat)
    requires j < |b|
    ensures multiset(b[..j] + b[j + 1..]) == multiset(b) - multiset{b[j]}
  {
    assert b == b[..j] + [b[j]] + b[j + 1..];
  }

  /** The sum does not depend on the order the rows come back in. */
  lemma {:induction false} SumColumnPermutation(a: seq<OrderLines.LineAmounts>, b: seq<OrderLines.LineAmounts>, c: LineColumn)
    requires multiset(a) == multiset(b)
    ensures SumColumn(a, c) == SumColumn(b, c)
    decreases |a|
  {
    if a == [] {
      assert |b| == |multiset(b)| == 0;
    } else {
      var x := a[|a| - 1];
      var a' := a[..|a| - 1];
      MultisetRemove(a, |a| - 1);
      assert a[..|a| - 1] + a[|a|..] == a';
      assert x in multiset(b);
      var j :| 0 <= j < |b| && b[j] == x;
      MultisetRemove(b, j);
      SumColumnPermutation(a', b[..j] + b[j + 1..], c);
      SumColumnRemove(b, j, c);
    }
  }

  /** Rows whose cells are nil or non-negative sum to a non-negative total. */
  lemma {:induction false} SumColumnNonNegative(ls: seq<OrderLines.LineAmounts>, c: LineColumn)
    requires forall i :: 0 <= i < |ls| ==> Cell(ls[i], c).None? || Cell(ls[i], c).value >= 0.0
    ensures SumColumn(ls, c) >= 0.0
  {
    if ls != [] {
      SumColumnNonNegative(ls[..|ls| - 1], c);
    }
  }

  // ---------------------------------------------------------------------
  // Rows and validation

  /** The columns of one `orders` row. */
  datatype OrderRow = OrderRow(
    companyId: Option<Id>,
    orderedByUserId: Option<Id>,
    customerId: Option<Id>,
    orderNo: Option<string>,
    orderDate: Option<Date>,
    status: OrderStatus,
    trackingNo: Option<string>,
    shipDate: Option<Date>,
    deliveredDate: Option<Date>,
    shippingCarrier: Option<string>,
    totalAmount: real,
    co2Total: Option<real>,
    ship: Customers.ShipAddress)

  datatype OrderError =
    | CompanyIdBlank
    | OrderNoBlank | OrderNoTaken
    | OrderDateBlank | OrderedByBlank | CustomerBlank
    | TotalNegative | Co2Negative
    | CustomerOtherCompany

  const AllOrderErrors: seq<OrderError> := [
    CompanyIdBlank, OrderNoBlank, OrderNoTaken, OrderDateBlank, OrderedByBlank, CustomerBlank,
    TotalNegative, Co2Negative, CustomerOtherCompany]

  /** Another order of the same company already carries the number. */
  predicate OrderNoTakenIn(id: Id, r: OrderRow, others: map<Id, OrderRow>)
  {
    r.orderNo.Some?
    && exists k :: k in others && k != id && others[k].companyId == r.companyId && others[k].orderNo == r.orderNo
  }

  /** Whether the rule behind error `e` fires for row `r` with primary key `id`;
    * `customer` is the row `customer_id` refers to and `others` the orders table. */
  predicate OrderViolates(e: OrderError, id: Id, r: OrderRow, customer: Option<Customers.Customer>, others: map<Id, OrderRow>)
  {
    match e
    case CompanyIdBlank => !CompanyIdPresent(r.companyId)
    case OrderNoBlank => BlankOpt(r.orderNo)
    case OrderNoTaken => OrderNoTakenIn(id, r, others)
    case OrderDateBlank => r.orderDate.None?
    case OrderedByBlank => r.orderedByUserId.None?
    case CustomerBlank => r.customerId.None?
    case TotalNegative => r.totalAmount < 0.0
    case Co2Negative => r.co2Total.Some? && r.co2Total.value < 0.0
    case CustomerOtherCompany => customer.Some? && r.companyId.Some? && customer.value.companyId != r.companyId
  }

  /** The errors `valid?` collects for an order row. */
  function OrderErrors(id: Id, r: OrderRow, customer: Option<Customers.Customer>, others: map<Id, OrderRow>): (res: set<OrderError>)
    ensures forall e :: e in res <==> OrderViolates(e, id, r, customer, others)
  {
    set e | e in AllOrderErrors && OrderViolates(e, id, r, customer, others)
  }

  /** Two valid orders of one company never share an order number. */
  lemma ValidOrderNumbersUnique(others: map<Id, OrderRow>, a: Id, b: Id, customer: Option<Customers.Customer>)
    requires a in others && b in others && a != b
    requires OrderErrors(a, others[a], customer, others) == {}
    requires others[a].companyId == others[b].companyId
    ensures others[a].orderNo != others[b].orderNo
  {
    assert !OrderViolates(OrderNoTaken, a, others[a], customer, others);
    assert !OrderViolates(OrderNoBlank, a, others[a], customer, others);
  }

  /** An order whose customer belongs to another company is invalid. */
  lemma ForeignCustomerInvalid(id: Id, r: OrderRow, c: Customers.Customer, others: map<Id, OrderRow>)
    requires r.companyId.Some? && c.companyId != r.companyId
    ensures CustomerOtherCompany in OrderErrors(id, r, Some(c), others)
  {
    assert OrderViolates(CustomerOtherCompany, id, r, Some(c), others);
  }

  /** An order row after an order-level shipment with a carrier. */
  function ShippedRow(r: OrderRow, trackingNo: Option<string>, shipDate: Option<Date>, carrier: Option<string>): OrderRow
  {
    r.(status := Shipped, trackingNo := trackingNo, shipDate := shipDate, shippingCarrier := carrier)
  }

  /** No validation reads the shipping columns: shipping a valid order keeps it
    * valid, so its `update!` cannot fail. */
  lemma ShippingKeepsErrors(id: Id, r: OrderRow, trackingNo: Option<string>, shipDate: Option<Date>, carrier: Option<string>,
                            customer: Option<Customers.Customer>, others: map<Id, OrderRow>)
    ensures OrderErrors(id, ShippedRow(r, trackingNo, shipDate, carrier), customer, others) == OrderErrors(id, r, customer, others)
  {
    var s := ShippedRow(r, trackingNo, shipDate, carrier);
    forall e ensures OrderViolates(e, id, s, customer, others) == OrderViolates(e, id, r, customer, others) {
      if e == OrderNoTaken {
        assert OrderNoTakenIn(id, s, others) == OrderNoTakenIn(id, r, others);
      }
    }
  }

  /** The attributes `Order.new` receives from the order form. */
  datatype OrderAttrs = OrderAttrs(
    orderDate: Option<Date>,
    customerId: Option<Id>,
    status: OrderStatus,
    shipDate: Option<Date>,
    trackingNo: Option<string>,
    deliveredDate: Option<Date>)

  /** The snapshot columns before any customer address is copied. */
  const NoShipAddress: Customers.ShipAddress := Customers.ShipAddress(None, None, None, None, None, None)

  // ---------------------------------------------------------------------
  // The order object

  class Order {
    const id: Id
    var companyId: Option<Id>
    var orderedByUserId: Option<Id>
    var customerId: Option<Id>
    var orderNo: Option<string>
    var orderDate: Option<Date>
    var status: OrderStatus
    var trackingNo: Option<string>
    var shipDate: Option<Date>
    var deliveredDate: Option<Date>
    var shippingCarrier: Option<string>
    var totalAmount: real
    var co2Total: Option<real>
    var ship: Customers.ShipAddress

    /** `Order.new(attributes)`: column defaults for everything the form does not set. */
    constructor (id: Id, attrs: OrderAttrs)
      ensures this.id == id
      ensures Row() == OrderRow(None, None, attrs.customerId, None, attrs.orderDate, attrs.status, attrs.trackingNo,
                                attrs.shipDate, attrs.deliveredDate, None, 0.0, Some(0.0), NoShipAddress)
    {
      this.id := id;
      companyId := None;
      orderedByUserId := None;
      customerId := attrs.customerId;
      orderNo := None;
      orderDate := attrs.orderDate;
      status := attrs.status;
      trackingNo := attrs.trackingNo;
      shipDate := attrs.shipDate;
      deliveredDate := attrs.deliveredDate;
      shippingCarrier := None;
      totalAmount := 0.0;
      co2Total := Some(0.0);
      ship := NoShipAddress;
    }

    /** The object's columns as a row. */
    function Row(): OrderRow
      reads this
    {
      OrderRow(companyId, orderedByUserId, customerId, orderNo, orderDate, status, trackingNo, shipDate,
               deliveredDate, shippingCarrier, totalAmount, co2Total, ship)
    }

    method SetRow(r: OrderRow)
      modifies this
      ensures Row() == r
    {
      companyId := r.companyId;
      orderedByUserId := r.orderedByUserId;
      customerId := r.customerId;
      orderNo := r.orderNo;
      orderDate := r.orderDate;
      status := r.status;
      trackingNo := r.trackingNo;
      shipDate := r.shipDate;
      deliveredDate := r.deliveredDate;
      shippingCarrier := r.shippingCarrier;
      totalAmount := r.totalAmount;
      co2Total := r.co2Total;
      ship := r.ship;
    }

    function Errors(customer: Option<Customers.Customer>, others: map<Id, OrderRow>): (r: set<OrderError>)
      reads this
      ensures forall e :: e in r <==> OrderViolates(e, id, Row(), customer, others)
    {
      OrderErrors(id, Row(), customer, others)
    }

    /** `update!(attrs)`: the new values are assigned, then saved only when valid
      * (an invalid record raises and the table row keeps its old values). */
    method Update(r: OrderRow, customer: Option<Customers.Customer>, others: map<Id, OrderRow>) returns (saved: bool)
      modifies this
      ensures Row() == r
      ensures saved <==> OrderErrors(id, r, customer, others) == {}
    {
      SetRow(r);
      saved := Errors(customer, others) == {};
    }

    /** `ship!(tracking_no, ship_date)`: status shipped with the tracking number
      * and date; the prior status is not checked and nothing else changes. */
    method Ship(trackingNo: Option<string>, shipDate: Option<Date>, customer: Option<Customers.Customer>, others: map<Id, OrderRow>)
      returns (saved: bool)
      modifies this
      ensures Row() == old(Row()).(status := Shipped, trackingNo := trackingNo, shipDate := shipDate)
      ensures saved <==> Errors(customer, others) == {}
    {
      saved := Update(Row().(status := Shipped, trackingNo := trackingNo, shipDate := shipDate), customer, others);
    }

    /** `deliver!(delivered_date)`: status delivered with the date; nothing else changes. */
    method Deliver(deliveredDate: Option<Date>, customer: Option<Customers.Customer>, others: map<Id, OrderRow>)
      returns (saved: bool)
      modifies this
      ensures Row() == old(Row()).(status := Delivered, deliveredDate := deliveredDate)
      ensures saved <==> Errors(customer, others) == {}
    {
      saved := Update(Row().(status := Delivered, deliveredDate := deliveredDate), customer, others);
    }

    /** The order-level shipment the shipping screens intend: `ship!` that
      * also records the carrier.  Nothing else changes. */
    method ShipWithCarrier(trackingNo: Option<string>, shipDate: Option<Date>, carrier: Option<string>,
                           customer: Option<Customers.Customer>, others: map<Id, OrderRow>)
      returns (saved: bool)
      modifies this
      ensures Row() == ShippedRow(old(Row()), trackingNo, shipDate, carrier)
      ensures saved <==> OrderErrors(id, old(Row()), customer, others) == {}
    {
      ShippingKeepsErrors(id, Row(), trackingNo, shipDate, carrier, customer, others);
      saved := Update(ShippedRow(Row(), trackingNo, shipDate, carrier), customer, others);
    }

    /** `cancel!`: status cancelled; nothing else changes. */
    method Cancel(customer: Option<Customers.Customer>, others: map<Id, OrderRow>) returns (saved: bool)
      modifies this
      ensures Row() == old(Row()).(status := Cancelled)
      ensures saved <==> Errors(customer, others) == {}
    {
      saved := Update(Row().(status := Cancelled), customer, others);
    }

    /** `recalculate_totals!`: the totals become the sums over the order's stored
      * lines; nothing else changes. */
    method RecalculateTotals(lines: seq<OrderLines.LineAmounts>, customer: Option<Customers.Customer>, others: map<Id, OrderRow>)
      returns (saved: bool)
      modifies this
      ensures Row() == old(Row()).(totalAmount := SumColumn(lines, AmountColumn), co2Total := Some(SumColumn(lines, Co2Column)))
      ensures saved <==> Errors(customer, others) == {}
    {
      var total := SumColumn(lines, AmountColumn);
      var co2 := SumColumn(lines, Co2Column);
      saved := Update(Row().(totalAmount := total, co2Total := Some(co2)), customer, others);
    }

    /** `set_order_no` (create only): a number is drawn from the company's
      * sequence only when none is present and the company is known. */
    method SetOrderNo(company: Companies.Company?)
      modifies this`orderNo, company
      ensures company != null ==> company.orderPrefix == old(company.orderPrefix)
      ensures (!BlankOpt(old(orderNo)) || company == null) ==> orderNo == old(orderNo)
      ensures (!BlankOpt(old(orderNo)) && company != null) ==> company.orderSeq == old(company.orderSeq)
      ensures BlankOpt(old(orderNo)) && company != null ==>
                company.orderSeq == old(company.orderSeq) + 1
                && orderNo == Some(Companies.OrderNumber(company.orderPrefix, company.orderSeq))
    {
      if !BlankOpt(orderNo) || company == null {
        return;
      }
      var no := company.GenerateNextOrderNo();
      orderNo := Some(no);
    }

    /** `snapshot_customer_address` (create only): the customer's address is
      * copied only when a customer is known and `ship_center_name` is blank. */
    method SnapshotCustomerAddress(customer: Option<Customers.Customer>)
      modifies this`ship
      ensures customer.None? || !BlankOpt(old(ship).centerName) ==> ship == old(ship)
      ensures customer.Some? && BlankOpt(old(ship).centerName) ==>
                ship == Customers.ToShippingSnapshot(customer.value)
                && FullShippingAddress() == Customers.FullAddress(customer.value)
    {
      if customer.None? || !BlankOpt(ship.centerName) {
        return;
      }
      ship := Customers.ToShippingSnapshot(customer.value);
      Customers.SnapshotPrintsAsCustomer(customer.value);
    }

    /** `full_shipping_address`. */
    function FullShippingAddress(): string
      reads this
    {
      Customers.ShipLine(ship)
    }
  }

  /** `update!` on two orders with the same lines leaves the same totals:
    * recalculating is idempotent. */
  method RecalculateTwice(o: Order, lines: seq<OrderLines.LineAmounts>, customer: Option<Customers.Customer>, others: map<Id, OrderRow>)
    returns (first: OrderRow, second: OrderRow)
    modifies o
    ensures first == second
    ensures second == o.Row()
  {
    var _ := o.RecalculateTotals(lines, customer, others);
    first := o.Row();
    var _ := o.RecalculateTotals(lines, customer, others);
    second := o.Row();
  }

  // ---------------------------------------------------------------------
  // create_with_lines!

  /** One entry of the line attributes: `item_id` and the cast `quantity`. */
  datatype LineAttrs = LineAttrs(itemId: Option<Id>, quantity: Option<int>)

  /** Why `create_with_lines!` raised (its transaction is then rolled back). */
  datatype CreateError =
    | OrderInvalid(orderErrors: set<OrderError>)
    | ItemNotFound
    | UnitPriceMissing
    | LineInvalid(lineErrors: set<OrderLines.LineError>)

  /** `Integer#to_i` on a cast quantity: nil reads as zero. */
  function ToI(q: Option<int>): int
  {
    if q.Some? then q.value else 0
  }

  function ItemCompanyOf(i: Items.Item): Option<Id>
  {
    i.companyId
  }

  /** The company-scoped item lookup of one line: a missing id and another
    * company's item raise alike. */
  function LineItem(la: LineAttrs, companyId: Id, items: map<Id, Items.Item>): (r: Option<Items.Item>)
    ensures r.Some? <==> la.itemId.Some? && la.itemId.value in items && items[la.itemId.value].companyId == Some(companyId)
    ensures r.Some? ==> r.value == items[la.itemId.value]
  {
    if la.itemId.None? then None else FindForCompany(items, ItemCompanyOf, la.itemId.value, Some(companyId))
  }

  /** The columns `order_lines.create!` is given: the item's price as snapshot,
    * and amounts from `quantity.to_i`; the cost snapshots are left nil. */
  function InitialAmounts(item: Items.Item, up: real, q: Option<int>): OrderLines.LineAmounts
  {
    OrderLines.LineAmounts(Some(up), None, None,
                           Some(OrderLines.Times(up, ToI(q))),
                           Some(OrderLines.Times(OrderLines.OrZero(item.co2PerUnit), ToI(q))))
  }

  /** The columns after the line's `before_validation` callback (a new record,
    * so `should_calculate?` holds; a nil quantity leaves them as given). */
  function CreatedAmounts(item: Items.Item, up: real, q: Option<int>): OrderLines.LineAmounts
  {
    var a := InitialAmounts(item, up, q);
    if q.None? then a else OrderLines.Calculate(a, item, q.value).value
  }

  /** The outcome of creating one line of the order of company `companyId`. */
  function BuildLine(la: LineAttrs, companyId: Id, items: map<Id, Items.Item>): (r: Result<OrderLines.LineAmounts, CreateError>)
    ensures r.Ok? ==> LineItem(la, companyId, items).Some?
    ensures r.Ok? ==> var item := LineItem(la, companyId, items).value;
                      item.unitPrice.Some? && la.quantity.Some? && la.quantity.value > 0
                      && r.value.unitPriceSnapshot == item.unitPrice
                      && r.value.amount == Some(OrderLines.Times(item.unitPrice.value, la.quantity.value))
    ensures LineItem(la, companyId, items).None? ==> r == Err(ItemNotFound)
  {
    match LineItem(la, companyId, items)
    case None => Err(ItemNotFound)
    case Some(item) =>
      if item.unitPrice.None? then Err(UnitPriceMissing)
      else
        var a := CreatedAmounts(item, item.unitPrice.value, la.quantity);
        var errs := OrderLines.LineErrors(Some(companyId), la.quantity, a, Some(item));
        assert la.quantity.None? ==> OrderLines.QuantityBlank in errs;
        assert la.quantity.Some? && la.quantity.value <= 0 ==> OrderLines.QuantityNotPositive in errs;
        if errs != {} then Err(LineInvalid(errs)) else Ok(a)
  }

  /** The outcome of creating the lines in order: the first failing line stops the loop. */
  function BuildLines(las: seq<LineAttrs>, companyId: Id, items: map<Id, Items.Item>): (r: Result<seq<OrderLines.LineAmounts>, CreateError>)
    ensures r.Ok? ==> |r.value| == |las|
  {
    if las == [] then Ok([])
    else
      match BuildLines(las[..|las| - 1], companyId, items)
      case Err(e) => Err(e)
      case Ok(ls) =>
        match BuildLine(las[|las| - 1], companyId, items)
        case Err(e) => Err(e)
        case Ok(l) => Ok(ls + [l])
  }

  /** A failed build stays failed with the same error whatever lines follow. */
  lemma {:induction false} BuildLinesStops(p: seq<LineAttrs>, q: seq<LineAttrs>, companyId: Id, items: map<Id, Items.Item>)
    requires BuildLines(p, companyId, items).Err?
    ensures BuildLines(p + q, companyId, items) == BuildLines(p, companyId, items)
    decreases |q|
  {
    if q == [] {
      assert p + q == p;
    } else {
      var q' := q[..|q| - 1];
      BuildLinesStops(p, q', companyId, items);
      assert (p + q)[..|p + q| - 1] == p + q';
    }
  }

  /** Every line of a successful build uses an item of the order's own company,
    * has a positive quantity and is priced at that item's unit price. */
  lemma {:induction false} BuildLinesTenantSafe(las: seq<LineAttrs>, companyId: Id, items: map<Id, Items.Item>)
    requires BuildLines(las, companyId, items).Ok?
    ensures forall i :: 0 <= i < |las| ==> BuildLine(las[i], companyId, items).Ok?
    ensures forall i :: 0 <= i < |las| ==>
              las[i].itemId.Some? && las[i].itemId.value in items && items[las[i].itemId.value].companyId == Some(companyId)
              && BuildLines(las, companyId, items).value[i] == BuildLine(las[i], companyId, items).value
  {
    if las != [] {
      var init := las[..|las| - 1];
      BuildLinesTenantSafe(init, companyId, items);
      forall i | 0 <= i < |las|
        ensures BuildLine(las[i], companyId, items).Ok?
        ensures las[i].itemId.Some? && las[i].itemId.value in items && items[las[i].itemId.value].companyId == Some(companyId)
                && BuildLines(las, companyId, items).value[i] == BuildLine(las[i], companyId, items).value
      {
        if i < |las| - 1 {
          assert las[i] == init[i];
        }
      }
    }
  }

  /** With valid items, the created lines' amounts and the order total are non-negative. */
  lemma {:induction false} BuildLinesTotalNonNegative(las: seq<LineAttrs>, companyId: Id, items: map<Id, Items.Item>)
    requires forall k :: k in items ==> Items.ItemValid(items[k], items)
    requires BuildLines(las, companyId, items).Ok?
    ensures SumColumn(BuildLines(las, companyId, items).value, AmountColumn) >= 0.0
  {
    var ls := BuildLines(las, companyId, items).value;
    BuildLinesTenantSafe(las, companyId, items);
    forall i | 0 <= i < |ls| ensures ls[i].amount.None? || ls[i].amount.value >= 0.0 {
      var item := items[las[i].itemId.value];
      Items.ValidItemPrices(item, items);
    }
    SumColumnNonNegative(ls, AmountColumn);
  }

  /** A row with the totals `recalculate_totals!` writes for these lines. */
  function Totalled(row: OrderRow, lines: seq<OrderLines.LineAmounts>): OrderRow
  {
    row.(totalAmount := SumColumn(lines, AmountColumn), co2Total := Some(SumColumn(lines, Co2Column)))
  }

  /** The order row the create callbacks leave for validation: the form's
    * attributes, the company and the user, the order number drawn from the
    * company and the customer's address snapshot. */
  function CreatedRow(attrs: OrderAttrs, userId: Id, companyId: Id, orderNo: string,
                      customer: Option<Customers.Customer>): OrderRow
  {
    OrderRow(Some(companyId), Some(userId), attrs.customerId, Some(orderNo), attrs.orderDate, attrs.status,
             attrs.trackingNo, attrs.shipDate, attrs.deliveredDate, None, 0.0, Some(0.0),
             if customer.Some? then Customers.ToShippingSnapshot(customer.value) else NoShipAddress)
  }

  /** `Order.create_with_lines!(attributes, line_attributes, user)`, in one
    * transaction.  `company` is the user's current company (null without one),
    * `customers`, `items` and `others` are the tables.  On any raise the
    * transaction rolls back: no order is returned and the company's sequence
    * keeps its old value. */
  method CreateWithLines(id: Id, attrs: OrderAttrs, lineAttrs: seq<LineAttrs>, userId: Id, company: Companies.Company?,
                         customers: map<Id, Customers.Customer>, items: map<Id, Items.Item>, others: map<Id, OrderRow>)
    returns (r: Result<(Order, seq<OrderLines.LineAmounts>), CreateError>)
    modifies company
    ensures company != null ==> company.orderPrefix == old(company.orderPrefix)
    ensures r.Err? && company != null ==> company.orderSeq == old(company.orderSeq)
    ensures r.Ok? ==> company != null && fresh(r.value.0)
    ensures r.Ok? ==> company.orderSeq == old(company.orderSeq) + 1
    ensures r.Ok? ==> BuildLines(lineAttrs, company.id, items) == Ok(r.value.1)
    ensures r.Ok? ==> var o := r.value.0;
                      o.companyId == Some(company.id) && o.orderedByUserId == Some(userId)
                      && o.orderNo == Some(Companies.OrderNumber(company.orderPrefix, company.orderSeq))
                      && o.totalAmount == SumColumn(r.value.1, AmountColumn)
                      && o.co2Total == Some(SumColumn(r.value.1, Co2Column))
                      && o.Errors(CustomerRow(attrs.customerId, customers), others) == {}
    ensures company != null && BuildLines(lineAttrs, company.id, items).Err? ==> r.Err?
    ensures company != null ==>
              var customer := CustomerRow(attrs.customerId, customers);
              var row := CreatedRow(attrs, userId, company.id,
                                    Companies.OrderNumber(company.orderPrefix, old(company.orderSeq) + 1), customer);
              (r.Ok? <==>
                 OrderErrors(id, row, customer, others) == {}
                 && BuildLines(lineAttrs, company.id, items).Ok?
                 && OrderErrors(id, Totalled(row, BuildLines(lineAttrs, company.id, items).value), customer, others) == {})
  {
    var seq0 := if company != null then company.orderSeq else 0;
    var o := new Order(id, attrs);
    o.companyId := if company != null then Some(company.id) else None;
    o.orderedByUserId := Some(userId);
    var customer := CustomerRow(attrs.customerId, customers);
    // save!: the create callbacks, then validation
    ghost var r0 := o.Row();
    o.SetOrderNo(company);
    ghost var no := if company != null then Companies.OrderNumber(company.orderPrefix, company.orderSeq) else "";
    assert company != null ==> o.Row() == r0.(orderNo := Some(no));
    o.SnapshotCustomerAddress(customer);
    assert company != null ==> o.Row() == CreatedRow(attrs, userId, company.id, no, customer);
    var errs := o.Errors(customer, others);
    if errs != {} {
      if company != null { company.orderSeq := seq0; }
      return Err(OrderInvalid(errs));
    }
    assert company != null by {
      assert !OrderViolates(CompanyIdBlank, id, o.Row(), customer, others);
    }
    var built := CreateLines(id, company.id, lineAttrs, items);
    if built.Err? {
      company.orderSeq := seq0;
      return Err(built.error);
    }
    var lines := built.value;
    var saved := o.RecalculateTotals(lines, customer, others);
    if !saved {
      company.orderSeq := seq0;
      return Err(OrderInvalid(o.Errors(customer, others)));
    }
    r := Ok((o, lines));
  }

  /** The line loop of `create_with_lines!`: each entry's item is looked up
    * within the company, the line is created (its callback prices it) and
    * validated; the first failure stops the loop. */
  method CreateLines(orderId: Id, companyId: Id, lineAttrs: seq<LineAttrs>, items: map<Id, Items.Item>)
    returns (r: Result<seq<OrderLines.LineAmounts>, CreateError>)
    ensures r == BuildLines(lineAttrs, companyId, items)
  {
    var lines: seq<OrderLines.LineAmounts> := [];
    var i := 0;
    while i < |lineAttrs|
      invariant 0 <= i <= |lineAttrs|
      invariant BuildLines(lineAttrs[..i], companyId, items) == Ok(lines)
    {
      assert lineAttrs[..i + 1][..i] == lineAttrs[..i];
      assert lineAttrs[..i + 1][i] == lineAttrs[i];
      var la := lineAttrs[i];
      var found := LineItem(la, companyId, items);
      if found.None? {
        BuildLinesStops(lineAttrs[..i + 1], lineAttrs[i + 1..], companyId, items);
        assert lineAttrs[..i + 1] + lineAttrs[i + 1..] == lineAttrs;
        return Err(ItemNotFound);
      }
      var item := found.value;
      if item.unitPrice.None? {
        BuildLinesStops(lineAttrs[..i + 1], lineAttrs[i + 1..], companyId, items);
        assert lineAttrs[..i + 1] + lineAttrs[i + 1..] == lineAttrs;
        return Err(UnitPriceMissing);
      }
      var line := new OrderLines.OrderLine(i, orderId, Some(companyId), la.itemId, la.quantity,
                                           InitialAmounts(item, item.unitPrice.value, la.quantity));
      var _ := line.BeforeValidation(Some(item), false, false, true);
      assert line.Amounts() == CreatedAmounts(item, item.unitPrice.value, la.quantity);
      var lerrs := line.Errors(Some(item));
      assert lerrs == OrderLines.LineErrors(Some(companyId), la.quantity, line.Amounts(), Some(item));
      if lerrs != {} {
        BuildLinesStops(lineAttrs[..i + 1], lineAttrs[i + 1..], companyId, items);
        assert lineAttrs[..i + 1] + lineAttrs[i + 1..] == lineAttrs;
        return Err(LineInvalid(lerrs));
      }
      lines := lines + [line.Amounts()];
      i := i + 1;
    }
    assert lineAttrs[..i] == lineAttrs;
    return Ok(lines);
  }

  /** The customer row an order's `customer_id` refers to, if it exists. */
  function CustomerRow(customerId: Option<Id>, customers: map<Id, Customers.Customer>): Option<Customers.Customer>
  {
    if customerId.Some? && customerId.value in customers then Some(customers[customerId.value]) else None
  }
}
