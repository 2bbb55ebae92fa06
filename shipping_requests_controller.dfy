// The manufacturers' shipping screen: the date range of the list, the
// orders a manufacturer is asked to ship, the single shipment registration
// and the CSV import of shipments.  Orders and lines are read across
// companies here: a manufacturer serves every company.

module ShippingRequestsController {
  import opened Common
  import opened Web
  import UserProfiles
  import Orders
  import ApplicationController

  /** A calendar date `Date.parse` can return. */
  type Day = d: Date | ValidDate(d) witness Date(2024, 1, 1)

  // ---------------------------------------------------------------------
  // The date range

  /** The bounds the list is filtered with, as the database reads them: a
    * bound text the date cast cannot read is nil. */
  datatype Range = Range(from: Option<Day>, to: Option<Day>)

  /** `parse_date_range_from_params`.  A `month` gives the first to the last
    * day of that month (`Date.parse` raising on a bad month is the error);
    * otherwise each bound is its parameter text when present, else the
    * bound of the current month.  The text is kept as it is and cast by the
    * `order_date` query, so an unreadable bound is no error: it is a nil
    * bound.  `parse` stands for both readings of a date text, `Date.parse`
    * (which raises where `parse` gives nil) and the date column's cast
    * (which gives nil). */
  function ParseDateRange(month: Option<string>, dateFrom: Option<string>, dateTo: Option<string>, today: Day,
                          parse: string -> Option<Day>): (r: Result<Range, DateError>)
    ensures !BlankOpt(month) ==>
              (r.Ok? <==> parse(month.value + "-01").Some?)
              && (r.Ok? ==> var d := parse(month.value + "-01").value;
                            r.value == Range(Some(BeginningOfMonth(d)), Some(EndOfMonth(d))))
    ensures BlankOpt(month) ==> r.Ok?
    ensures BlankOpt(month) && BlankOpt(dateFrom) ==> r.Ok? && r.value.from.Some? && r.value.from.value == BeginningOfMonth(today)
    ensures BlankOpt(month) && BlankOpt(dateTo) ==> r.Ok? && r.value.to.Some? && r.value.to.value == EndOfMonth(today)
    ensures BlankOpt(month) && !BlankOpt(dateFrom) ==> r.Ok? && r.value.from == parse(dateFrom.value)
    ensures BlankOpt(month) && !BlankOpt(dateTo) ==> r.Ok? && r.value.to == parse(dateTo.value)
  {
    if !BlankOpt(month) then
      match parse(month.value + "-01")
      case None => Err(InvalidDate)
      case Some(d) => Ok(Range(Some(BeginningOfMonth(d)), Some(EndOfMonth(d))))
    else
      var from: Option<Day> := if BlankOpt(dateFrom) then Some(BeginningOfMonth(today)) else parse(dateFrom.value);
      var to: Option<Day> := if BlankOpt(dateTo) then Some(EndOfMonth(today)) else parse(dateTo.value);
      Ok(Range(from, to))
  }

  /** A month range is exactly that calendar month: every day of the month is
    * in it and no other day is. */
  lemma MonthRangeIsTheMonth(month: string, today: Day, parse: string -> Option<Day>, x: Day)
    requires Present(month) && parse(month + "-01").Some?
    ensures var r := ParseDateRange(Some(month), None, None, today, parse).value;
            var d := parse(month + "-01").value;
            r.from.Some? && r.to.Some?
            && (InRange(x, r.from.value, r.to.value) <==> x.year == d.year && x.month == d.month)
  {
    var r := ParseDateRange(Some(month), None, None, today, parse).value;
    var d := parse(month + "-01").value;
    if x.year == d.year && x.month == d.month {
      assert NotAfter(x, r.to.value);
    }
  }

  /** With no parameters the range is the current month, and it holds today. */
  lemma DefaultRangeHoldsToday(today: Day, parse: string -> Option<Day>)
    ensures var r := ParseDateRange(None, None, None, today, parse);
            r.Ok? && r.value.from.Some? && r.value.to.Some? && InRange(today, r.value.from.value, r.value.to.value)
            && r.value.from.value.day == 1 && r.value.from.value.month == today.month
            && r.value.to.value.month == today.month
  {
  }

  // ---------------------------------------------------------------------
  // Orders and lines as the screen sees them

  /** An order line joined with its item: the item's manufacturer and code,
    * and the line's own shipping columns. */
  datatype ShipLine = ShipLine(
    id: Id,
    orderId: Id,
    manufacturerId: Option<Id>,
    itemCode: Option<string>,
    shippingCarrier: Option<string>,
    trackingNo: Option<string>,
    shipDate: Option<Date>)

  /** The two tables the screen writes: orders by id and the lines in
    * primary-key order. */
  datatype Db = Db(orders: map<Id, Orders.OrderRow>, lines: seq<ShipLine>)

  /** The order has a line whose item is the manufacturer's. */
  predicate HasLineOf(lines: seq<ShipLine>, orderId: Id, mid: Id)
  {
    exists k :: 0 <= k < |lines| && lines[k].orderId == orderId && lines[k].manufacturerId == Some(mid)
  }

  /** `where(order_date: from..to)`: `BETWEEN` with a nil bound holds for
    * no row. */
  predicate DatedIn(r: Orders.OrderRow, range: Range)
  {
    r.orderDate.Some? && range.from.Some? && range.to.Some?
    && InRange(r.orderDate.value, range.from.value, range.to.value)
  }

  /** `show`: the orders the manufacturer is asked to ship in the range,
    * confirmed or already shipped, with at least one of its lines. */
  predicate RequestOrder(db: Db, mid: Id, range: Range, id: Id)
  {
    id in db.orders && HasLineOf(db.lines, id, mid) && DatedIn(db.orders[id], range)
    && db.orders[id].status in {Orders.Confirmed, Orders.Shipped}
  }

  /** The orders the import may ship: the same, but still confirmed. */
  predicate ImportScopeOrder(db: Db, mid: Id, range: Range, id: Id)
  {
    id in db.orders && HasLineOf(db.lines, id, mid) && DatedIn(db.orders[id], range)
    && db.orders[id].status == Orders.Confirmed
  }

  /** A bound the date cast cannot read leaves the list and the import
    * scope empty rather than failing the page. */
  lemma UnreadableBoundListsNothing(dateFrom: string, dateTo: Option<string>, today: Day,
                                    parse: string -> Option<Day>, db: Db, mid: Id, id: Id)
    requires Present(dateFrom) && parse(dateFrom).None?
    ensures var r := ParseDateRange(None, Some(dateFrom), dateTo, today, parse);
            r.Ok? && !RequestOrder(db, mid, r.value, id) && !ImportScopeOrder(db, mid, r.value, id)
  {
  }

  /** Every order the import may ship is listed on the screen for the range. */
  lemma ImportScopeListed(db: Db, mid: Id, range: Range, id: Id)
    requires ImportScopeOrder(db, mid, range, id)
    ensures RequestOrder(db, mid, range, id)
  {
  }

  /** The first line of the order with the manufacturer's item of this code. */
  predicate LineMatches(l: ShipLine, orderId: Id, mid: Id, itemCode: string)
  {
    l.orderId == orderId && l.manufacturerId == Some(mid) && l.itemCode == Some(itemCode)
  }

  function FindLine(lines: seq<ShipLine>, orderId: Id, mid: Id, itemCode: string): (r: Option<nat>)
    ensures r.Some? ==> r.value < |lines| && LineMatches(lines[r.value], orderId, mid, itemCode)
    ensures r.None? ==> forall k :: 0 <= k < |lines| ==> !LineMatches(lines[k], orderId, mid, itemCode)
  {
    if lines == [] then None
    else if LineMatches(lines[0], orderId, mid, itemCode) then Some(0)
    else
      match FindLine(lines[1..], orderId, mid, itemCode)
      case None => None
      case Some(k) => Some(k + 1)
  }

  /** The shipping columns a registration writes on a line. */
  function Marked(l: ShipLine, carrier: string, tracking: string, date: Day): ShipLine
  {
    l.(shippingCarrier := Some(carrier), trackingNo := Some(tracking), shipDate := Some(date))
  }

  /** `update_all` of the shipping columns on the order's lines with the
    * manufacturer's items. */
  function MarkLines(lines: seq<ShipLine>, orderId: Id, mid: Id, carrier: string, tracking: string, date: Day): (r: seq<ShipLine>)
    ensures |r| == |lines|
    ensures forall k :: 0 <= k < |lines| ==>
              r[k] == (if lines[k].orderId == orderId && lines[k].manufacturerId == Some(mid)
                       then Marked(lines[k], carrier, tracking, date) else lines[k])
  {
    if lines == [] then []
    else
      [if lines[0].orderId == orderId && lines[0].manufacturerId == Some(mid) then Marked(lines[0], carrier, tracking, date)
       else lines[0]] + MarkLines(lines[1..], orderId, mid, carrier, tracking, date)
  }

  /** The two shipments a registration makes.  `ShipItem` writes the one
    * line; `ShipOrder` ships the order with the carrier and marks all the
    * manufacturer's lines of it. */
  function ShipItem(db: Db, k: nat, carrier: string, tracking: string, date: Day): Db
    requires k < |db.lines|
  {
    db.(lines := db.lines[k := Marked(db.lines[k], carrier, tracking, date)])
  }

  function ShipOrder(db: Db, orderId: Id, mid: Id, carrier: string, tracking: string, date: Day): Db
    requires orderId in db.orders
  {
    Db(db.orders[orderId := Orders.ShippedRow(db.orders[orderId], Some(tracking), Some(date), Some(carrier))],
       MarkLines(db.lines, orderId, mid, carrier, tracking, date))
  }

  /** A manufacturer's registration touches only its own lines and the order
    * named: other lines and other orders stay as they were. */
  lemma ShipOrderIsolated(db: Db, orderId: Id, mid: Id, carrier: string, tracking: string, date: Day)
    requires orderId in db.orders
    ensures var n := ShipOrder(db, orderId, mid, carrier, tracking, date);
            n.orders.Keys == db.orders.Keys && |n.lines| == |db.lines|
            && (forall id :: id in db.orders && id != orderId ==> n.orders[id] == db.orders[id])
            && (forall k :: 0 <= k < |db.lines| && db.lines[k].manufacturerId != Some(mid) ==> n.lines[k] == db.lines[k])
            && (forall k :: 0 <= k < |db.lines| && db.lines[k].orderId != orderId ==> n.lines[k] == db.lines[k])
            && n.orders[orderId].status == Orders.Shipped && n.orders[orderId].shippingCarrier == Some(carrier)
  {
  }

  // ---------------------------------------------------------------------
  // `ship!` as the controller calls it

  /** The arguments of a call: how many positional ones and which keywords. */
  datatype CallArgs = CallArgs(positional: nat, keywords: set<string>)

  /** Whether a call binds to `ship!(tracking_no, ship_date = Date.current)`:
    * the method takes no keywords, so keywords arrive as one more positional
    * Hash, and one or two positional arguments are accepted. */
  predicate ShipBinds(a: CallArgs)
  {
    var n := a.positional + (if a.keywords == {} then 0 else 1);
    1 <= n <= 2
  }

  /** `order.ship!(tracking, ship_date, shipping_carrier: carrier)` passes
    * three arguments and raises `ArgumentError`; without the keyword it binds. */
  lemma ShipWithKeywordRaises()
    ensures !ShipBinds(CallArgs(2, {"shipping_carrier"}))
    ensures ShipBinds(CallArgs(2, {})) && ShipBinds(CallArgs(1, {}))
  {
  }

  /** The call the controller makes. */
  const ControllerShipCall: CallArgs := CallArgs(2, {"shipping_carrier"})

  // ---------------------------------------------------------------------
  // register_shipment

  /** The posted form of one registration. */
  datatype ShipmentParams = ShipmentParams(
    orderId: Option<Id>,
    shippingCarrier: Option<string>,
    trackingNo: Option<string>,
    shipDate: Option<string>,
    itemCode: Option<string>,
    month: Option<string>)

  const InvalidOrderKey: string := "shipping_requests.register_shipment.invalid_order"
  const BlankCarrierKey: string := "shipping_requests.register_shipment.blank_carrier_or_tracking"
  const LineNotFoundKey: string := "shipping_requests.register_shipment.line_not_found"
  const ShipmentSuccessKey: string := "shipping_requests.register_shipment.success"

  /** `current_manufacturer` of a manufacturer user. */
  function ActorManufacturer(u: UserProfiles.Account): Option<Id>
  {
    if u.profile.Some? && UserProfiles.ManufacturerUser(u.profile.value) then u.profile.value.manufacturerId else None
  }

  /** `params[:x].to_s.strip`. */
  function StrippedParam(x: Option<string>): string
  {
    if x.Some? then Strip(x.value) else ""
  }

  /** `params[:ship_date].presence || Date.current`, then `Date.parse ...
    * rescue Date.current`. */
  function ShipDate(posted: Option<string>, today: Day, parse: string -> Option<Day>): Day
  {
    if BlankOpt(posted) then today
    else match parse(posted.value)
      case None => today
      case Some(d) => d
  }

  /** The checks before anything is written: the actor is this manufacturer's
    * user, the order exists, has a line of the manufacturer and is
    * confirmed, and carrier and tracking number are present once stripped. */
  predicate ShipmentAccepted(u: UserProfiles.Account, mid: Id, p: ShipmentParams, db: Db)
  {
    ActorManufacturer(u) == Some(mid)
    && p.orderId.Some? && p.orderId.value in db.orders && HasLineOf(db.lines, p.orderId.value, mid)
    && db.orders[p.orderId.value].status == Orders.Confirmed
    && Present(StrippedParam(p.shippingCarrier)) && Present(StrippedParam(p.trackingNo))
  }

  /** `register_shipment`.  With an item code only that line changes; without
    * one, as written, the `ship!` call raises (`corrected` makes it the
    * intended order-level shipment). */
  function RegisterShipment(u: UserProfiles.Account, mid: Id, p: ShipmentParams, db: Db, today: Day,
                            parse: string -> Option<Day>, corrected: bool): (r: (Response, Db))
    ensures r.1 != db ==> ShipmentAccepted(u, mid, p, db) && r.0 == RedirectWith(ShippingRequest(mid, p.month), Notice(ShipmentSuccessKey))
    ensures !ShipmentAccepted(u, mid, p, db) ==> r.1 == db && r.0.Redirect? && r.0.flash.Alert?
  {
    var back := ShippingRequest(mid, p.month);
    if ActorManufacturer(u) != Some(mid) then
      (RedirectWith(ShippingRequest(mid, None), Alert(ApplicationController.NotAuthorizedKey)), db)
    else if !(p.orderId.Some? && p.orderId.value in db.orders && HasLineOf(db.lines, p.orderId.value, mid)
              && db.orders[p.orderId.value].status == Orders.Confirmed) then
      (RedirectWith(back, Alert(InvalidOrderKey)), db)
    else if !(Present(StrippedParam(p.shippingCarrier)) && Present(StrippedParam(p.trackingNo))) then
      (RedirectWith(back, Alert(BlankCarrierKey)), db)
    else
      var id := p.orderId.value;
      var date := ShipDate(p.shipDate, today, parse);
      var carrier := StrippedParam(p.shippingCarrier);
      var tracking := StrippedParam(p.trackingNo);
      var code := Presence(Some(StrippedParam(p.itemCode)));
      if code.Some? then
        match FindLine(db.lines, id, mid, code.value)
        case None => (RedirectWith(back, Alert(LineNotFoundKey)), db)
        case Some(k) => (RedirectWith(back, Notice(ShipmentSuccessKey)), ShipItem(db, k, carrier, tracking, date))
      else if !corrected then
        // `ControllerShipCall` does not bind (`ShipWithKeywordRaises`).
        (Raised, db)
      else (RedirectWith(back, Notice(ShipmentSuccessKey)), ShipOrder(db, id, mid, carrier, tracking, date))
  }

  /** As written, an accepted registration without item code ends in the
    * error page and writes nothing. */
  lemma AsWrittenOrderShipmentRaises(u: UserProfiles.Account, mid: Id, p: ShipmentParams, db: Db, today: Day,
                                      parse: string -> Option<Day>)
    requires ShipmentAccepted(u, mid, p, db) && Blank(StrippedParam(p.itemCode))
    ensures RegisterShipment(u, mid, p, db, today, parse, false) == (Raised, db)
  {
  }

  /** Corrected, the same registration ships the order with carrier, tracking
    * number and date, and marks every line of the manufacturer in it. */
  lemma CorrectedOrderShipment(u: UserProfiles.Account, mid: Id, p: ShipmentParams, db: Db, today: Day,
                               parse: string -> Option<Day>)
    requires ShipmentAccepted(u, mid, p, db) && Blank(StrippedParam(p.itemCode))
    ensures var (resp, n) := RegisterShipment(u, mid, p, db, today, parse, true);
            var id := p.orderId.value;
            resp == RedirectWith(ShippingRequest(mid, p.month), Notice(ShipmentSuccessKey))
            && n.orders[id].status == Orders.Shipped
            && n.orders[id].shippingCarrier == Some(StrippedParam(p.shippingCarrier))
            && n.orders[id].trackingNo == Some(StrippedParam(p.trackingNo))
            && n.orders[id].shipDate.Some? && n.orders[id].shipDate.value == ShipDate(p.shipDate, today, parse)
            && (forall k :: 0 <= k < |db.lines| && db.lines[k].orderId == id && db.lines[k].manufacturerId == Some(mid) ==>
                  n.lines[k].shippingCarrier == Some(StrippedParam(p.shippingCarrier)))
  {
    assert Presence(Some(StrippedParam(p.itemCode))).None?;
    var id := p.orderId.value;
    var date := ShipDate(p.shipDate, today, parse);
    var n := ShipOrder(db, id, mid, StrippedParam(p.shippingCarrier), StrippedParam(p.trackingNo), date);
    assert RegisterShipment(u, mid, p, db, today, parse, true)
           == (RedirectWith(ShippingRequest(mid, p.month), Notice(ShipmentSuccessKey)), n);
  }

  /** With an item code, only that line changes, and it is the order's line
    * of the manufacturer's item with that code. */
  lemma ItemShipmentChangesOneLine(u: UserProfiles.Account, mid: Id, p: ShipmentParams, db: Db, today: Day,
                                   parse: string -> Option<Day>, corrected: bool)
    requires ShipmentAccepted(u, mid, p, db) && Present(StrippedParam(p.itemCode))
    ensures var n := RegisterShipment(u, mid, p, db, today, parse, corrected).1;
            n.orders == db.orders && |n.lines| == |db.lines|
            && forall k :: 0 <= k < |db.lines| && n.lines[k] != db.lines[k] ==>
                 LineMatches(db.lines[k], p.orderId.value, mid, StrippedParam(p.itemCode))
                 && n.lines[k] == Marked(db.lines[k], StrippedParam(p.shippingCarrier), StrippedParam(p.trackingNo),
                                         ShipDate(p.shipDate, today, parse))
  {
    assert Presence(Some(StrippedParam(p.itemCode))) == Some(StrippedParam(p.itemCode));
  }

  // ---------------------------------------------------------------------
  // register_shipment_import

  /** One data row of the file: the cell under each header it has. */
  type CsvRow = map<string, string>

  function Cell(row: CsvRow, header: string): Option<string>
  {
    if header in row then Some(row[header]) else None
  }

  /** `row[ja]&.strip.presence || row[en]&.strip.presence`: the Japanese
    * header first, the English one as fallback. */
  function Field(row: CsvRow, ja: string, en: string): (r: Option<string>)
    ensures r.Some? ==> Present(r.value)
    ensures Presence(StripOpt(Cell(row, ja))).Some? ==> r == Presence(StripOpt(Cell(row, ja)))
  {
    var a := Presence(StripOpt(Cell(row, ja)));
    if a.Some? then a else Presence(StripOpt(Cell(row, en)))
  }

  /** The cells of one row. */
  datatype RowFields = RowFields(orderNo: Option<string>, itemCode: Option<string>, carrier: Option<string>,
                                 tracking: Option<string>, shipDate: Option<string>)

  function Fields(row: CsvRow): RowFields
  {
    RowFields(Field(row, "発注番号", "order_no"), Field(row, "商品コード", "item_code"),
              Field(row, "運送会社", "shipping_carrier"), Field(row, "追跡番号", "tracking_no"),
              Field(row, "出荷日", "ship_date"))
  }

  /** One entry of the import errors, with the row's line in the file. */
  datatype ImportError =
    | BlankOrderNo(row: nat)
    | BlankCarrierOrTracking(row: nat)
    | OrderNotFound(row: nat, orderNo: string)
    | ImportLineNotFound(row: nat, orderNo: string, itemCode: string)

  /** `orders_in_scope.index_by(&:order_no)`: for a number several loaded
    * orders share, the last one wins. */
  function IndexByNo(scope: seq<Id>, orders: map<Id, Orders.OrderRow>): (r: map<string, Id>)
    ensures forall no :: no in r ==> r[no] in scope
  {
    if scope == [] then map[]
    else
      var last := scope[|scope| - 1];
      var m := IndexByNo(scope[..|scope| - 1], orders);
      if last in orders && orders[last].orderNo.Some? then m[orders[last].orderNo.value := last] else m
  }

  /** The loop's state: the tables, `ok_count`, `errors`, and whether a row
    * raised (which ends the request). */
  datatype ImportState = ImportState(db: Db, ok: nat, errors: seq<ImportError>, raised: bool)

  /** One row.  The order is looked up in the index built before the loop,
    * so an order an earlier row shipped is still found. */
  function ImportStep(st: ImportState, row: CsvRow, rowNo: nat, byNo: map<string, Id>, mid: Id, today: Day,
                      parse: string -> Option<Day>, corrected: bool): (r: ImportState)
    requires forall no :: no in byNo ==> byNo[no] in st.db.orders
    requires !st.raised
    ensures r.db.orders.Keys == st.db.orders.Keys
    ensures !r.raised ==> r.ok + |r.errors| == st.ok + |st.errors| + 1 && |st.errors| <= |r.errors| && r.errors[..|st.errors|] == st.errors
    ensures r.raised ==> !corrected && r.db == st.db && r.ok == st.ok && r.errors == st.errors
  {
    var f := Fields(row);
    if f.orderNo.None? then st.(errors := st.errors + [BlankOrderNo(rowNo)])
    else if f.carrier.None? || f.tracking.None? then st.(errors := st.errors + [BlankCarrierOrTracking(rowNo)])
    else if f.orderNo.value !in byNo then st.(errors := st.errors + [OrderNotFound(rowNo, f.orderNo.value)])
    else
      var id := byNo[f.orderNo.value];
      var date := ShipDate(f.shipDate, today, parse);
      if f.itemCode.Some? then
        match FindLine(st.db.lines, id, mid, f.itemCode.value)
        case None => st.(errors := st.errors + [ImportLineNotFound(rowNo, f.orderNo.value, f.itemCode.value)])
        case Some(k) => st.(db := ShipItem(st.db, k, f.carrier.value, f.tracking.value, date), ok := st.ok + 1)
      else if !corrected then st.(raised := true)
      else st.(db := ShipOrder(st.db, id, mid, f.carrier.value, f.tracking.value, date), ok := st.ok + 1)
  }

  /** The rows from index `i` on; the row at index `i` is line `i + 2`. */
  function ImportRows(st: ImportState, rows: seq<CsvRow>, i: nat, byNo: map<string, Id>, mid: Id, today: Day,
                      parse: string -> Option<Day>, corrected: bool): (r: ImportState)
    requires forall no :: no in byNo ==> byNo[no] in st.db.orders
    ensures r.db.orders.Keys == st.db.orders.Keys
    decreases |rows| - i
  {
    if i >= |rows| || st.raised then st
    else ImportRows(ImportStep(st, rows[i], i + 2, byNo, mid, today, parse, corrected), rows, i + 1, byNo, mid, today, parse, corrected)
  }

  /** Until a row raises, every row is either counted in `ok_count` or gives
    * exactly one error. */
  lemma {:induction false} ImportAccounting(st: ImportState, rows: seq<CsvRow>, i: nat, byNo: map<string, Id>, mid: Id,
                                            today: Day, parse: string -> Option<Day>, corrected: bool)
    requires forall no :: no in byNo ==> byNo[no] in st.db.orders
    requires i <= |rows| && !st.raised
    ensures var r := ImportRows(st, rows, i, byNo, mid, today, parse, corrected);
            (!r.raised ==> r.ok + |r.errors| == st.ok + |st.errors| + (|rows| - i))
            && (corrected ==> !r.raised)
    decreases |rows| - i
  {
    if i < |rows| {
      var s := ImportStep(st, rows[i], i + 2, byNo, mid, today, parse, corrected);
      if !s.raised {
        ImportAccounting(s, rows, i + 1, byNo, mid, today, parse, corrected);
      }
    }
  }

  /** A row that passes the checks: order number, carrier and tracking
    * number present and the order found among the loaded ones. */
  predicate OrderRowReady(f: RowFields, byNo: map<string, Id>)
  {
    f.orderNo.Some? && f.carrier.Some? && f.tracking.Some? && f.orderNo.value in byNo
  }

  /** As written, the first row without item code that passes the checks
    * raises: the rows before it stay written and the request fails. */
  lemma AsWrittenOrderRowRaises(st: ImportState, row: CsvRow, rowNo: nat, byNo: map<string, Id>, mid: Id, today: Day,
                                parse: string -> Option<Day>)
    requires forall no :: no in byNo ==> byNo[no] in st.db.orders
    requires !st.raised
    requires OrderRowReady(Fields(row), byNo) && Fields(row).itemCode.None?
    ensures ImportStep(st, row, rowNo, byNo, mid, today, parse, false).raised
  {
  }

  /** The order index is built once, before the loop: a row for an order an
    * earlier row already shipped still finds it and ships it again. */
  lemma ShippedOrderStillResolves(st: ImportState, row: CsvRow, rowNo: nat, byNo: map<string, Id>, mid: Id, today: Day,
                                  parse: string -> Option<Day>)
    requires forall no :: no in byNo ==> byNo[no] in st.db.orders
    requires !st.raised
    requires OrderRowReady(Fields(row), byNo) && Fields(row).itemCode.None?
    requires st.db.orders[byNo[Fields(row).orderNo.value]].status == Orders.Shipped
    ensures var r := ImportStep(st, row, rowNo, byNo, mid, today, parse, true);
            r.ok == st.ok + 1 && r.errors == st.errors
            && r.db.orders[byNo[Fields(row).orderNo.value]].status == Orders.Shipped
  {
  }

  /** Lines of other manufacturers are never written by an import. */
  predicate OtherLinesKept(before: Db, after: Db, mid: Id)
  {
    |after.lines| == |before.lines|
    && forall k :: 0 <= k < |before.lines| && before.lines[k].manufacturerId != Some(mid) ==> after.lines[k] == before.lines[k]
  }

  lemma {:induction false} ImportKeepsOtherLines(st: ImportState, rows: seq<CsvRow>, i: nat, byNo: map<string, Id>, mid: Id,
                                                 today: Day, parse: string -> Option<Day>, corrected: bool)
    requires forall no :: no in byNo ==> byNo[no] in st.db.orders
    ensures OtherLinesKept(st.db, ImportRows(st, rows, i, byNo, mid, today, parse, corrected).db, mid)
    decreases |rows| - i
  {
    if i < |rows| && !st.raised {
      var s := ImportStep(st, rows[i], i + 2, byNo, mid, today, parse, corrected);
      StepKeepsOtherLines(st, rows[i], i + 2, byNo, mid, today, parse, corrected);
      ImportKeepsOtherLines(s, rows, i + 1, byNo, mid, today, parse, corrected);
      var r := ImportRows(s, rows, i + 1, byNo, mid, today, parse, corrected);
      assert ImportRows(st, rows, i, byNo, mid, today, parse, corrected) == r;
      OtherLinesKeptTrans(st.db, s.db, r.db, mid);
    }
  }

  lemma StepKeepsOtherLines(st: ImportState, row: CsvRow, rowNo: nat, byNo: map<string, Id>, mid: Id, today: Day,
                            parse: string -> Option<Day>, corrected: bool)
    requires forall no :: no in byNo ==> byNo[no] in st.db.orders
    requires !st.raised
    ensures OtherLinesKept(st.db, ImportStep(st, row, rowNo, byNo, mid, today, parse, corrected).db, mid)
  {
    var f := Fields(row);
    var r := ImportStep(st, row, rowNo, byNo, mid, today, parse, corrected);
    if f.orderNo.Some? && f.carrier.Some? && f.tracking.Some? && f.orderNo.value in byNo {
      var id := byNo[f.orderNo.value];
      var date := ShipDate(f.shipDate, today, parse);
      if f.itemCode.Some? {
        var found := FindLine(st.db.lines, id, mid, f.itemCode.value);
        if found.Some? {
          assert r.db == ShipItem(st.db, found.value, f.carrier.value, f.tracking.value, date);
          ShipItemKeepsOtherLines(st.db, found.value, mid, f.carrier.value, f.tracking.value, date);
        } else {
          assert r.db == st.db;
        }
      } else if corrected {
        assert r.db == ShipOrder(st.db, id, mid, f.carrier.value, f.tracking.value, date);
        ShipOrderIsolated(st.db, id, mid, f.carrier.value, f.tracking.value, date);
      } else {
        assert r.db == st.db;
      }
    } else {
      assert r.db == st.db;
    }
  }

  lemma ShipItemKeepsOtherLines(db: Db, k: nat, mid: Id, carrier: string, tracking: string, date: Day)
    requires k < |db.lines| && db.lines[k].manufacturerId == Some(mid)
    ensures OtherLinesKept(db, ShipItem(db, k, carrier, tracking, date), mid)
  {
  }

  lemma OtherLinesKeptTrans(a: Db, b: Db, c: Db, mid: Id)
    requires OtherLinesKept(a, b, mid) && OtherLinesKept(b, c, mid)
    ensures OtherLinesKept(a, c, mid)
  {
  }

  const ImportNotAuthorizedKey: string := "pundit.not_authorized"
  const MissingFileKey: string := "shipping_requests.import.missing_file"
  const PartialSuccessKey: string := "shipping_requests.import.partial_success"
  const ImportSuccessKey: string := "shipping_requests.import.success"

  /** The screen the import returns to, with its flash: a partial success
    * when some row failed, a success otherwise. */
  function ImportResponse(mid: Id, month: Option<string>, st: ImportState): (r: Response)
    ensures st.raised ==> r == Raised
    ensures !st.raised ==> r.Redirect? && r.to == ShippingRequest(mid, month)
                           && (r.flash == Notice(ImportSuccessKey) <==> st.errors == [])
  {
    if st.raised then Raised
    else if st.errors != [] then RedirectWith(ShippingRequest(mid, month), Alert(PartialSuccessKey))
    else RedirectWith(ShippingRequest(mid, month), Notice(ImportSuccessKey))
  }

  /** The tables of the modelled database the screen writes. */
  class ShippingStore {
    var orders: map<Id, Orders.OrderRow>
    var lines: seq<ShipLine>

    constructor (orders0: map<Id, Orders.OrderRow>, lines0: seq<ShipLine>)
      ensures orders == orders0 && lines == lines0
    {
      orders := orders0;
      lines := lines0;
    }

    function Tables(): Db
      reads this
    {
      Db(orders, lines)
    }

    /** `register_shipment_import` as written, from the point where the
      * actor, the date range and the file have been accepted: `scope` is the
      * confirmed orders loaded before the loop and `rows` the parsed file.
      * Returns the response with `ok_count` and `errors`. */
    method RegisterShipmentImport(mid: Id, month: Option<string>, scope: seq<Id>, rows: seq<CsvRow>, today: Day,
                                  parse: string -> Option<Day>)
      returns (resp: Response, ok: nat, errors: seq<ImportError>)
      requires forall id :: id in scope ==> id in orders
      modifies this
      ensures var st := ImportRows(ImportState(old(Tables()), 0, [], false), rows, 0, IndexByNo(scope, old(orders)), mid,
                                   today, parse, false);
              Tables() == st.db && ok == st.ok && errors == st.errors && resp == ImportResponse(mid, month, st)
    {
      var byNo := IndexByNo(scope, orders);
      ghost var start := ImportState(Tables(), 0, [], false);
      ok, errors := 0, [];
      var raised := false;
      var i := 0;
      while i < |rows| && !raised
        invariant i <= |rows|
        invariant orders.Keys == start.db.orders.Keys
        invariant ImportRows(ImportState(Tables(), ok, errors, raised), rows, i, byNo, mid, today, parse, false)
                  == ImportRows(start, rows, 0, byNo, mid, today, parse, false)
      {
        ok, errors, raised := ImportRow(rows[i], i + 2, byNo, mid, today, parse, ok, errors);
        i := i + 1;
      }
      resp := ImportResponse(mid, month, ImportState(Tables(), ok, errors, raised));
    }

    /** The body of the row loop. */
    method ImportRow(row: CsvRow, rowNo: nat, byNo: map<string, Id>, mid: Id, today: Day, parse: string -> Option<Day>,
                     ok0: nat, errors0: seq<ImportError>)
      returns (ok: nat, errors: seq<ImportError>, raised: bool)
      requires forall no :: no in byNo ==> byNo[no] in orders
      modifies this
      ensures ImportState(Tables(), ok, errors, raised)
              == ImportStep(ImportState(old(Tables()), ok0, errors0, false), row, rowNo, byNo, mid, today, parse, false)
    {
      ok, errors, raised := ok0, errors0, false;
      var f := Fields(row);
      if f.orderNo.None? {
        errors := errors + [BlankOrderNo(rowNo)];
        return;
      }
      if f.carrier.None? || f.tracking.None? {
        errors := errors + [BlankCarrierOrTracking(rowNo)];
        return;
      }
      if f.orderNo.value !in byNo {
        errors := errors + [OrderNotFound(rowNo, f.orderNo.value)];
        return;
      }
      var id := byNo[f.orderNo.value];
      var date := ShipDate(f.shipDate, today, parse);
      if f.itemCode.Some? {
        var k := FindLine(lines, id, mid, f.itemCode.value);
        if k.None? {
          errors := errors + [ImportLineNotFound(rowNo, f.orderNo.value, f.itemCode.value)];
          return;
        }
        lines := lines[k.value := Marked(lines[k.value], f.carrier.value, f.tracking.value, date)];
        ok := ok + 1;
      } else {
        // `ship!` is called with three arguments and raises `ArgumentError`.
        raised := true;
      }
    }
  }
}
