// Payments received from a company for one billing month: the period and
// amount rules, the paid / unpaid / overdue split, the amount shown when
// none is recorded (the month's order total) and the period label.

module CompanyPayments {
  import opened Common
  import Orders

  /** One `company_payments` row. */
  datatype Payment = Payment(
    id: Id,
    companyId: Option<Id>,
    year: Option<int>,
    month: Option<int>,
    dueDate: Option<Date>,
    paidAt: Option<Date>,
    amount: Option<real>)

  datatype PaymentError =
    | YearBlank | YearOutOfRange
    | MonthBlank | MonthOutOfRange
    | PeriodTaken
    | AmountNegative

  const AllPaymentErrors: seq<PaymentError> := [YearBlank, YearOutOfRange, MonthBlank, MonthOutOfRange, PeriodTaken, AmountNegative]

  /** Another row has the same company, year and month (nil matches nil, as in SQL `IS NULL`). */
  predicate PeriodTakenIn(p: Payment, table: map<Id, Payment>)
  {
    exists k :: k in table && k != p.id && table[k].companyId == p.companyId
                && table[k].year == p.year && table[k].month == p.month
  }

  predicate PaymentViolates(e: PaymentError, p: Payment, table: map<Id, Payment>)
  {
    match e
    case YearBlank => p.year.None?
    case YearOutOfRange => p.year.Some? && !(2000 <= p.year.value <= 2100)
    case MonthBlank => p.month.None?
    case MonthOutOfRange => p.month.Some? && !(1 <= p.month.value <= 12)
    case PeriodTaken => PeriodTakenIn(p, table)
    case AmountNegative => p.amount.Some? && p.amount.value < 0.0
  }

  /** The errors `valid?` collects for `p` against the payments table. */
  function PaymentErrors(p: Payment, table: map<Id, Payment>): (r: set<PaymentError>)
    ensures forall e :: e in r <==> PaymentViolates(e, p, table)
  {
    set e | e in AllPaymentErrors && PaymentViolates(e, p, table)
  }

  /** A valid row names a real billing month, with an amount that is absent or non-negative. */
  lemma ValidPaymentPeriod(p: Payment, table: map<Id, Payment>)
    requires PaymentErrors(p, table) == {}
    ensures p.year.Some? && 2000 <= p.year.value <= 2100
    ensures p.month.Some? && 1 <= p.month.value <= 12
    ensures p.amount.None? || p.amount.value >= 0.0
  {
    assert !PaymentViolates(YearBlank, p, table) && !PaymentViolates(YearOutOfRange, p, table);
    assert !PaymentViolates(MonthBlank, p, table) && !PaymentViolates(MonthOutOfRange, p, table);
    assert !PaymentViolates(AmountNegative, p, table);
  }

  /** In a table of valid rows a company has at most one payment per month. */
  lemma OnePaymentPerPeriod(table: map<Id, Payment>, a: Id, b: Id)
    requires a in table && b in table && a != b && table[a].id == a
    requires PaymentErrors(table[a], table) == {}
    requires table[a].companyId == table[b].companyId
    ensures table[a].year != table[b].year || table[a].month != table[b].month
  {
    assert !PaymentViolates(PeriodTaken, table[a], table);
  }

  // ---------------------------------------------------------------------
  // paid? / overdue? and the scopes

  predicate Paid(p: Payment)
  {
    p.paidAt.Some?
  }

  /** `overdue?` on the day `today`. */
  predicate Overdue(p: Payment, today: Date)
  {
    !Paid(p) && p.dueDate.Some? && Before(p.dueDate.value, today)
  }

  /** The `unpaid` scope. */
  function UnpaidScope(table: map<Id, Payment>): (r: map<Id, Payment>)
    ensures forall k :: k in r <==> k in table && table[k].paidAt.None?
    ensures forall k :: k in r ==> r[k] == table[k]
  {
    map k | k in table && table[k].paidAt.None? :: table[k]
  }

  /** The `paid` scope. */
  function PaidScope(table: map<Id, Payment>): (r: map<Id, Payment>)
    ensures forall k :: k in r <==> k in table && table[k].paidAt.Some?
    ensures forall k :: k in r ==> r[k] == table[k]
  {
    map k | k in table && table[k].paidAt.Some? :: table[k]
  }

  /** The `overdue` scope: unpaid rows with a due date before `today`. */
  function OverdueScope(table: map<Id, Payment>, today: Date): (r: map<Id, Payment>)
    ensures forall k :: k in r <==> k in UnpaidScope(table) && table[k].dueDate.Some? && Before(table[k].dueDate.value, today)
    ensures forall k :: k in r ==> r[k] == table[k]
  {
    var unpaid := UnpaidScope(table);
    map k | k in unpaid && unpaid[k].dueDate.Some? && Before(unpaid[k].dueDate.value, today) :: unpaid[k]
  }

  /** The scopes agree with the row predicates: `paid` and `unpaid` split the
    * table, and `overdue` selects exactly the rows that are `overdue?`. */
  lemma ScopesAgreeWithPredicates(table: map<Id, Payment>, today: Date)
    ensures PaidScope(table).Keys + UnpaidScope(table).Keys == table.Keys
    ensures PaidScope(table).Keys * UnpaidScope(table).Keys == {}
    ensures forall k :: k in PaidScope(table) <==> k in table && Paid(table[k])
    ensures forall k :: k in OverdueScope(table, today) <==> k in table && Overdue(table[k], today)
    ensures OverdueScope(table, today).Keys <= UnpaidScope(table).Keys
  {
  }

  /** Paying a row takes it out of the overdue list, whatever the day. */
  lemma PaidNeverOverdue(p: Payment, today: Date)
    requires Paid(p)
    ensures !Overdue(p, today)
  {
  }

  // ---------------------------------------------------------------------
  // display_amount

  /** The order belongs to `companyId`, is dated within the month of `start`, and is not cancelled. */
  predicate CountsForMonth(o: Orders.OrderRow, companyId: Id, start: Date)
    requires ValidDate(start)
  {
    o.companyId == Some(companyId) && o.orderDate.Some?
    && InRange(o.orderDate.value, start, EndOfMonth(start))
    && o.status != Orders.Cancelled
  }

  /** `sum(:total_amount)` over the orders that count for the month (0 when none do). */
  function MonthOrderTotal(orders: seq<Orders.OrderRow>, companyId: Id, start: Date): real
    requires ValidDate(start)
  {
    if orders == [] then 0.0
    else (if CountsForMonth(orders[0], companyId, start) then orders[0].totalAmount else 0.0)
         + MonthOrderTotal(orders[1..], companyId, start)
  }

  lemma {:induction false} MonthOrderTotalAppend(a: seq<Orders.OrderRow>, b: seq<Orders.OrderRow>, companyId: Id, start: Date)
    requires ValidDate(start)
    ensures MonthOrderTotal(a + b, companyId, start) == MonthOrderTotal(a, companyId, start) + MonthOrderTotal(b, companyId, start)
  {
    if a != [] {
      assert (a + b)[0] == a[0];
      assert (a + b)[1..] == a[1..] + b;
      MonthOrderTotalAppend(a[1..], b, companyId, start);
    } else {
      assert a + b == b;
    }
  }

  /** An order that does not count (another company, another month, cancelled)
    * leaves the total unchanged; one that counts adds its own total. */
  lemma MonthOrderTotalAdd(orders: seq<Orders.OrderRow>, o: Orders.OrderRow, companyId: Id, start: Date)
    requires ValidDate(start)
    ensures MonthOrderTotal(orders + [o], companyId, start)
            == MonthOrderTotal(orders, companyId, start) + (if CountsForMonth(o, companyId, start) then o.totalAmount else 0.0)
  {
    MonthOrderTotalAppend(orders, [o], companyId, start);
    assert [o][1..] == [];
  }

  /** With non-negative order totals the month total is non-negative. */
  lemma {:induction false} MonthOrderTotalNonNegative(orders: seq<Orders.OrderRow>, companyId: Id, start: Date)
    requires ValidDate(start)
    requires forall i :: 0 <= i < |orders| ==> orders[i].totalAmount >= 0.0
    ensures MonthOrderTotal(orders, companyId, start) >= 0.0
  {
    if orders != [] {
      MonthOrderTotalNonNegative(orders[1..], companyId, start);
    }
  }

  /** `computed_order_total`: nil without a company, otherwise the month's total
    * over `orders`, the orders table. */
  function ComputedOrderTotal(p: Payment, orders: seq<Orders.OrderRow>): (r: Result<Option<real>, DateError>)
    ensures p.companyId.None? ==> r == Ok(None)
    ensures p.companyId.Some? && MonthStart(p.year, p.month).Ok? ==>
              r == Ok(Some(MonthOrderTotal(orders, p.companyId.value, MonthStart(p.year, p.month).value)))
    ensures r.Err? <==> p.companyId.Some? && MonthStart(p.year, p.month).Err?
  {
    if p.companyId.None? then Ok(None)
    else
      match MonthStart(p.year, p.month)
      case Err(e) => Err(e)
      case Ok(start) => Ok(Some(MonthOrderTotal(orders, p.companyId.value, start)))
  }

  /** `display_amount`: the recorded amount, else the computed total, else 0. */
  function DisplayAmount(p: Payment, orders: seq<Orders.OrderRow>): (r: Result<real, DateError>)
    ensures p.amount.Some? ==> r == Ok(p.amount.value)
    ensures p.amount.None? && p.companyId.None? ==> r == Ok(0.0)
    ensures p.amount.None? ==> (r.Err? <==> ComputedOrderTotal(p, orders).Err?)
  {
    if p.amount.Some? then Ok(p.amount.value)
    else
      match ComputedOrderTotal(p, orders)
      case Err(e) => Err(e)
      case Ok(t) => Ok(if t.Some? then t.value else 0.0)
  }

  /** For a valid row of a company without a recorded amount, the shown amount
    * is the non-negative total of that company's non-cancelled orders of the month. */
  lemma DisplayAmountFallsBackToOrders(p: Payment, table: map<Id, Payment>, orders: seq<Orders.OrderRow>)
    requires PaymentErrors(p, table) == {} && p.amount.None? && p.companyId.Some?
    requires forall i :: 0 <= i < |orders| ==> orders[i].totalAmount >= 0.0
    ensures DisplayAmount(p, orders).Ok?
    ensures p.year.Some? && p.month.Some? && 1 <= p.month.value <= 12
    ensures DisplayAmount(p, orders).value
            == MonthOrderTotal(orders, p.companyId.value, Date(p.year.value, p.month.value, 1))
    ensures DisplayAmount(p, orders).value >= 0.0
  {
    ValidPaymentPeriod(p, table);
    MonthOrderTotalNonNegative(orders, p.companyId.value, Date(p.year.value, p.month.value, 1));
  }

  // ---------------------------------------------------------------------
  // period_label

  /** String interpolation of a nullable integer: nil renders as "". */
  function Interpolate(x: Option<int>): string
  {
    if x.Some? then IntToString(x.value) else ""
  }

  /** `"#{year}年#{month}月"`. */
  function PeriodLabel(p: Payment): string
  {
    Interpolate(p.year) + "年" + Interpolate(p.month) + "月"
  }

  lemma InterpolateInjective(x: Option<int>, y: Option<int>)
    requires Interpolate(x) == Interpolate(y)
    ensures x == y
  {
    if x.Some? && y.Some? {
      IntToStringInjective(x.value, y.value);
    }
  }

  /** The label names the period: two rows with the same label have the same year and month. */
  lemma PeriodLabelInjective(p: Payment, q: Payment)
    requires PeriodLabel(p) == PeriodLabel(q)
    ensures p.year == q.year && p.month == q.month
  {
    var yp, yq := Interpolate(p.year), Interpolate(q.year);
    var mp, mq := Interpolate(p.month), Interpolate(q.month);
    assert forall i :: 0 <= i < |yp| ==> IsDigit(yp[i]) || yp[i] == '-';
    assert forall i :: 0 <= i < |yq| ==> IsDigit(yq[i]) || yq[i] == '-';
    assert PeriodLabel(p) == yp + ['年'] + (mp + "月");
    assert PeriodLabel(q) == yq + ['年'] + (mq + "月");
    IndexOfAfter(yp, '年', mp + "月");
    IndexOfAfter(yq, '年', mq + "月");
    assert yp == PeriodLabel(p)[..|yp|] == yq;
    InterpolateInjective(p.year, q.year);
    assert mp + "月" == PeriodLabel(p)[|yp| + 1..] == mq + "月";
    assert mp == (mp + "月")[..|mp + "月"| - 1] == mq;
    InterpolateInjective(p.month, q.month);
  }
}
