// The dashboard (`DashboardController#index`): the company and center an
// internal admin or a member may narrow the figures to, the order scope that
// follows, the month shown (`?month=YYYY-MM`), that month's figures and the
// twelve monthly chart points of the fiscal year (April to March).
//
// The orders the page reads are a list of `DashOrder`s: the order row with
// the cost columns of its lines.  Every query of the page filters that list;
// sums skip SQL NULLs.

module DashboardController {
  import opened Common
  import UserProfiles
  import Orders
  import Customers
  import OrderLines
  import ApplicationPolicy
  import OrderPolicy
  import CustomerPolicy
  import ApprovalRequests
  import ApprovalRequestPolicy
  import ApplicationController
  import CustomersController

  type Account = UserProfiles.Account

  // ---------------------------------------------------------------------
  // parse_month_param

  /** `parse_month_param`: a blank value is today; otherwise the first two
    * `-`-separated parts read with `to_i` (a missing part reads 0) give the
    * first day of that month when the year is at least 2000 and the month
    * lies in 1..12, and today otherwise.  `Date.new` cannot raise on such a
    * triple, so the `rescue ArgumentError` never applies. */
  function ParseMonthParam(value: Option<string>, today: Date): (r: Date)
    requires ValidDate(today)
    ensures ValidDate(r)
    ensures BlankOpt(value) ==> r == today
    ensures r == today || (r.day == 1 && r.year >= 2000)
  {
    if BlankOpt(value) then today
    else
      var parts := RubySplit(value.value, '-');
      var year := if |parts| > 0 then ToI(parts[0]) else 0;
      var month := if |parts| > 1 then ToI(parts[1]) else 0;
      if year < 2000 || month < 1 || month > 12 then today
      else Date(year, month, 1)
  }

  /** `strftime("%m")`: the month with two digits. */
  function MonthDigits(m: nat): (r: string)
    ensures |r| >= 2 && forall i :: 0 <= i < |r| ==> IsDigit(r[i])
    ensures DigitsValue(r) == m
  {
    var s := NatToString(m);
    NatToStringValue(m);
    if |s| < 2 then
      assert PadLeft(s, 2, '0') == Zeros(2 - |s|) + s;
      LeadingZerosValue(2 - |s|, s);
      PadLeft(s, 2, '0')
    else s
  }

  /** `a-b` splits into exactly `a` and `b`. */
  lemma SplitTwo(a: string, b: string)
    requires '-' !in a && '-' !in b && b != ""
    ensures RubySplit(a + "-" + b, '-') == [a, b]
  {
    PiecesConcat(a, b, '-');
    PiecesWithoutSep(b, '-');
    assert Pieces(a + "-" + b, '-') == [a, b];
  }

  /** The parameter read through its first two parts. */
  lemma ParseOfParts(value: string, today: Date, y: int, m: int)
    requires ValidDate(today)
    requires value != [] && IsDigit(value[0])
    requires |RubySplit(value, '-')| >= 2
    requires ToI(RubySplit(value, '-')[0]) == y && ToI(RubySplit(value, '-')[1]) == m
    ensures ParseMonthParam(Some(value), today) == if y < 2000 || m < 1 || m > 12 then today else Date(y, m, 1)
  {
    assert !IsBlankChar(value[0]);
  }

  /** A year and a month numeral read back as their values. */
  lemma YearAndMonthRead(y: nat, m: nat)
    requires 1 <= m <= 12
    ensures ToI(NatToString(y)) == y && ToI(MonthDigits(m)) == m
  {
    ToIOfNumeral(NatToString(y));
    NatToStringValue(y);
    ToIOfNumeral(MonthDigits(m));
  }

  /** The value the month links write (`strftime("%Y-%m")`) reads back as the
    * first day of that month, for every month the parameter accepts. */
  lemma MonthParamRoundTrip(y: nat, m: nat, today: Date)
    requires ValidDate(today)
    requires y >= 2000 && 1 <= m <= 12
    ensures ParseMonthParam(Some(NatToString(y) + "-" + MonthDigits(m)), today) == Date(y, m, 1)
  {
    var a, b := NatToString(y), MonthDigits(m);
    SplitTwo(a, b);
    YearAndMonthRead(y, m);
    ParseOfParts(a + "-" + b, today, y, m);
  }

  /** What follows the month part (a day, say) is ignored. */
  lemma MonthParamIgnoresRest(y: nat, m: nat, rest: string, today: Date)
    requires ValidDate(today)
    requires y >= 2000 && 1 <= m <= 12
    ensures ParseMonthParam(Some(NatToString(y) + "-" + MonthDigits(m) + "-" + rest), today) == Date(y, m, 1)
  {
    var a, b := NatToString(y), MonthDigits(m);
    var text := a + "-" + b + "-" + rest;
    assert text == a + "-" + (b + "-" + rest);
    PiecesConcat(a, b + "-" + rest, '-');
    PiecesConcat(b, rest, '-');
    var ps := Pieces(text, '-');
    assert ps[0] == a && ps[1] == b;
    var parts := RubySplit(text, '-');
    assert |parts| >= 2;
    assert parts[0] == a && parts[1] == b;
    YearAndMonthRead(y, m);
    ParseOfParts(text, today, y, m);
  }

  /** A year before 2000 falls back to today. */
  lemma EarlyYearFallsBack(y: nat, m: nat, today: Date)
    requires ValidDate(today)
    requires y < 2000 && 1 <= m <= 12
    ensures ParseMonthParam(Some(NatToString(y) + "-" + MonthDigits(m)), today) == today
  {
    var a, b := NatToString(y), MonthDigits(m);
    SplitTwo(a, b);
    YearAndMonthRead(y, m);
    ParseOfParts(a + "-" + b, today, y, m);
  }

  /** A value without a month part (`"2025"`) falls back to today. */
  lemma YearOnlyFallsBack(y: nat, today: Date)
    requires ValidDate(today)
    ensures ParseMonthParam(Some(NatToString(y)), today) == today
  {
    var a := NatToString(y);
    assert a[0] == a[0] && IsDigit(a[0]);
    PiecesWithoutSep(a, '-');
  }

  // ---------------------------------------------------------------------
  // chart_fiscal_year_start and the months of the fiscal year

  /** `chart_fiscal_year_start`: April 1 of the fiscal year holding today. */
  function FiscalYearStart(today: Date): (r: Date)
    requires ValidDate(today)
    ensures ValidDate(r) && r.month == 4 && r.day == 1
    ensures NotAfter(r, today) && Before(today, AddMonths(r, 12))
  {
    Date(if today.month < 4 then today.year - 1 else today.year, 4, 1)
  }

  /** The fiscal year ends on March 31 of the next year. */
  lemma FiscalYearEnd(today: Date)
    requires ValidDate(today)
    ensures var s := FiscalYearStart(today);
            EndOfMonth(AddMonths(s, 11)) == Date(s.year + 1, 3, 31)
  {
  }

  /** The months are counted on one line: year * 12 + month - 1. */
  function MonthIndex(d: Date): int
  {
    d.year * 12 + (d.month - 1)
  }

  lemma StartNotAfter(m: Date, d: Date)
    requires ValidDate(m) && m.day == 1 && ValidDate(d)
    ensures NotAfter(m, d) <==> MonthIndex(m) <= MonthIndex(d)
  {
  }

  lemma NotAfterEnd(d: Date, m: Date)
    requires ValidDate(m) && ValidDate(d)
    ensures NotAfter(d, EndOfMonth(m)) <==> MonthIndex(d) <= MonthIndex(m)
  {
  }

  /** A date lies between the first day of one month and the last day of
    * another exactly when its month lies between the two. */
  lemma InMonths(d: Date, from: Date, to: Date)
    requires ValidDate(d) && ValidDate(from) && from.day == 1 && ValidDate(to)
    ensures InRange(d, from, EndOfMonth(to)) <==> MonthIndex(from) <= MonthIndex(d) <= MonthIndex(to)
  {
    StartNotAfter(from, d);
    NotAfterEnd(d, to);
  }

  // ---------------------------------------------------------------------
  // the rows the dashboard sums

  /** The cost columns of one order line. */
  datatype LineCost = LineCost(costPrice: Option<real>, shippingCost: Option<real>, quantity: Option<int>)

  /** `(COALESCE(cost_price_snapshot, 0) + COALESCE(shipping_cost_snapshot, 0)) * quantity`;
    * a NULL quantity makes the term NULL, which `SUM` skips. */
  function LineCostValue(l: LineCost): real
  {
    if l.quantity.None? then 0.0
    else (OrderLines.OrZero(l.costPrice) + OrderLines.OrZero(l.shippingCost)) * (l.quantity.value as real)
  }

  function LinesCost(ls: seq<LineCost>): real
  {
    if ls == [] then 0.0 else LinesCost(ls[..|ls| - 1]) + LineCostValue(ls[|ls| - 1])
  }

  /** An order as the dashboard reads it: its row and its lines' costs. */
  datatype DashOrder = DashOrder(id: Id, row: Orders.OrderRow, lines: seq<LineCost>)

  /** The date column holds real dates. */
  predicate DatesValid(os: seq<DashOrder>)
  {
    forall i :: 0 <= i < |os| && os[i].row.orderDate.Some? ==> ValidDate(os[i].row.orderDate.value)
  }

  /** What a column sum adds for one order.  `Profit` is not a query of the
    * page; it names revenue less cost per order for the proofs. */
  datatype Measure = Rows | Revenue | Co2 | Cost | Profit

  function Weight(m: Measure, o: DashOrder): real
  {
    match m
    case Rows => 1.0
    case Revenue => o.row.totalAmount
    case Co2 => OrderLines.OrZero(o.row.co2Total)
    case Cost => LinesCost(o.lines)
    case Profit => o.row.totalAmount - LinesCost(o.lines)
  }

  /** `where(order_date: from..to)`. */
  predicate Dated(o: DashOrder, from: Date, to: Date)
  {
    o.row.orderDate.Some? && InRange(o.row.orderDate.value, from, to)
  }

  /** `where(order_date: from..to).sum(...)` for the measure. */
  function Sum(os: seq<DashOrder>, from: Date, to: Date, m: Measure): real
  {
    if os == [] then 0.0
    else Sum(os[..|os| - 1], from, to, m) + (if Dated(os[|os| - 1], from, to) then Weight(m, os[|os| - 1]) else 0.0)
  }

  /** `where(order_date: from..to).count`: the orders a `Rows` sum adds. */
  function Count(os: seq<DashOrder>, from: Date, to: Date): (r: nat)
    ensures r as real == Sum(os, from, to, Rows)
    ensures r <= |os|
  {
    if os == [] then 0
    else Count(os[..|os| - 1], from, to) + (if Dated(os[|os| - 1], from, to) then 1 else 0)
  }

  /** Revenue less cost, summed, is the revenue sum less the cost sum. */
  lemma {:induction false} ProfitIsRevenueLessCost(os: seq<DashOrder>, from: Date, to: Date)
    ensures Sum(os, from, to, Profit) == Sum(os, from, to, Revenue) - Sum(os, from, to, Cost)
  {
    if os != [] {
      ProfitIsRevenueLessCost(os[..|os| - 1], from, to);
    }
  }

  /** The first day of chart month `i`: `start + i.months`. */
  function ChartMonth(start: Date, i: nat): (r: Date)
    requires ValidDate(start) && start.day == 1
    ensures ValidDate(r) && r.day == 1 && MonthIndex(r) == MonthIndex(start) + i
  {
    AddMonths(start, i)
  }

  /** The sum of chart month `i` (`month_start..month_start.end_of_month`). */
  function MonthTotal(os: seq<DashOrder>, start: Date, i: nat, m: Measure): real
    requires ValidDate(start) && start.day == 1
  {
    Sum(os, ChartMonth(start, i), EndOfMonth(ChartMonth(start, i)), m)
  }

  /** The sums of the first `k` chart months added up. */
  function MonthsTotal(os: seq<DashOrder>, start: Date, k: nat, m: Measure): real
    requires ValidDate(start) && start.day == 1
  {
    if k == 0 then 0.0 else MonthsTotal(os, start, k - 1, m) + MonthTotal(os, start, k - 1, m)
  }

  /** Extending the range by one month adds exactly that month's sum: no
    * order is counted in both parts and none is lost. */
  lemma {:induction false} ExtendByMonth(os: seq<DashOrder>, start: Date, k: nat, m: Measure)
    requires ValidDate(start) && start.day == 1 && DatesValid(os)
    ensures Sum(os, start, EndOfMonth(ChartMonth(start, k + 1)), m)
            == Sum(os, start, EndOfMonth(ChartMonth(start, k)), m) + MonthTotal(os, start, k + 1, m)
  {
    if os != [] {
      var init := os[..|os| - 1];
      assert DatesValid(init) by {
        forall i | 0 <= i < |init| && init[i].row.orderDate.Some?
          ensures ValidDate(init[i].row.orderDate.value)
        {
          assert init[i] == os[i];
        }
      }
      ExtendByMonth(init, start, k, m);
      var o := os[|os| - 1];
      if o.row.orderDate.Some? {
        var d := o.row.orderDate.value;
        var mk, mk1 := ChartMonth(start, k), ChartMonth(start, k + 1);
        InMonths(d, start, mk1);
        InMonths(d, start, mk);
        InMonths(d, mk1, mk1);
      }
    }
  }

  /** The twelve (or any number of) monthly sums add up to the sum over the
    * whole stretch of months: the monthly ranges partition it. */
  lemma {:induction false} MonthsPartition(os: seq<DashOrder>, start: Date, k: nat, m: Measure)
    requires ValidDate(start) && start.day == 1 && DatesValid(os)
    requires k >= 1
    ensures MonthsTotal(os, start, k, m) == Sum(os, start, EndOfMonth(ChartMonth(start, k - 1)), m)
  {
    if k == 1 {
      assert ChartMonth(start, 0) == start;
    } else {
      MonthsPartition(os, start, k - 1, m);
      ExtendByMonth(os, start, k - 2, m);
    }
  }

  // ---------------------------------------------------------------------
  // the chart series

  /** The year as `%Y` writes it: at least four digits. */
  function YearDigits(y: int): string
  {
    if y >= 0 then PadLeft(NatToString(y), 4, '0') else IntToString(y)
  }

  /** `strftime("%Y年%m月")`. */
  function MonthLabel(d: Date): string
    requires ValidDate(d)
  {
    YearDigits(d.year) + "年" + MonthDigits(d.month) + "月"
  }

  /** A point of `build_chart_data_by_month`. */
  datatype MemberPoint = MemberPoint(monthLabel: string, ordersCount: nat, totalAmount: real)

  /** A point of the internal admin's `build_chart_data`. */
  datatype AdminPoint = AdminPoint(monthLabel: string, cost: real, profit: real)

  /** A point of `build_co2_chart_data`. */
  datatype Co2Point = Co2Point(monthLabel: string, co2: real)

  function MemberPointOf(os: seq<DashOrder>, start: Date, i: nat): MemberPoint
    requires ValidDate(start) && start.day == 1
  {
    var ms := ChartMonth(start, i);
    MemberPoint(MonthLabel(ms), Count(os, ms, EndOfMonth(ms)), Sum(os, ms, EndOfMonth(ms), Revenue))
  }

  function AdminPointOf(os: seq<DashOrder>, start: Date, i: nat): AdminPoint
    requires ValidDate(start) && start.day == 1
  {
    var ms := ChartMonth(start, i);
    var revenue := Sum(os, ms, EndOfMonth(ms), Revenue);
    var cost := Sum(os, ms, EndOfMonth(ms), Cost);
    AdminPoint(MonthLabel(ms), cost, revenue - cost)
  }

  function Co2PointOf(os: seq<DashOrder>, start: Date, i: nat): Co2Point
    requires ValidDate(start) && start.day == 1
  {
    var ms := ChartMonth(start, i);
    Co2Point(MonthLabel(ms), Sum(os, ms, EndOfMonth(ms), Co2))
  }

  /** The chart a user sees: cost and profit for internal admins, order
    * counts and amounts for everyone else. */
  datatype Chart = AdminChart(adminPoints: seq<AdminPoint>) | MemberChart(memberPoints: seq<MemberPoint>)

  /** `build_chart_data`, twelve points from the fiscal year start. */
  function BuildChartData(admin: bool, os: seq<DashOrder>, start: Date): (r: Chart)
    requires ValidDate(start) && start.day == 1
    ensures r.AdminChart? <==> admin
    ensures r.AdminChart? ==> |r.adminPoints| == 12
    ensures r.MemberChart? ==> |r.memberPoints| == 12
  {
    if admin then AdminChart(seq(12, i requires 0 <= i => AdminPointOf(os, start, i)))
    else MemberChart(seq(12, i requires 0 <= i => MemberPointOf(os, start, i)))
  }

  /** `build_co2_chart_data`. */
  function BuildCo2ChartData(os: seq<DashOrder>, start: Date): (r: seq<Co2Point>)
    requires ValidDate(start) && start.day == 1
    ensures |r| == 12
  {
    seq(12, i requires 0 <= i => Co2PointOf(os, start, i))
  }

  /** A column of the chart added up. */
  function CountColumn(ps: seq<MemberPoint>): nat
  {
    if ps == [] then 0 else CountColumn(ps[..|ps| - 1]) + ps[|ps| - 1].ordersCount
  }

  function AmountColumn(ps: seq<MemberPoint>): real
  {
    if ps == [] then 0.0 else AmountColumn(ps[..|ps| - 1]) + ps[|ps| - 1].totalAmount
  }

  function ProfitColumn(ps: seq<AdminPoint>): real
  {
    if ps == [] then 0.0 else ProfitColumn(ps[..|ps| - 1]) + ps[|ps| - 1].profit
  }

  function Co2Column(ps: seq<Co2Point>): real
  {
    if ps == [] then 0.0 else Co2Column(ps[..|ps| - 1]) + ps[|ps| - 1].co2
  }

  lemma {:induction false} MemberColumns(ps: seq<MemberPoint>, os: seq<DashOrder>, start: Date, k: nat)
    requires ValidDate(start) && start.day == 1 && k <= |ps|
    requires forall i :: 0 <= i < |ps| ==>
               ps[i].ordersCount as real == MonthTotal(os, start, i, Rows) && ps[i].totalAmount == MonthTotal(os, start, i, Revenue)
    ensures CountColumn(ps[..k]) as real == MonthsTotal(os, start, k, Rows)
    ensures AmountColumn(ps[..k]) == MonthsTotal(os, start, k, Revenue)
  {
    if k > 0 {
      MemberColumns(ps, os, start, k - 1);
      assert ps[..k][..k - 1] == ps[..k - 1];
    }
  }

  lemma {:induction false} AdminColumns(ps: seq<AdminPoint>, os: seq<DashOrder>, start: Date, k: nat)
    requires ValidDate(start) && start.day == 1 && k <= |ps|
    requires forall i :: 0 <= i < |ps| ==> ps[i].profit == MonthTotal(os, start, i, Profit)
    ensures ProfitColumn(ps[..k]) == MonthsTotal(os, start, k, Profit)
  {
    if k > 0 {
      AdminColumns(ps, os, start, k - 1);
      assert ps[..k][..k - 1] == ps[..k - 1];
    }
  }

  lemma {:induction false} Co2Columns(ps: seq<Co2Point>, os: seq<DashOrder>, start: Date, k: nat)
    requires ValidDate(start) && start.day == 1 && k <= |ps|
    requires forall i :: 0 <= i < |ps| ==> ps[i].co2 == MonthTotal(os, start, i, Co2)
    ensures Co2Column(ps[..k]) == MonthsTotal(os, start, k, Co2)
  {
    if k > 0 {
      Co2Columns(ps, os, start, k - 1);
      assert ps[..k][..k - 1] == ps[..k - 1];
    }
  }

  /** The last day of the fiscal year that starts on `start`. */
  function FiscalYearLast(start: Date): Date
    requires ValidDate(start) && start.day == 1
  {
    EndOfMonth(ChartMonth(start, 11))
  }

  /** Member chart: the twelve points count every order of the fiscal year
    * once, and their amounts add up to the year's amount. */
  lemma MemberChartCoversYear(os: seq<DashOrder>, start: Date)
    requires ValidDate(start) && start.day == 1 && DatesValid(os)
    ensures var c := BuildChartData(false, os, start);
            CountColumn(c.memberPoints) == Count(os, start, FiscalYearLast(start))
            && AmountColumn(c.memberPoints) == Sum(os, start, FiscalYearLast(start), Revenue)
  {
    var ps := BuildChartData(false, os, start).memberPoints;
    forall i | 0 <= i < |ps|
      ensures ps[i].ordersCount as real == MonthTotal(os, start, i, Rows) && ps[i].totalAmount == MonthTotal(os, start, i, Revenue)
    {
      assert ps[i] == MemberPointOf(os, start, i);
    }
    MemberColumns(ps, os, start, 12);
    assert ps[..12] == ps;
    MonthsPartition(os, start, 12, Rows);
    MonthsPartition(os, start, 12, Revenue);
  }

  /** Admin chart: the twelve monthly profits add up to the year's revenue
    * less the year's cost. */
  lemma AdminChartCoversYear(os: seq<DashOrder>, start: Date)
    requires ValidDate(start) && start.day == 1 && DatesValid(os)
    ensures ProfitColumn(BuildChartData(true, os, start).adminPoints)
            == Sum(os, start, FiscalYearLast(start), Revenue) - Sum(os, start, FiscalYearLast(start), Cost)
  {
    var ps := BuildChartData(true, os, start).adminPoints;
    forall i | 0 <= i < |ps|
      ensures ps[i].profit == MonthTotal(os, start, i, Profit)
    {
      assert ps[i] == AdminPointOf(os, start, i);
      var ms := ChartMonth(start, i);
      ProfitIsRevenueLessCost(os, ms, EndOfMonth(ms));
    }
    AdminColumns(ps, os, start, 12);
    assert ps[..12] == ps;
    MonthsPartition(os, start, 12, Profit);
    ProfitIsRevenueLessCost(os, start, FiscalYearLast(start));
  }

  /** CO2 chart: the twelve points add up to the year's CO2. */
  lemma Co2ChartCoversYear(os: seq<DashOrder>, start: Date)
    requires ValidDate(start) && start.day == 1 && DatesValid(os)
    ensures Co2Column(BuildCo2ChartData(os, start)) == Sum(os, start, FiscalYearLast(start), Co2)
  {
    var ps := BuildCo2ChartData(os, start);
    forall i | 0 <= i < |ps|
      ensures ps[i].co2 == MonthTotal(os, start, i, Co2)
    {
      assert ps[i] == Co2PointOf(os, start, i);
    }
    Co2Columns(ps, os, start, 12);
    assert ps[..12] == ps;
    MonthsPartition(os, start, 12, Co2);
  }

  // ---------------------------------------------------------------------
  // company and center selection, order_scope

  /** The request parameters the page reads. */
  datatype DashParams = DashParams(companyId: Option<string>, centerId: Option<string>, month: Option<string>)

  /** `@selected_company` and `@selected_center` (their ids). */
  datatype Selection = Selection(company: Option<Id>, center: Option<Id>)

  /** `find_by(id: value)` over the ids of a relation: nil for a nil or
    * non-numeric value and for an id outside it. */
  function FindId(value: Option<string>, ids: set<Id>): (r: Option<Id>)
    ensures r.Some? ==> r.value in ids
    ensures r.Some? ==> value.Some? && CustomersController.CastId(value.value) == r
  {
    if value.None? then None
    else
      var k := CustomersController.CastId(value.value);
      if k.Some? && k.value in ids then k else None
  }

  /** `Customer.for_company(company)`. */
  function CentersOf(customers: map<Id, Customers.Customer>, company: Id): set<Id>
  {
    set k | k in customers && customers[k].companyId == Some(company)
  }

  /** The selection at the top of `index`: an internal admin picks among the
    * active companies, then among that company's centers; anyone else picks
    * only a center, among the centers of `policy_scope(Customer)`. */
  function Select(u: Account, p: DashParams, activeCompanies: set<Id>,
                  customers: map<Id, Customers.Customer>, companyIds: set<Id>): (r: Selection)
    ensures r.company.Some? ==> ApplicationPolicy.InternalAdmin(u) && r.company.value in activeCompanies
    ensures ApplicationPolicy.InternalAdmin(u) && r.center.Some? ==>
              r.company.Some? && r.center.value in customers && customers[r.center.value].companyId == r.company
    ensures !ApplicationPolicy.InternalAdmin(u) && r.center.Some? ==>
              r.center.value in CustomerPolicy.CustomerScope(u, customers, companyIds)
  {
    if ApplicationPolicy.InternalAdmin(u) then
      var company := FindId(p.companyId, activeCompanies);
      if company.Some? then Selection(company, FindId(p.centerId, CentersOf(customers, company.value)))
      else Selection(None, None)
    else
      var center := if !BlankOpt(p.centerId)
                    then FindId(p.centerId, CustomerPolicy.CustomerScope(u, customers, companyIds).Keys)
                    else None;
      Selection(None, center)
  }

  /** A member's centers are their own company's, so a member can never
    * select another company's center. */
  lemma MemberSelectsOwnCenter(u: Account, p: DashParams, activeCompanies: set<Id>,
                               customers: map<Id, Customers.Customer>, companyIds: set<Id>)
    requires !ApplicationPolicy.InternalAdmin(u)
    ensures var sel := Select(u, p, activeCompanies, customers, companyIds);
            sel.company.None?
            && (sel.center.Some? ==> ApplicationPolicy.ActiveUser(u)
                                     && customers[sel.center.value].companyId == ApplicationPolicy.CurrentCompanyId(u, companyIds))
  {
  }

  /** A row of `policy_scope(Order)`. */
  predicate PolicyAdmits(u: Account, row: Orders.OrderRow, companyIds: set<Id>)
  {
    ApplicationPolicy.ActiveUser(u)
    && (ApplicationPolicy.InternalAdmin(u) || row.companyId == ApplicationPolicy.CurrentCompanyId(u, companyIds))
  }

  /** The row test is the policy scope, row by row. */
  lemma PolicyAdmitsMatchesScope(u: Account, table: map<Id, Orders.OrderRow>, companyIds: set<Id>)
    ensures forall k :: k in table ==>
              (k in OrderPolicy.OrderScope(u, table, companyIds) <==> PolicyAdmits(u, table[k], companyIds))
  {
  }

  /** The narrowing `order_scope` adds to the policy scope. */
  predicate SelectionAdmits(sel: Selection, row: Orders.OrderRow)
  {
    (sel.company.None? || row.companyId == sel.company)
    && (sel.center.None? || row.customerId == sel.center)
  }

  /** `order_scope`: the policy scope narrowed to the selected company and
    * center. */
  function OrderScope(u: Account, sel: Selection, os: seq<DashOrder>, companyIds: set<Id>): (r: seq<DashOrder>)
    ensures |r| <= |os|
    ensures forall i :: 0 <= i < |r| ==> r[i] in os
    ensures forall i :: 0 <= i < |r| ==> PolicyAdmits(u, r[i].row, companyIds) && SelectionAdmits(sel, r[i].row)
  {
    if os == [] then []
    else
      var init := OrderScope(u, sel, os[..|os| - 1], companyIds);
      var o := os[|os| - 1];
      if PolicyAdmits(u, o.row, companyIds) && SelectionAdmits(sel, o.row) then init + [o] else init
  }

  /** Conversely, every admitted order of the table is in the scope. */
  lemma {:induction false} OrderScopeComplete(u: Account, sel: Selection, os: seq<DashOrder>, companyIds: set<Id>)
    ensures forall i :: 0 <= i < |os| && PolicyAdmits(u, os[i].row, companyIds) && SelectionAdmits(sel, os[i].row) ==>
              os[i] in OrderScope(u, sel, os, companyIds)
  {
    if os != [] {
      OrderScopeComplete(u, sel, os[..|os| - 1], companyIds);
      forall i | 0 <= i < |os| - 1
        ensures os[i] == os[..|os| - 1][i]
      {
      }
    }
  }

  /** A member's dashboard shows only their own company's orders, and only
    * the selected center's once one is selected. */
  lemma MemberScopeIsolated(u: Account, p: DashParams, activeCompanies: set<Id>,
                            customers: map<Id, Customers.Customer>, os: seq<DashOrder>, companyIds: set<Id>)
    requires !ApplicationPolicy.InternalAdmin(u)
    ensures var sel := Select(u, p, activeCompanies, customers, companyIds);
            var scope := OrderScope(u, sel, os, companyIds);
            forall i :: 0 <= i < |scope| ==>
              scope[i].row.companyId == ApplicationPolicy.CurrentCompanyId(u, companyIds)
              && (sel.center.Some? ==> scope[i].row.customerId == sel.center)
  {
  }

  // ---------------------------------------------------------------------
  // index

  /** The figures of the month shown. */
  datatype MonthFigures = MonthFigures(
    ordersCount: nat,
    totalAmount: real,
    cost: Option<real>,
    profit: Option<real>,
    co2Reduced: real)

  /** `@orders_in_month`, `@total_amount_in_month`, the admin's
    * `@cost_total_in_month` and `@profit_in_month`, and `@co2_reduced_kg`. */
  function MonthFiguresOf(admin: bool, scope: seq<DashOrder>, month: Date): (r: MonthFigures)
    requires ValidDate(month)
    ensures r.cost.Some? <==> admin
    ensures r.profit.Some? <==> admin
  {
    var from, to := BeginningOfMonth(month), EndOfMonth(month);
    var revenue := Sum(scope, from, to, Revenue);
    var cost := Sum(scope, from, to, Cost);
    MonthFigures(Count(scope, from, to), revenue,
                 if admin then Some(cost) else None,
                 if admin then Some(revenue - cost) else None,
                 Sum(scope, from, to, Co2))
  }

  /** When the month shown lies in the current fiscal year, its figures are
    * the chart's point for that month. */
  lemma FiguresMatchChart(os: seq<DashOrder>, start: Date, i: nat)
    requires ValidDate(start) && start.day == 1 && i < 12
    ensures var f := MonthFiguresOf(false, os, ChartMonth(start, i));
            var c := BuildChartData(false, os, start);
            f.ordersCount == c.memberPoints[i].ordersCount && f.totalAmount == c.memberPoints[i].totalAmount
            && f.co2Reduced == BuildCo2ChartData(os, start)[i].co2
    ensures var f := MonthFiguresOf(true, os, ChartMonth(start, i));
            var c := BuildChartData(true, os, start);
            f.cost == Some(c.adminPoints[i].cost) && f.profit == Some(c.adminPoints[i].profit)
  {
  }

  /** What `index` assigns. */
  datatype Dashboard = Dashboard(
    selection: Selection,
    pendingApprovals: nat,
    month: Date,
    figures: MonthFigures,
    chart: Chart,
    co2Chart: seq<Co2Point>)

  /** `index` for a signed-in user, on `today`.  A user without a profile
    * gets past `check_member_status` but not line 24, which calls
    * `can_approve_members?` on nil: `None` is that error page. */
  function Index(u: Account, p: DashParams, today: Date, activeCompanies: set<Id>,
                 customers: map<Id, Customers.Customer>, requests: map<Id, ApprovalRequests.RequestRow>,
                 os: seq<DashOrder>, companyIds: set<Id>): (r: Option<Dashboard>)
    requires ValidDate(today)
    ensures r.Some? <==> u.profile.Some?
    ensures r.Some? ==> (r.value.chart.AdminChart? <==> ApplicationPolicy.InternalAdmin(u))
    ensures r.Some? && !UserProfiles.CanApproveMembers(u.profile.value) ==> r.value.pendingApprovals == 0
    ensures r.Some? ==> ValidDate(r.value.month) && NotAfter(FiscalYearStart(today), today)
  {
    if u.profile.None? then None
    else
      var sel := Select(u, p, activeCompanies, customers, companyIds);
      var scope := OrderScope(u, sel, os, companyIds);
      var pending := if UserProfiles.CanApproveMembers(u.profile.value)
                     then |ApplicationController.PendingRequests(ApprovalRequestPolicy.RequestScope(u, requests, companyIds))|
                     else 0;
      var month := ParseMonthParam(p.month, today);
      var start := FiscalYearStart(today);
      var admin := ApplicationPolicy.InternalAdmin(u);
      Some(Dashboard(sel, pending, month, MonthFiguresOf(admin, scope, month),
                     BuildChartData(admin, scope, start), BuildCo2ChartData(scope, start)))
  }
}
