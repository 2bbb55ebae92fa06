// What the invoice and the statement share: the billing period of a month,
// the choice of the orders billed in it, and `format_number`, the integer
// rendering with thousands separators both documents print amounts with.

module Billing {
  import opened Common
  import Orders

  // ---------------------------------------------------------------------
  // Billed orders

  /** One order line as the documents read it: the item's name (`None` when
    * the item or its name is missing), the quantity and the amount. */
  datatype BilledLine = BilledLine(itemName: Option<string>, quantity: int, amount: real)

  /** An order with its lines, in line order. */
  datatype BilledOrder = BilledOrder(row: Orders.OrderRow, lines: seq<BilledLine>)

  /** The period `Date.new(year, month, 1) .. end_of_month`. */
  function Period(year: int, month: int): (r: Result<(Date, Date), DateError>)
    ensures r.Ok? <==> MonthStart(Some(year), Some(month)).Ok?
    ensures r.Ok? ==> ValidDate(r.value.0) && ValidDate(r.value.1) && r.value.0.day == 1
    ensures r.Ok? ==> r.value.1 == EndOfMonth(r.value.0)
    ensures 1 <= month <= 12 ==> r.Ok? && r.value.0 == Date(year, month, 1)
  {
    match MonthStart(Some(year), Some(month))
    case Ok(start) => Ok((start, EndOfMonth(start)))
    case Err(e) => Err(e)
  }

  /** The period holds exactly the valid dates of its month. */
  lemma PeriodIsTheMonth(year: int, month: int, d: Date)
    requires Period(year, month).Ok? && ValidDate(d)
    ensures var (start, stop) := Period(year, month).value;
            InRange(d, start, stop) <==> d.year == start.year && d.month == start.month
  {
    var (start, stop) := Period(year, month).value;
    if InRange(d, start, stop) {
      assert NotAfter(start, d) && NotAfter(d, stop);
    }
  }

  /** The orders both documents bill: of one of the customers, dated within
    * the period, and shipped or delivered. */
  predicate Billed(o: Orders.OrderRow, customerIds: set<Id>, start: Date, stop: Date)
  {
    o.customerId.Some? && o.customerId.value in customerIds
    && o.orderDate.Some? && InRange(o.orderDate.value, start, stop)
    && (o.status == Orders.Shipped || o.status == Orders.Delivered)
  }

  /** The billed orders, in the order of `table` (which the database supplies
    * sorted by order date and order number). */
  function SelectBilled(table: seq<BilledOrder>, customerIds: set<Id>, start: Date, stop: Date): (r: seq<BilledOrder>)
    ensures |r| <= |table|
    ensures forall i :: 0 <= i < |r| ==> r[i] in table && Billed(r[i].row, customerIds, start, stop)
    ensures forall o :: o in table && Billed(o.row, customerIds, start, stop) ==> o in r
  {
    if table == [] then []
    else
      var rest := SelectBilled(table[1..], customerIds, start, stop);
      if Billed(table[0].row, customerIds, start, stop) then [table[0]] + rest else rest
  }

  /** `s` is ordered by `le` (every earlier element `le` every later one). */
  predicate SortedBy<T>(s: seq<T>, le: (T, T) -> bool)
  {
    forall i, j :: 0 <= i < j < |s| ==> le(s[i], s[j])
  }

  /** Selection keeps the order of the table: sorted rows stay sorted. */
  lemma {:induction false} SelectBilledKeepsOrder(table: seq<BilledOrder>, customerIds: set<Id>, start: Date, stop: Date,
                                                  le: (BilledOrder, BilledOrder) -> bool)
    requires SortedBy(table, le)
    ensures SortedBy(SelectBilled(table, customerIds, start, stop), le)
  {
    if table != [] {
      SortedTail(table, le);
      SelectBilledKeepsOrder(table[1..], customerIds, start, stop, le);
      var rest := SelectBilled(table[1..], customerIds, start, stop);
      forall k | 0 <= k < |rest| ensures le(table[0], rest[k]) {
        var j :| 0 <= j < |table[1..]| && table[1..][j] == rest[k];
        assert table[j + 1] == rest[k];
      }
      SortedCons(table[0], rest, le);
    }
  }

  lemma SortedTail<T>(s: seq<T>, le: (T, T) -> bool)
    requires SortedBy(s, le) && s != []
    ensures SortedBy(s[1..], le)
  {
    forall i, j | 0 <= i < j < |s[1..]| ensures le(s[1..][i], s[1..][j]) {
      assert s[1..][i] == s[i + 1] && s[1..][j] == s[j + 1];
    }
  }

  lemma SortedCons<T>(x: T, s: seq<T>, le: (T, T) -> bool)
    requires SortedBy(s, le) && forall k :: 0 <= k < |s| ==> le(x, s[k])
    ensures SortedBy([x] + s, le)
  {
    forall i, j | 0 <= i < j < |[x] + s| ensures le(([x] + s)[i], ([x] + s)[j]) {
      assert ([x] + s)[j] == s[j - 1];
      if i > 0 {
        assert ([x] + s)[i] == s[i - 1];
      }
    }
  }

  /** `sum(&:total_amount)`. */
  function SumTotals(os: seq<BilledOrder>): real
  {
    if os == [] then 0.0 else SumTotals(os[..|os| - 1]) + os[|os| - 1].row.totalAmount
  }

  lemma {:induction false} SumTotalsAppend(a: seq<BilledOrder>, b: seq<BilledOrder>)
    ensures SumTotals(a + b) == SumTotals(a) + SumTotals(b)
    decreases |b|
  {
    if b == [] {
      assert a + b == a;
    } else {
      assert (a + b)[..|a + b| - 1] == a + b[..|b| - 1];
      SumTotalsAppend(a, b[..|b| - 1]);
    }
  }

  // ---------------------------------------------------------------------
  // format_number

  /** `to_i` on a decimal: truncation toward zero. */
  function Truncate(x: real): (n: int)
    ensures x >= 0.0 ==> n >= 0 && n as real <= x < n as real + 1.0
    ensures x < 0.0 ==> n <= 0 && n as real - 1.0 < x <= n as real
  {
    if x >= 0.0 then x.Floor else -((-x).Floor)
  }

  /** A ',' before every group of three digits counted from the right. */
  function Group(digits: string): string
    decreases |digits|
  {
    if |digits| <= 3 then digits
    else Group(digits[..|digits| - 3]) + "," + digits[|digits| - 3..]
  }

  /** `n.to_s.reverse.gsub(/(\d{3})(?=\d)/, '\1,').reverse`: the sign stays in front. */
  function FormatInt(n: int): string
  {
    if n < 0 then "-" + Group(NatToString(-n)) else Group(NatToString(n))
  }

  /** `format_number`. */
  function FormatNumber(x: real): string
  {
    FormatInt(Truncate(x))
  }

  /** The string without its commas. */
  function RemoveCommas(s: string): (r: string)
    ensures ',' !in r
  {
    if s == [] then [] else (if s[0] == ',' then [] else [s[0]]) + RemoveCommas(s[1..])
  }

  lemma {:induction false} RemoveCommasAppend(a: string, b: string)
    ensures RemoveCommas(a + b) == RemoveCommas(a) + RemoveCommas(b)
  {
    if a != [] {
      assert (a + b)[1..] == a[1..] + b;
      RemoveCommasAppend(a[1..], b);
    } else {
      assert a + b == b;
    }
  }

  lemma {:induction false} RemoveCommasNone(s: string)
    requires ',' !in s
    ensures RemoveCommas(s) == s
  {
    if s != [] {
      RemoveCommasNone(s[1..]);
    }
  }

  /** Grouping only inserts commas: removing them gives the digits back. */
  lemma {:induction false} GroupRemoveCommas(d: string)
    requires ',' !in d
    ensures RemoveCommas(Group(d)) == d
    decreases |d|
  {
    if |d| <= 3 {
      RemoveCommasNone(d);
    } else {
      var p, t := d[..|d| - 3], d[|d| - 3..];
      assert d == p + t;
      assert ',' !in p && ',' !in t by {
        forall i | 0 <= i < |p| ensures p[i] != ',' { assert p[i] == d[i]; }
        forall i | 0 <= i < |t| ensures t[i] != ',' { assert t[i] == d[|p| + i]; }
      }
      GroupRemoveCommas(p);
      var g := Group(p);
      assert Group(d) == g + ([','] + t);
      var ct := [','] + t;
      RemoveCommasAppend(g, ct);
      assert ct[1..] == t;
      RemoveCommasNone(t);
      assert RemoveCommas(ct) == t;
    }
  }

  /** One comma per full group of three beyond the first digit. */
  lemma {:induction false} GroupLength(d: string)
    ensures |d| >= 1 ==> |Group(d)| == |d| + (|d| - 1) / 3
    decreases |d|
  {
    if |d| > 3 {
      GroupLength(d[..|d| - 3]);
    }
  }

  /** The commas sit exactly every fourth place from the right. */
  lemma {:induction false} GroupCommaPlaces(d: string)
    requires ',' !in d
    ensures forall i :: 0 <= i < |Group(d)| ==> (Group(d)[i] == ',' <==> (|Group(d)| - i) % 4 == 0)
    decreases |d|
  {
    if |d| > 3 {
      var p, t := d[..|d| - 3], d[|d| - 3..];
      assert ',' !in p by {
        forall i | 0 <= i < |p| ensures p[i] != ',' { assert p[i] == d[i]; }
      }
      GroupCommaPlaces(p);
      var g := Group(p);
      var r := Group(d);
      assert r == g + "," + t;
      forall i | 0 <= i < |r| ensures r[i] == ',' <==> (|r| - i) % 4 == 0 {
        if i < |g| {
          assert r[i] == g[i];
          assert |r| - i == (|g| - i) + 4;
        } else if i > |g| {
          assert r[i] == t[i - |g| - 1] == d[|p| + i - |g| - 1];
          assert 1 <= |r| - i <= 3;
        }
      }
    }
  }

  /** Removing the separators from `format_number` gives `number.to_i.to_s`. */
  lemma FormatNumberRoundTrip(x: real)
    ensures RemoveCommas(FormatNumber(x)) == IntToString(Truncate(x))
  {
    var n := Truncate(x);
    var digits := if n < 0 then NatToString(-n) else NatToString(n);
    assert ',' !in digits by {
      forall i | 0 <= i < |digits| ensures digits[i] != ',' {
        assert IsDigit(digits[i]);
      }
    }
    GroupRemoveCommas(digits);
    if n < 0 {
      RemoveCommasAppend("-", Group(digits));
    }
  }

  /** Two amounts print alike exactly when they truncate to the same integer. */
  lemma FormatNumberInjective(x: real, y: real)
    ensures FormatNumber(x) == FormatNumber(y) <==> Truncate(x) == Truncate(y)
  {
    if FormatNumber(x) == FormatNumber(y) {
      FormatNumberRoundTrip(x);
      FormatNumberRoundTrip(y);
      IntToStringInjective(Truncate(x), Truncate(y));
    }
  }
}
