// The monthly invoice of a billing center: which customers and orders it
// bills, the per-item subtotals it accumulates line by line, and the table
// whose date column names each order once, on its first line.  Page layout,
// fonts and the tax figures are not part of this model.

module InvoiceGenerator {
  import opened Common
  import Customers
  import opened Billing

  /** The customers billed: the given receiving center alone, or else the
    * billing center's active receiving centers and the billing center itself.
    * `customers` is the customers table keyed by id. */
  function InvoiceCustomerIds(billing: Customers.Customer, receiving: Option<Customers.Customer>,
                              customers: map<Id, Customers.Customer>): (r: set<Id>)
    ensures receiving.Some? ==> r == {receiving.value.id}
    ensures receiving.None? ==> billing.id in r
  {
    if receiving.Some? then {receiving.value.id}
    else (set k | k in customers && customers[k].billingCenterId == Some(billing.id) && customers[k].isActive) + {billing.id}
  }

  /** Without a receiving center, a center is billed exactly when it is the
    * billing center or one of its active receiving centers: an inactive center,
    * or one attached to another billing center, is never billed here. */
  lemma InvoiceCustomersAreTheCenters(billing: Customers.Customer, customers: map<Id, Customers.Customer>, k: Id)
    requires k in customers && k != billing.id
    ensures k in InvoiceCustomerIds(billing, None, customers) <==>
              customers[k].billingCenterId == Some(billing.id) && customers[k].isActive
  {
  }

  // ---------------------------------------------------------------------
  // Per-item subtotals (`@item_totals`)

  /** The fallback item name when the line's item is gone. */
  const DeletedItemLabel: string := "削除された商品"

  /** `line.item&.name || deleted_item`. */
  function LineName(l: BilledLine): string
  {
    if l.itemName.Some? then l.itemName.value else DeletedItemLabel
  }

  /** One entry of `@item_totals`, which keeps its keys in insertion order. */
  datatype ItemTotal = ItemTotal(name: string, quantity: int, amount: real)

  /** The position of the entry named `name`, if any. */
  function FindName(ts: seq<ItemTotal>, name: string): (r: Option<nat>)
    ensures r.Some? ==> r.value < |ts| && ts[r.value].name == name
    ensures r.None? ==> forall i :: 0 <= i < |ts| ==> ts[i].name != name
  {
    if ts == [] then None
    else if ts[0].name == name then Some(0)
    else match FindName(ts[1..], name)
      case Some(i) => Some(i + 1)
      case None => None
  }

  /** One step of the loop: `||= {quantity: 0, amount: 0}`, then both sums grow. */
  function AddLine(ts: seq<ItemTotal>, l: BilledLine): seq<ItemTotal>
  {
    var name := LineName(l);
    match FindName(ts, name)
    case Some(i) => ts[i := ItemTotal(name, ts[i].quantity + l.quantity, ts[i].amount + l.amount)]
    case None => ts + [ItemTotal(name, l.quantity, l.amount)]
  }

  /** The lines of the orders, order after order. */
  function AllLines(os: seq<BilledOrder>): seq<BilledLine>
  {
    if os == [] then [] else AllLines(os[..|os| - 1]) + os[|os| - 1].lines
  }

  lemma {:induction false} AllLinesAppend(a: seq<BilledOrder>, b: seq<BilledOrder>)
    ensures AllLines(a + b) == AllLines(a) + AllLines(b)
    decreases |b|
  {
    if b == [] {
      assert a + b == a;
    } else {
      assert (a + b)[..|a + b| - 1] == a + b[..|b| - 1];
      AllLinesAppend(a, b[..|b| - 1]);
    }
  }

  /** The totals after the lines `ls`, in order. */
  function TotalsOf(ls: seq<BilledLine>): seq<ItemTotal>
  {
    if ls == [] then [] else AddLine(TotalsOf(ls[..|ls| - 1]), ls[|ls| - 1])
  }

  lemma TotalsOfSnoc(ls: seq<BilledLine>, l: BilledLine)
    ensures TotalsOf(ls + [l]) == AddLine(TotalsOf(ls), l)
  {
    assert (ls + [l])[..|ls|] == ls;
  }

  lemma AllLinesSnoc(os: seq<BilledOrder>, i: nat)
    requires i < |os|
    ensures AllLines(os[..i + 1]) == AllLines(os[..i]) + os[i].lines
  {
    assert os[..i + 1][..i] == os[..i];
  }

  /** The nested loop over the orders and their lines. */
  method ItemTotals(orders: seq<BilledOrder>) returns (totals: seq<ItemTotal>)
    ensures totals == TotalsOf(AllLines(orders))
  {
    totals := [];
    var i := 0;
    while i < |orders|
      invariant 0 <= i <= |orders|
      invariant totals == TotalsOf(AllLines(orders[..i]))
    {
      totals := AddOrderLines(totals, orders[i].lines);
      TotalsOfAppend(AllLines(orders[..i]), orders[i].lines);
      AllLinesSnoc(orders, i);
      i := i + 1;
    }
    assert orders[..i] == orders;
  }

  /** The lines added one after another to the entries `ts`. */
  function AddLines(ts: seq<ItemTotal>, ls: seq<BilledLine>): seq<ItemTotal>
    decreases |ls|
  {
    if ls == [] then ts else AddLines(AddLine(ts, ls[0]), ls[1..])
  }

  /** Adding more lines continues the totals of the lines seen so far. */
  lemma {:induction false} TotalsOfAppend(seen: seq<BilledLine>, ls: seq<BilledLine>)
    ensures TotalsOf(seen + ls) == AddLines(TotalsOf(seen), ls)
    decreases |ls|
  {
    if ls == [] {
      assert seen + ls == seen;
    } else {
      calc {
        TotalsOf(seen + ls);
        { assert seen + ls == (seen + [ls[0]]) + ls[1..]; }
        TotalsOf((seen + [ls[0]]) + ls[1..]);
        { TotalsOfAppend(seen + [ls[0]], ls[1..]); }
        AddLines(TotalsOf(seen + [ls[0]]), ls[1..]);
        { TotalsOfSnoc(seen, ls[0]); }
        AddLines(TotalsOf(seen), ls);
      }
    }
  }

  /** The inner loop: the lines of one order added to the entries. */
  method AddOrderLines(totals: seq<ItemTotal>, lines: seq<BilledLine>) returns (r: seq<ItemTotal>)
    ensures r == AddLines(totals, lines)
  {
    r := totals;
    var j := 0;
    while j < |lines|
      invariant 0 <= j <= |lines|
      invariant AddLines(r, lines[j..]) == AddLines(totals, lines)
    {
      assert lines[j..][1..] == lines[j + 1..];
      r := AddLine(r, lines[j]);
      j := j + 1;
    }
  }

  /** The quantity of the lines named `name`. */
  function QuantityNamed(ls: seq<BilledLine>, name: string): int
  {
    if ls == [] then 0
    else QuantityNamed(ls[..|ls| - 1], name) + (if LineName(ls[|ls| - 1]) == name then ls[|ls| - 1].quantity else 0)
  }

  /** The amount of the lines named `name`. */
  function AmountNamed(ls: seq<BilledLine>, name: string): real
  {
    if ls == [] then 0.0
    else AmountNamed(ls[..|ls| - 1], name) + (if LineName(ls[|ls| - 1]) == name then ls[|ls| - 1].amount else 0.0)
  }

  /** The amount of all lines. */
  function LinesAmount(ls: seq<BilledLine>): real
  {
    if ls == [] then 0.0 else LinesAmount(ls[..|ls| - 1]) + ls[|ls| - 1].amount
  }

  /** The amount of all entries. */
  function TotalsAmount(ts: seq<ItemTotal>): real
  {
    if ts == [] then 0.0 else TotalsAmount(ts[..|ts| - 1]) + ts[|ts| - 1].amount
  }

  lemma {:induction false} NamedZero(ls: seq<BilledLine>, name: string)
    requires forall k :: 0 <= k < |ls| ==> LineName(ls[k]) != name
    ensures QuantityNamed(ls, name) == 0 && AmountNamed(ls, name) == 0.0
  {
    if ls != [] {
      NamedZero(ls[..|ls| - 1], name);
    }
  }

  /** The entries have distinct names, and an entry exists exactly for the
    * names some line carries. */
  lemma {:induction false} TotalsNames(ls: seq<BilledLine>)
    ensures forall i, j :: 0 <= i < j < |TotalsOf(ls)| ==> TotalsOf(ls)[i].name != TotalsOf(ls)[j].name
    ensures forall name :: FindName(TotalsOf(ls), name).Some? <==> exists k :: 0 <= k < |ls| && LineName(ls[k]) == name
  {
    TotalsDistinct(ls);
    TotalsCoverNames(ls);
  }

  lemma {:induction false} TotalsDistinct(ls: seq<BilledLine>)
    ensures forall i, j :: 0 <= i < j < |TotalsOf(ls)| ==> TotalsOf(ls)[i].name != TotalsOf(ls)[j].name
  {
    if ls != [] {
      TotalsDistinct(ls[..|ls| - 1]);
    }
  }

  lemma TotalsCoverNames(ls: seq<BilledLine>)
    ensures forall name :: FindName(TotalsOf(ls), name).Some? <==> exists k :: 0 <= k < |ls| && LineName(ls[k]) == name
  {
    forall name ensures FindName(TotalsOf(ls), name).Some? ==> exists k :: 0 <= k < |ls| && LineName(ls[k]) == name {
      if FindName(TotalsOf(ls), name).Some? {
        TotalsNamesFromLines(ls, name);
      }
    }
    forall name | exists k :: 0 <= k < |ls| && LineName(ls[k]) == name
      ensures FindName(TotalsOf(ls), name).Some?
    {
      var k :| 0 <= k < |ls| && LineName(ls[k]) == name;
      LineNamesHaveTotals(ls, k);
    }
  }

  /** An entry's name is the name of some line. */
  lemma {:induction false} TotalsNamesFromLines(ls: seq<BilledLine>, name: string)
    requires FindName(TotalsOf(ls), name).Some?
    ensures exists k :: 0 <= k < |ls| && LineName(ls[k]) == name
  {
    var init, l := ls[..|ls| - 1], ls[|ls| - 1];
    if name == LineName(l) {
      assert LineName(ls[|ls| - 1]) == name;
    } else {
      var ts := TotalsOf(init);
      var p := FindName(TotalsOf(ls), name).value;
      assert TotalsOf(ls)[p] == ts[p];
      assert FindName(ts, name).Some?;
      TotalsNamesFromLines(init, name);
      var k :| 0 <= k < |init| && LineName(init[k]) == name;
      assert ls[k] == init[k];
    }
  }

  /** The name of line `k` has an entry. */
  lemma {:induction false} LineNamesHaveTotals(ls: seq<BilledLine>, k: nat)
    requires k < |ls|
    ensures FindName(TotalsOf(ls), LineName(ls[k])).Some?
  {
    var init, l := ls[..|ls| - 1], ls[|ls| - 1];
    var ts := TotalsOf(init);
    var name := LineName(ls[k]);
    if k < |init| {
      assert init[k] == ls[k];
      LineNamesHaveTotals(init, k);
      var p := FindName(ts, name).value;
      assert TotalsOf(ls)[p].name == name;
    } else {
      var q := FindName(ts, LineName(l));
      if q.Some? {
        assert TotalsOf(ls)[q.value].name == name;
      } else {
        assert TotalsOf(ls)[|ts|].name == name;
      }
    }
  }

  /** Each entry holds the quantity and the amount of exactly the lines of its name. */
  lemma {:induction false} TotalsPerName(ls: seq<BilledLine>)
    ensures forall i :: 0 <= i < |TotalsOf(ls)| ==>
              TotalsOf(ls)[i].quantity == QuantityNamed(ls, TotalsOf(ls)[i].name)
              && TotalsOf(ls)[i].amount == AmountNamed(ls, TotalsOf(ls)[i].name)
  {
    if ls != [] {
      var init, l := ls[..|ls| - 1], ls[|ls| - 1];
      var n := LineName(l);
      TotalsPerName(init);
      TotalsNames(init);
      var ts := TotalsOf(init);
      var ts' := TotalsOf(ls);
      match FindName(ts, n)
      case Some(p) =>
        forall i | 0 <= i < |ts'|
          ensures ts'[i].quantity == QuantityNamed(ls, ts'[i].name) && ts'[i].amount == AmountNamed(ls, ts'[i].name)
        {
          if i != p {
            assert ts'[i] == ts[i] && ts[i].name != n;
          }
        }
      case None =>
        assert forall k :: 0 <= k < |init| ==> LineName(init[k]) != n;
        NamedZero(init, n);
        forall i | 0 <= i < |ts'|
          ensures ts'[i].quantity == QuantityNamed(ls, ts'[i].name) && ts'[i].amount == AmountNamed(ls, ts'[i].name)
        {
          if i < |ts| {
            assert ts'[i] == ts[i] && ts[i].name != n;
          }
        }
    }
  }

  lemma {:induction false} TotalsAmountUpdate(ts: seq<ItemTotal>, i: nat, t: ItemTotal)
    requires i < |ts|
    ensures TotalsAmount(ts[i := t]) == TotalsAmount(ts) - ts[i].amount + t.amount
  {
    var n := |ts|;
    if i < n - 1 {
      assert ts[i := t][..n - 1] == ts[..n - 1][i := t];
      TotalsAmountUpdate(ts[..n - 1], i, t);
    } else {
      assert ts[i := t][..n - 1] == ts[..n - 1];
    }
  }

  /** No amount is lost or counted twice: the entries add up to all the lines. */
  lemma {:induction false} TotalsGrandSum(ls: seq<BilledLine>)
    ensures TotalsAmount(TotalsOf(ls)) == LinesAmount(ls)
  {
    if ls != [] {
      var init, l := ls[..|ls| - 1], ls[|ls| - 1];
      TotalsGrandSum(init);
      var ts := TotalsOf(init);
      match FindName(ts, LineName(l))
      case Some(p) =>
        TotalsAmountUpdate(ts, p, ItemTotal(LineName(l), ts[p].quantity + l.quantity, ts[p].amount + l.amount));
      case None =>
        assert (ts + [ItemTotal(LineName(l), l.quantity, l.amount)])[..|ts|] == ts;
    }
  }

  // ---------------------------------------------------------------------
  // The order table

  /** `strftime('%Y/%m/%d')`: the year in at least four digits, month and day in two. */
  function FormatDate(d: Date): (s: string)
    ensures |s| >= 10
  {
    (if d.year < 0 then "-" + PadLeft(NatToString(-d.year), 4, '0') else PadLeft(NatToString(d.year), 4, '0'))
    + "/" + PadLeft(IntToString(d.month), 2, '0') + "/" + PadLeft(IntToString(d.day), 2, '0')
  }

  /** The columns of one table row this model keeps: the date cell, the item
    * name and the amount text. */
  datatype TableRow = TableRow(date: string, itemName: string, amount: string)

  /** The rows of one order: its date on the first line only. */
  function OrderRows(o: BilledOrder): (rs: seq<TableRow>)
    requires o.row.orderDate.Some?
    ensures |rs| == |o.lines|
  {
    seq(|o.lines|, j requires 0 <= j < |o.lines| =>
      TableRow(if j == 0 then FormatDate(o.row.orderDate.value) else "", LineName(o.lines[j]), "¥" + FormatNumber(o.lines[j].amount)))
  }

  predicate AllDated(os: seq<BilledOrder>)
  {
    forall i :: 0 <= i < |os| ==> os[i].row.orderDate.Some?
  }

  function Rows(os: seq<BilledOrder>): (rs: seq<TableRow>)
    requires AllDated(os)
    ensures |rs| == |AllLines(os)|
  {
    if os == [] then [] else Rows(os[..|os| - 1]) + OrderRows(os[|os| - 1])
  }

  lemma {:induction false} RowsAppend(a: seq<BilledOrder>, b: seq<BilledOrder>)
    requires AllDated(a) && AllDated(b)
    ensures AllDated(a + b) && Rows(a + b) == Rows(a) + Rows(b)
    decreases |b|
  {
    assert AllDated(a + b) by {
      forall i | 0 <= i < |a + b| ensures (a + b)[i].row.orderDate.Some? {
        if i >= |a| { assert (a + b)[i] == b[i - |a|]; }
      }
    }
    if b == [] {
      assert a + b == a;
    } else {
      assert (a + b)[..|a + b| - 1] == a + b[..|b| - 1];
      RowsAppend(a, b[..|b| - 1]);
    }
  }

  /** The table's date column names each order once, on the first of its
    * lines: the cell of line `j` of order `i` is the date when `j` is 0 and
    * empty otherwise; each row carries its own line's item name. */
  lemma FirstLineDate(os: seq<BilledOrder>, i: nat, j: nat)
    requires AllDated(os) && i < |os| && j < |os[i].lines|
    ensures |AllLines(os[..i])| + j < |Rows(os)|
    ensures Rows(os)[|AllLines(os[..i])| + j].date == (if j == 0 then FormatDate(os[i].row.orderDate.value) else "")
    ensures Rows(os)[|AllLines(os[..i])| + j].itemName == LineName(os[i].lines[j])
  {
    RowOfLine(os, i, j);
    OrderRowAt(os[i], j);
  }

  /** Line `j` of order `i` has the row after those of the lines before it. */
  lemma RowOfLine(os: seq<BilledOrder>, i: nat, j: nat)
    requires AllDated(os) && i < |os| && j < |os[i].lines|
    ensures |AllLines(os[..i])| + j < |Rows(os)| && Rows(os)[|AllLines(os[..i])| + j] == OrderRows(os[i])[j]
  {
    RowsAt(os, i);
    IndexAfterPrefix(Rows(os), Rows(os[i + 1..]), Rows(os[..i]), OrderRows(os[i]), j);
  }

  /** The rows of the orders before order `i`, its own rows, then the rest. */
  lemma RowsAt(os: seq<BilledOrder>, i: nat)
    requires AllDated(os) && i < |os|
    ensures AllDated(os[..i]) && AllDated(os[i + 1..])
    ensures Rows(os) == (Rows(os[..i]) + OrderRows(os[i])) + Rows(os[i + 1..])
  {
    RowsSnoc(os, i);
    RowsPrefix(os, i + 1);
  }

  lemma OrderRowAt(o: BilledOrder, j: nat)
    requires o.row.orderDate.Some? && j < |o.lines|
    ensures OrderRows(o)[j].date == (if j == 0 then FormatDate(o.row.orderDate.value) else "")
    ensures OrderRows(o)[j].itemName == LineName(o.lines[j])
  {
  }

  /** Position `|pre| + j` of `pre + mid + tail` is position `j` of `mid`. */
  lemma IndexAfterPrefix<T>(whole: seq<T>, tail: seq<T>, pre: seq<T>, mid: seq<T>, j: nat)
    requires whole == (pre + mid) + tail && j < |mid|
    ensures |pre| + j < |whole| && whole[|pre| + j] == mid[j]
  {
    assert whole[|pre| + j] == (pre + mid)[|pre| + j];
  }

  lemma AllDatedTakeDrop(os: seq<BilledOrder>, n: nat)
    requires AllDated(os) && n <= |os|
    ensures AllDated(os[..n]) && AllDated(os[n..])
  {
    var pre, rest := os[..n], os[n..];
    forall t | 0 <= t < |pre| ensures pre[t].row.orderDate.Some? { assert pre[t] == os[t]; }
    forall t | 0 <= t < |rest| ensures rest[t].row.orderDate.Some? { assert rest[t] == os[n + t]; }
  }

  /** The rows of the first `n` orders, then those of the rest. */
  lemma RowsPrefix(os: seq<BilledOrder>, n: nat)
    requires AllDated(os) && n <= |os|
    ensures AllDated(os[..n]) && AllDated(os[n..])
    ensures Rows(os) == Rows(os[..n]) + Rows(os[n..])
  {
    AllDatedTakeDrop(os, n);
    RowsAppend(os[..n], os[n..]);
    assert os[..n] + os[n..] == os;
  }

  /** The rows of the first `i + 1` orders extend those of the first `i`. */
  lemma RowsSnoc(os: seq<BilledOrder>, i: nat)
    requires AllDated(os) && i < |os|
    ensures AllDated(os[..i]) && AllDated(os[..i + 1])
    ensures Rows(os[..i + 1]) == Rows(os[..i]) + OrderRows(os[i])
  {
    AllDatedTakeDrop(os, i);
    AllDatedTakeDrop(os, i + 1);
    assert os[..i + 1][..i] == os[..i];
  }

  /** The loop that fills the table's rows. */
  method TableRows(orders: seq<BilledOrder>) returns (rows: seq<TableRow>)
    requires AllDated(orders)
    ensures rows == Rows(orders)
  {
    rows := [];
    var i := 0;
    while i < |orders|
      invariant 0 <= i <= |orders|
      invariant AllDated(orders[..i]) && rows == Rows(orders[..i])
    {
      var more := OrderTableRows(orders[i]);
      RowsSnoc(orders, i);
      rows := rows + more;
      i := i + 1;
    }
    assert orders[..i] == orders;
  }

  /** The inner loop: one row per line of the order. */
  method OrderTableRows(o: BilledOrder) returns (rows: seq<TableRow>)
    requires o.row.orderDate.Some?
    ensures rows == OrderRows(o)
  {
    rows := [];
    var j := 0;
    while j < |o.lines|
      invariant 0 <= j <= |o.lines|
      invariant rows == OrderRows(o)[..j]
    {
      var date := if j == 0 then FormatDate(o.row.orderDate.value) else "";
      rows := rows + [TableRow(date, LineName(o.lines[j]), "¥" + FormatNumber(o.lines[j].amount))];
      assert OrderRows(o)[..j + 1] == OrderRows(o)[..j] + [OrderRows(o)[j]];
      j := j + 1;
    }
    assert OrderRows(o)[..j] == OrderRows(o);
  }

  // ---------------------------------------------------------------------
  // generate

  /** The figures `generate` prints, before layout. */
  datatype Invoice = Invoice(
    orders: seq<BilledOrder>,
    totalAmount: real,
    itemTotals: seq<ItemTotal>,
    rows: seq<TableRow>,
    closingDate: Date)

  /** `InvoiceGenerator.new(...).generate`: an impossible month raises in the
    * constructor, no billed order gives nil, otherwise the invoice of the
    * billed orders, sorted as `table` is. */
  method Generate(billing: Customers.Customer, receiving: Option<Customers.Customer>, year: int, month: int,
                  customers: map<Id, Customers.Customer>, table: seq<BilledOrder>)
    returns (r: Result<Option<Invoice>, DateError>)
    ensures r.Err? <==> Period(year, month).Err?
    ensures r.Ok? ==>
              var billed := SelectBilled(table, InvoiceCustomerIds(billing, receiving, customers),
                                         Period(year, month).value.0, Period(year, month).value.1);
              (r.value.None? <==> billed == [])
              && (r.value.Some? ==> r.value.value.orders == billed
                                    && r.value.value.totalAmount == SumTotals(billed)
                                    && r.value.value.itemTotals == TotalsOf(AllLines(billed))
                                    && AllDated(billed) && r.value.value.rows == Rows(billed)
                                    && r.value.value.closingDate == Period(year, month).value.1)
  {
    var period := Period(year, month);
    if period.Err? {
      return Err(period.error);
    }
    var (start, stop) := period.value;
    var billed := SelectBilled(table, InvoiceCustomerIds(billing, receiving, customers), start, stop);
    if billed == [] {
      return Ok(None);
    }
    var totals := ItemTotals(billed);
    assert AllDated(billed) by {
      forall i | 0 <= i < |billed| ensures billed[i].row.orderDate.Some? {
        assert Billed(billed[i].row, InvoiceCustomerIds(billing, receiving, customers), start, stop);
      }
    }
    var rows := TableRows(billed);
    r := Ok(Some(Invoice(billed, SumTotals(billed), totals, rows, stop)));
  }
}
