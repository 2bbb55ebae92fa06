// The monthly statement of one center: the customers it covers, and the
// blocks it prints, one per center, each with the subtotal of that center's
// orders.  Layout and the tax figures are not part of this model.

module StatementGenerator {
  import opened Common
  import Customers
  import opened Billing
  import InvoiceGenerator

  /** A billing center covers its active receiving centers and itself; a
    * receiving center only itself. */
  function StatementCustomerIds(c: Customers.Customer, customers: map<Id, Customers.Customer>): (r: set<Id>)
    ensures c.id in r
  {
    if Customers.IsBillingCenter(c) then
      (set k | k in customers && customers[k].billingCenterId == Some(c.id) && customers[k].isActive) + {c.id}
    else {c.id}
  }

  /** The statement covers the same customers as the invoice: a billing
    * center's statement those of its whole invoice, a receiving center's
    * those of its per-center invoice. */
  lemma StatementCoversInvoiceCustomers(c: Customers.Customer, billing: Customers.Customer, customers: map<Id, Customers.Customer>)
    ensures Customers.IsBillingCenter(c) ==>
              StatementCustomerIds(c, customers) == InvoiceGenerator.InvoiceCustomerIds(c, None, customers)
    ensures !Customers.IsBillingCenter(c) ==>
              StatementCustomerIds(c, customers) == InvoiceGenerator.InvoiceCustomerIds(billing, Some(c), customers)
  {
  }

  /** `orders.select { |o| o.customer_id == center.id }`. */
  function CenterOrders(os: seq<BilledOrder>, centerId: Id): (r: seq<BilledOrder>)
    ensures forall o :: o in r <==> o in os && o.row.customerId == Some(centerId)
  {
    if os == [] then []
    else CenterOrders(os[..|os| - 1], centerId)
         + (if os[|os| - 1].row.customerId == Some(centerId) then [os[|os| - 1]] else [])
  }

  /** One printed block: the center, its orders and their subtotal. */
  datatype CenterBlock = CenterBlock(center: Customers.Customer, orders: seq<BilledOrder>, subtotal: real)

  /** The blocks for the centers in printing order (by center code), skipping
    * centers without orders. */
  function BlocksOf(os: seq<BilledOrder>, centers: seq<Customers.Customer>): seq<CenterBlock>
  {
    if centers == [] then []
    else
      var c := centers[|centers| - 1];
      var mine := CenterOrders(os, c.id);
      BlocksOf(os, centers[..|centers| - 1]) + (if mine == [] then [] else [CenterBlock(c, mine, SumTotals(mine))])
  }

  /** The loop over the centers. */
  method CenterBlocks(os: seq<BilledOrder>, centers: seq<Customers.Customer>) returns (blocks: seq<CenterBlock>)
    ensures blocks == BlocksOf(os, centers)
  {
    blocks := [];
    var i := 0;
    while i < |centers|
      invariant 0 <= i <= |centers|
      invariant blocks == BlocksOf(os, centers[..i])
    {
      var center := centers[i];
      var mine := CenterOrders(os, center.id);
      assert centers[..i + 1][..i] == centers[..i];
      if mine != [] {
        blocks := blocks + [CenterBlock(center, mine, SumTotals(mine))];
      }
      i := i + 1;
    }
    assert centers[..i] == centers;
  }

  /** The ids of the centers, in order. */
  function CenterIds(centers: seq<Customers.Customer>): (ids: seq<Id>)
    ensures |ids| == |centers| && forall i :: 0 <= i < |centers| ==> ids[i] == centers[i].id
  {
    seq(|centers|, i requires 0 <= i < |centers| => centers[i].id)
  }

  predicate DistinctIds(ids: seq<Id>)
  {
    forall i, j :: 0 <= i < j < |ids| ==> ids[i] != ids[j]
  }

  /** The blocks are the centers' order lists: each holds exactly the orders
    * of its center, and, the centers being distinct, no order is in two blocks. */
  lemma BlocksAreCenters(os: seq<BilledOrder>, centers: seq<Customers.Customer>)
    ensures forall b :: b in BlocksOf(os, centers) ==>
              b.center in centers && b.orders != []
              && (forall o :: o in b.orders <==> o in os && o.row.customerId == Some(b.center.id))
              && b.subtotal == SumTotals(b.orders)
  {
    if centers != [] {
      BlocksAreCenters(os, centers[..|centers| - 1]);
    }
  }

  /** The sum of the subtotals over centers `ids`. */
  function SubtotalSum(os: seq<BilledOrder>, ids: seq<Id>): real
  {
    if ids == [] then 0.0 else SubtotalSum(os, ids[..|ids| - 1]) + SumTotals(CenterOrders(os, ids[|ids| - 1]))
  }

  /** One more order adds its amount to the subtotal of its own center only. */
  lemma {:induction false} SubtotalSumSnoc(os: seq<BilledOrder>, o: BilledOrder, ids: seq<Id>)
    requires DistinctIds(ids)
    ensures SubtotalSum(os + [o], ids) ==
              SubtotalSum(os, ids) + (if o.row.customerId.Some? && o.row.customerId.value in ids then o.row.totalAmount else 0.0)
  {
    if ids != [] {
      var init, c := ids[..|ids| - 1], ids[|ids| - 1];
      assert DistinctIds(init);
      SubtotalSumSnoc(os, o, init);
      CenterSumSnoc(os, o, c);
      if o.row.customerId == Some(c) {
        assert c !in init;
      }
      assert o.row.customerId.Some? && o.row.customerId.value in ids <==>
               (o.row.customerId.Some? && o.row.customerId.value in init) || o.row.customerId == Some(c);
    }
  }

  /** One more order adds its amount to its own center's sum only. */
  lemma CenterSumSnoc(os: seq<BilledOrder>, o: BilledOrder, c: Id)
    ensures SumTotals(CenterOrders(os + [o], c))
              == SumTotals(CenterOrders(os, c)) + (if o.row.customerId == Some(c) then o.row.totalAmount else 0.0)
  {
    assert (os + [o])[..|os|] == os;
    var mine := CenterOrders(os, c);
    if o.row.customerId == Some(c) {
      assert CenterOrders(os + [o], c) == mine + [o];
      assert (mine + [o])[..|mine|] == mine;
    } else {
      assert CenterOrders(os + [o], c) == mine + [];
      assert mine + [] == mine;
    }
  }

  /** When every order's center is among the distinct `ids`, the subtotals
    * add up to the statement's total: no order is lost or counted twice. */
  lemma {:induction false} SubtotalsAddUp(os: seq<BilledOrder>, ids: seq<Id>)
    requires DistinctIds(ids)
    requires forall o :: o in os ==> o.row.customerId.Some? && o.row.customerId.value in ids
    ensures SubtotalSum(os, ids) == SumTotals(os)
  {
    if os == [] {
      ZeroSubtotals(ids);
    } else {
      var init, o := os[..|os| - 1], os[|os| - 1];
      assert os == init + [o];
      assert forall x :: x in init ==> x in os;
      SubtotalsAddUp(init, ids);
      SubtotalSumSnoc(init, o, ids);
      assert o in os;
      calc {
        SubtotalSum(os, ids);
        SubtotalSum(init + [o], ids);
        SubtotalSum(init, ids) + o.row.totalAmount;
        SumTotals(init) + o.row.totalAmount;
        SumTotals(os);
      }
    }
  }

  lemma {:induction false} ZeroSubtotals(ids: seq<Id>)
    ensures SubtotalSum([], ids) == 0.0
  {
    if ids != [] {
      ZeroSubtotals(ids[..|ids| - 1]);
    }
  }

  /** The printed subtotals. */
  function BlockSum(bs: seq<CenterBlock>): real
  {
    if bs == [] then 0.0 else BlockSum(bs[..|bs| - 1]) + bs[|bs| - 1].subtotal
  }

  lemma {:induction false} BlockSumIsSubtotalSum(os: seq<BilledOrder>, centers: seq<Customers.Customer>)
    ensures BlockSum(BlocksOf(os, centers)) == SubtotalSum(os, CenterIds(centers))
  {
    if centers != [] {
      var init, c := centers[..|centers| - 1], centers[|centers| - 1];
      BlockSumIsSubtotalSum(os, init);
      assert CenterIds(centers)[..|centers| - 1] == CenterIds(init);
      var bs := BlocksOf(os, init);
      var mine := CenterOrders(os, c.id);
      if mine != [] {
        assert (bs + [CenterBlock(c, mine, SumTotals(mine))])[..|bs|] == bs;
      } else {
        assert bs + [] == bs;
      }
    }
  }

  /** The printed center subtotals add up to the statement total when the
    * centers are the distinct centers of the orders. */
  lemma PrintedSubtotalsAddUp(os: seq<BilledOrder>, centers: seq<Customers.Customer>)
    requires DistinctIds(CenterIds(centers))
    requires forall o :: o in os ==> o.row.customerId.Some? && o.row.customerId.value in CenterIds(centers)
    ensures BlockSum(BlocksOf(os, centers)) == SumTotals(os)
  {
    BlockSumIsSubtotalSum(os, centers);
    SubtotalsAddUp(os, CenterIds(centers));
  }

  /** The figures `generate` prints, before layout. */
  datatype Statement = Statement(orders: seq<BilledOrder>, totalAmount: real, blocks: seq<CenterBlock>)

  /** `StatementGenerator.new(customer, year, month).generate`; `centersByCode`
    * are the centers of the billed orders as the database returns them,
    * ordered by center code. */
  method Generate(c: Customers.Customer, year: int, month: int, customers: map<Id, Customers.Customer>,
                  table: seq<BilledOrder>, centersByCode: seq<Customers.Customer>)
    returns (r: Result<Option<Statement>, DateError>)
    ensures r.Err? <==> Period(year, month).Err?
    ensures r.Ok? ==>
              var billed := SelectBilled(table, StatementCustomerIds(c, customers),
                                         Period(year, month).value.0, Period(year, month).value.1);
              (r.value.None? <==> billed == [])
              && (r.value.Some? ==> r.value.value == Statement(billed, SumTotals(billed), BlocksOf(billed, centersByCode)))
  {
    var period := Period(year, month);
    if period.Err? {
      return Err(period.error);
    }
    var (start, stop) := period.value;
    var billed := SelectBilled(table, StatementCustomerIds(c, customers), start, stop);
    if billed == [] {
      return Ok(None);
    }
    var blocks := CenterBlocks(billed, centersByCode);
    r := Ok(Some(Statement(billed, SumTotals(billed), blocks)));
  }
}
