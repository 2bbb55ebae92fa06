// One line of an order.  Before validation the line prices itself from its
// item: the unit-price snapshot is taken once and kept, the cost snapshots
// are re-copied, and amount and CO2 follow from the quantity.

module OrderLines {
  import opened Common
  import opened MultiTenant
  import Items

  /** The price columns `calculate_amounts` writes. */
  datatype LineAmounts = LineAmounts(
    unitPriceSnapshot: Option<real>,
    costPriceSnapshot: Option<real>,
    shippingCostSnapshot: Option<real>,
    amount: Option<real>,
    co2Amount: Option<real>)

  /** `x.to_d` on a nullable decimal: nil reads as zero. */
  function OrZero(x: Option<real>): real
  {
    if x.Some? then x.value else 0.0
  }

  /** `price * quantity` on decimals. */
  function Times(price: real, qty: int): real
  {
    price * (qty as real)
  }

  /** The unit price a calculation uses: the existing snapshot, else the item's price (`||=`). */
  function SnapshotFor(a: LineAmounts, item: Items.Item): Option<real>
  {
    if a.unitPriceSnapshot.Some? then a.unitPriceSnapshot else item.unitPrice
  }

  /** The columns after `calculate_amounts` with an item and a quantity.  `None`
    * when no unit price is available, where the multiplication raises. */
  function Calculate(a: LineAmounts, item: Items.Item, qty: int): (r: Option<LineAmounts>)
    ensures r.Some? <==> SnapshotFor(a, item).Some?
    ensures r.Some? ==> r.value.unitPriceSnapshot == SnapshotFor(a, item)
    ensures r.Some? ==> r.value.amount == Some(Times(r.value.unitPriceSnapshot.value, qty))
    ensures r.Some? ==> r.value.co2Amount == Some(Times(OrZero(item.co2PerUnit), qty))
    ensures r.Some? ==> r.value.costPriceSnapshot == Some(OrZero(item.costPrice))
                        && r.value.shippingCostSnapshot == Some(OrZero(item.shippingCost))
  {
    match SnapshotFor(a, item)
    case None => None
    case Some(p) =>
      Some(LineAmounts(Some(p), Some(OrZero(item.costPrice)), Some(OrZero(item.shippingCost)),
                       Some(Times(p, qty)), Some(Times(OrZero(item.co2PerUnit), qty))))
  }

  /** An existing snapshot is never overwritten, even when the item's price has changed. */
  lemma SnapshotKept(a: LineAmounts, item: Items.Item, qty: int)
    requires a.unitPriceSnapshot.Some?
    ensures Calculate(a, item, qty).Some?
    ensures Calculate(a, item, qty).value.unitPriceSnapshot == a.unitPriceSnapshot
    ensures Calculate(a, item, qty).value.amount == Some(Times(a.unitPriceSnapshot.value, qty))
  {
  }

  /** Recalculating with the same item and quantity changes nothing. */
  lemma CalculateIdempotent(a: LineAmounts, item: Items.Item, qty: int)
    requires Calculate(a, item, qty).Some?
    ensures Calculate(Calculate(a, item, qty).value, item, qty) == Calculate(a, item, qty)
  {
  }

  /** A calculated line of a positive quantity from a valid item meets the numeric rules. */
  lemma CalculatedAmountsNonNegative(a: LineAmounts, item: Items.Item, qty: int, items: map<Id, Items.Item>)
    requires Items.ItemValid(item, items) && qty > 0
    requires a.unitPriceSnapshot.None? || a.unitPriceSnapshot.value >= 0.0
    ensures Calculate(a, item, qty).Some?
    ensures Calculate(a, item, qty).value.amount.value >= 0.0
    ensures Calculate(a, item, qty).value.co2Amount.value >= 0.0
  {
    Items.ValidItemPrices(item, items);
  }

  /** `should_calculate?`. */
  predicate ShouldCalculate(quantityChanged: bool, itemChanged: bool, newRecord: bool)
  {
    quantityChanged || itemChanged || newRecord
  }

  datatype LineError =
    | CompanyIdBlank
    | QuantityBlank | QuantityNotPositive
    | SnapshotBlank | SnapshotNegative
    | AmountBlank | AmountNegative
    | Co2Negative
    | ItemOtherCompany

  const AllLineErrors: seq<LineError> := [
    CompanyIdBlank, QuantityBlank, QuantityNotPositive, SnapshotBlank, SnapshotNegative,
    AmountBlank, AmountNegative, Co2Negative, ItemOtherCompany]

  /** Whether the rule behind error `e` fires for a line with these columns;
    * `item` is the row `item_id` refers to. */
  predicate LineViolates(e: LineError, companyId: Option<Id>, quantity: Option<int>, a: LineAmounts, item: Option<Items.Item>)
  {
    match e
    case CompanyIdBlank => !CompanyIdPresent(companyId)
    case QuantityBlank => quantity.None?
    case QuantityNotPositive => quantity.Some? && quantity.value <= 0
    case SnapshotBlank => a.unitPriceSnapshot.None?
    case SnapshotNegative => a.unitPriceSnapshot.Some? && a.unitPriceSnapshot.value < 0.0
    case AmountBlank => a.amount.None?
    case AmountNegative => a.amount.Some? && a.amount.value < 0.0
    case Co2Negative => a.co2Amount.Some? && a.co2Amount.value < 0.0
    case ItemOtherCompany => item.Some? && companyId.Some? && item.value.companyId != companyId
  }

  /** The errors `valid?` collects for a line with these columns. */
  function LineErrors(companyId: Option<Id>, quantity: Option<int>, a: LineAmounts, item: Option<Items.Item>): (r: set<LineError>)
    ensures forall e :: e in r <==> LineViolates(e, companyId, quantity, a, item)
  {
    set e | e in AllLineErrors && LineViolates(e, companyId, quantity, a, item)
  }

  /** A line of a valid item of its own company, with a positive quantity and
    * amounts from `Calculate`, has no errors. */
  lemma CalculatedLineValid(companyId: Id, qty: int, a: LineAmounts, item: Items.Item, items: map<Id, Items.Item>)
    requires Items.ItemValid(item, items) && item.companyId == Some(companyId) && qty > 0
    requires a.unitPriceSnapshot.None? || a.unitPriceSnapshot.value >= 0.0
    ensures Calculate(a, item, qty).Some?
    ensures LineErrors(Some(companyId), Some(qty), Calculate(a, item, qty).value, Some(item)) == {}
  {
    CalculatedAmountsNonNegative(a, item, qty, items);
    var r := Calculate(a, item, qty).value;
    forall e ensures !LineViolates(e, Some(companyId), Some(qty), r, Some(item)) {
    }
  }

  class OrderLine {
    const id: Id
    const orderId: Id
    var companyId: Option<Id>
    var itemId: Option<Id>
    var quantity: Option<int>
    var unitPriceSnapshot: Option<real>
    var costPriceSnapshot: Option<real>
    var shippingCostSnapshot: Option<real>
    var amount: Option<real>
    var co2Amount: Option<real>
    var shippingCarrier: Option<string>
    var trackingNo: Option<string>
    var shipDate: Option<Date>

    constructor (id: Id, orderId: Id, companyId: Option<Id>, itemId: Option<Id>, quantity: Option<int>, a: LineAmounts)
      ensures this.id == id && this.orderId == orderId && this.companyId == companyId
      ensures this.itemId == itemId && this.quantity == quantity && Amounts() == a
      ensures shippingCarrier.None? && trackingNo.None? && shipDate.None?
    {
      this.id := id;
      this.orderId := orderId;
      this.companyId := companyId;
      this.itemId := itemId;
      this.quantity := quantity;
      this.unitPriceSnapshot := a.unitPriceSnapshot;
      this.costPriceSnapshot := a.costPriceSnapshot;
      this.shippingCostSnapshot := a.shippingCostSnapshot;
      this.amount := a.amount;
      this.co2Amount := a.co2Amount;
      this.shippingCarrier := None;
      this.trackingNo := None;
      this.shipDate := None;
    }

    function Amounts(): LineAmounts
      reads this
    {
      LineAmounts(unitPriceSnapshot, costPriceSnapshot, shippingCostSnapshot, amount, co2Amount)
    }

    /** `calculate_amounts`: nothing happens without an item or a quantity;
      * otherwise the price columns become `Calculate` of the old ones.  With no
      * unit price at all, the snapshots are written and the amount product raises. */
    method CalculateAmounts(item: Option<Items.Item>) returns (raised: bool)
      modifies this
      ensures item.None? || old(quantity).None? ==> !raised && Amounts() == old(Amounts())
      ensures item.Some? && old(quantity).Some? ==>
                (raised <==> Calculate(old(Amounts()), item.value, old(quantity).value).None?)
      ensures item.Some? && old(quantity).Some? && !raised ==>
                Amounts() == Calculate(old(Amounts()), item.value, old(quantity).value).value
      ensures raised ==> unitPriceSnapshot.None? && amount == old(amount) && co2Amount == old(co2Amount)
      ensures companyId == old(companyId) && itemId == old(itemId) && quantity == old(quantity)
      ensures shippingCarrier == old(shippingCarrier) && trackingNo == old(trackingNo) && shipDate == old(shipDate)
    {
      if item.None? || quantity.None? {
        return false;
      }
      var it := item.value;
      if unitPriceSnapshot.None? {
        unitPriceSnapshot := it.unitPrice;
      }
      costPriceSnapshot := Some(OrZero(it.costPrice));
      shippingCostSnapshot := Some(OrZero(it.shippingCost));
      if unitPriceSnapshot.None? {
        return true;
      }
      amount := Some(Times(unitPriceSnapshot.value, quantity.value));
      co2Amount := Some(Times(OrZero(it.co2PerUnit), quantity.value));
      return false;
    }

    /** The `before_validation` callback: prices the line only when `should_calculate?`. */
    method BeforeValidation(item: Option<Items.Item>, quantityChanged: bool, itemChanged: bool, newRecord: bool) returns (raised: bool)
      modifies this
      ensures !ShouldCalculate(quantityChanged, itemChanged, newRecord) ==> !raised && Amounts() == old(Amounts())
      ensures item.None? || old(quantity).None? ==> !raised && Amounts() == old(Amounts())
      ensures ShouldCalculate(quantityChanged, itemChanged, newRecord) && item.Some? && old(quantity).Some? ==>
                (raised <==> Calculate(old(Amounts()), item.value, old(quantity).value).None?)
      ensures ShouldCalculate(quantityChanged, itemChanged, newRecord) && item.Some? && old(quantity).Some? && !raised ==>
                Amounts() == Calculate(old(Amounts()), item.value, old(quantity).value).value
      ensures companyId == old(companyId) && itemId == old(itemId) && quantity == old(quantity)
    {
      raised := false;
      if ShouldCalculate(quantityChanged, itemChanged, newRecord) {
        raised := CalculateAmounts(item);
      }
    }

    /** Whether the rule behind error `e` fires for this line; `item` is its item row. */
    predicate Violates(e: LineError, item: Option<Items.Item>)
      reads this
    {
      LineViolates(e, companyId, quantity, Amounts(), item)
    }

    /** The errors `valid?` collects. */
    function Errors(item: Option<Items.Item>): (r: set<LineError>)
      reads this
      ensures forall e :: e in r <==> Violates(e, item)
    {
      LineErrors(companyId, quantity, Amounts(), item)
    }
  }

  /** A line whose item belongs to another company is invalid, whatever its amounts. */
  lemma ForeignItemInvalid(l: OrderLine, item: Items.Item)
    requires l.companyId.Some? && item.companyId != l.companyId
    ensures ItemOtherCompany in l.Errors(Some(item))
  {
  }
}
