// The item master: code, name and price rules, the display label, and the
// item-to-company sharing pairs that widen an item's visibility.

module Items {
  import opened Common
  import opened MultiTenant

  /** One `items` row; decimal columns are reals. */
  datatype Item = Item(
    id: Id,
    companyId: Option<Id>,
    itemCode: Option<string>,
    name: Option<string>,
    unitPrice: Option<real>,
    co2PerUnit: Option<real>,
    costPrice: Option<real>,
    shippingCost: Option<real>,
    isActive: bool,
    manufacturerId: Option<Id>)

  /** The exclusive upper bound on a unit price. */
  const PriceLimit: real := 10000000000.0

  datatype ItemError =
    | CompanyIdBlank
    | ItemCodeBlank | ItemCodeTooLong | ItemCodeTaken
    | NameBlank | NameTooLong
    | UnitPriceBlank | UnitPriceOutOfRange
    | Co2Negative | CostNegative | ShippingCostNegative

  /** `numericality: { greater_than_or_equal_to: 0 }, allow_nil: true`. */
  predicate NegativeUnlessNil(x: Option<real>)
  {
    x.Some? && x.value < 0.0
  }

  predicate CodeTakenIn(i: Item, table: map<Id, Item>)
  {
    i.itemCode.Some?
    && exists k :: k in table && k != i.id && table[k].companyId == i.companyId && table[k].itemCode == i.itemCode
  }

  predicate Violates(e: ItemError, i: Item, table: map<Id, Item>)
  {
    match e
    case CompanyIdBlank => !CompanyIdPresent(i.companyId)
    case ItemCodeBlank => BlankOpt(i.itemCode)
    case ItemCodeTooLong => LongerThan(i.itemCode, 50)
    case ItemCodeTaken => CodeTakenIn(i, table)
    case NameBlank => BlankOpt(i.name)
    case NameTooLong => LongerThan(i.name, 255)
    case UnitPriceBlank => i.unitPrice.None?
    case UnitPriceOutOfRange => i.unitPrice.Some? && !(0.0 <= i.unitPrice.value < PriceLimit)
    case Co2Negative => NegativeUnlessNil(i.co2PerUnit)
    case CostNegative => NegativeUnlessNil(i.costPrice)
    case ShippingCostNegative => NegativeUnlessNil(i.shippingCost)
  }

  const AllItemErrors: seq<ItemError> := [
    CompanyIdBlank, ItemCodeBlank, ItemCodeTooLong, ItemCodeTaken, NameBlank, NameTooLong,
    UnitPriceBlank, UnitPriceOutOfRange, Co2Negative, CostNegative, ShippingCostNegative]

  /** The errors `valid?` collects for `i` against the items table. */
  function ItemErrors(i: Item, table: map<Id, Item>): (r: set<ItemError>)
    ensures forall e :: e in r <==> Violates(e, i, table)
  {
    set e | e in AllItemErrors && Violates(e, i, table)
  }

  predicate ItemValid(i: Item, table: map<Id, Item>)
  {
    ItemErrors(i, table) == {}
  }

  /** What a valid item guarantees the order lines that price from it. */
  lemma ValidItemPrices(i: Item, table: map<Id, Item>)
    requires ItemValid(i, table)
    ensures i.unitPrice.Some? && 0.0 <= i.unitPrice.value < PriceLimit
    ensures i.co2PerUnit.None? || i.co2PerUnit.value >= 0.0
    ensures i.costPrice.None? || i.costPrice.value >= 0.0
    ensures i.shippingCost.None? || i.shippingCost.value >= 0.0
    ensures i.companyId.Some?
  {
    assert !Violates(UnitPriceBlank, i, table) && !Violates(UnitPriceOutOfRange, i, table);
    assert !Violates(Co2Negative, i, table) && !Violates(CostNegative, i, table);
    assert !Violates(ShippingCostNegative, i, table) && !Violates(CompanyIdBlank, i, table);
  }

  /** Within one company, valid items have pairwise different codes. */
  lemma ValidItemCodesUnique(table: map<Id, Item>, a: Id, b: Id)
    requires a in table && b in table && a != b
    requires table[a].id == a && table[b].id == b
    requires ItemValid(table[a], table)
    requires table[a].companyId == table[b].companyId && table[a].itemCode.Some?
    ensures table[a].itemCode != table[b].itemCode
  {
    assert !Violates(ItemCodeTaken, table[a], table);
  }

  /** `display_name`: `"item_code: name"`. */
  function DisplayName(i: Item): string
  {
    CodeAndName(if i.itemCode.Some? then i.itemCode.value else "", if i.name.Some? then i.name.value else "")
  }

  /** The `item_companies` table: (item id, company id) pairs, each at most once. */
  type ItemShares = set<(Id, Id)>

  /** An item is visible to a company that owns it or that it is shared with. */
  predicate VisibleTo(i: Item, company: Id, shares: ItemShares)
  {
    i.companyId == Some(company) || (i.id, company) in shares
  }
}
