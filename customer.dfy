// Centers: billing centers and the receiving centers that bill to them.
// The hierarchy rules, the postal-code format, the address formatters and
// the shipping-address snapshot an order copies.

module Customers {
  import opened Common
  import opened MultiTenant

  /** A raw `is_billing_center` value as the model method may see it. */
  datatype FlagValue = FlagBool(b: bool) | FlagText(t: string) | FlagInt(n: int) | FlagNil

  /** `is_billing_center?`: true exactly for `true`, `'1'` and `1`. */
  predicate FlagIsBillingCenter(v: FlagValue)
  {
    v == FlagBool(true) || v == FlagText("1") || v == FlagInt(1)
  }

  /** One `customers` row.  The boolean column holds the cast flag. */
  datatype Customer = Customer(
    id: Id,
    companyId: Option<Id>,
    centerCode: Option<string>,
    centerName: Option<string>,
    postalCode: Option<string>,
    prefecture: Option<string>,
    city: Option<string>,
    address1: Option<string>,
    address2: Option<string>,
    isActive: bool,
    isBillingCenter: bool,
    billingCenterId: Option<Id>,
    approverProfileId: Option<Id>)

  predicate IsBillingCenter(c: Customer)
  {
    FlagIsBillingCenter(FlagBool(c.isBillingCenter))
  }

  // ---------------------------------------------------------------------
  // Postal code `\A\d{3}-?\d{4}\z`

  predicate AsciiDigits(s: string)
  {
    forall i :: 0 <= i < |s| ==> '0' <= s[i] <= '9'
  }

  predicate PostalFormat(s: string)
  {
    (|s| == 7 && AsciiDigits(s))
    || (|s| == 8 && s[3] == '-' && AsciiDigits(s[..3]) && AsciiDigits(s[4..]))
  }

  /** The two accepted spellings of a postal code are the dashed and undashed forms of the same seven digits. */
  lemma PostalFormatDash(d: string)
    requires |d| == 7 && AsciiDigits(d)
    ensures PostalFormat(d)
    ensures PostalFormat(d[..3] + "-" + d[3..])
  {
    var s := d[..3] + "-" + d[3..];
    assert s[..3] == d[..3] && s[4..] == d[3..];
  }

  // ---------------------------------------------------------------------
  // Validations

  datatype CustomerError =
    | CompanyIdBlank
    | CenterCodeBlank | CenterCodeTooLong | CenterCodeTaken
    | CenterNameBlank | CenterNameTooLong
    | PostalCodeTooLong | PostalCodeFormat
    | PrefectureTooLong | CityTooLong | Address1TooLong | Address2TooLong
    | BillingCenterOtherCompany | BillingCenterNotBilling | BillingCenterSelf
    | BillingCenterMissing

  /** Another center of the same company already uses the code. */
  predicate CodeTakenIn(c: Customer, table: map<Id, Customer>)
  {
    c.centerCode.Some?
    && exists k :: k in table && k != c.id && table[k].companyId == c.companyId && table[k].centerCode == c.centerCode
  }

  /** The referenced billing center row, when it exists. */
  function BillingCenterOf(c: Customer, table: map<Id, Customer>): Option<Customer>
  {
    if c.billingCenterId.Some? && c.billingCenterId.value in table then Some(table[c.billingCenterId.value]) else None
  }

  /** Whether the rule behind error `e` fires for `c`, one case per validator. */
  predicate Violates(e: CustomerError, c: Customer, table: map<Id, Customer>)
  {
    match e
    case CompanyIdBlank => !CompanyIdPresent(c.companyId)
    case CenterCodeBlank => BlankOpt(c.centerCode)
    case CenterCodeTooLong => LongerThan(c.centerCode, 50)
    case CenterCodeTaken => CodeTakenIn(c, table)
    case CenterNameBlank => BlankOpt(c.centerName)
    case CenterNameTooLong => LongerThan(c.centerName, 255)
    case PostalCodeTooLong => LongerUnlessBlank(c.postalCode, 10)
    case PostalCodeFormat => !BlankOpt(c.postalCode) && !PostalFormat(c.postalCode.value)
    case PrefectureTooLong => LongerThan(c.prefecture, 50)
    case CityTooLong => LongerThan(c.city, 100)
    case Address1TooLong => LongerThan(c.address1, 255)
    case Address2TooLong => LongerThan(c.address2, 255)
    case BillingCenterOtherCompany =>
      var bc := BillingCenterOf(c, table);
      bc.Some? && c.companyId.Some? && bc.value.companyId != c.companyId
    case BillingCenterNotBilling =>
      var bc := BillingCenterOf(c, table);
      bc.Some? && !IsBillingCenter(bc.value)
    case BillingCenterSelf => c.billingCenterId.Some? && c.billingCenterId.value == c.id
    case BillingCenterMissing => !IsBillingCenter(c) && c.billingCenterId.None?
  }

  const AllCustomerErrors: seq<CustomerError> := [
    CompanyIdBlank, CenterCodeBlank, CenterCodeTooLong, CenterCodeTaken, CenterNameBlank, CenterNameTooLong,
    PostalCodeTooLong, PostalCodeFormat, PrefectureTooLong, CityTooLong, Address1TooLong, Address2TooLong,
    BillingCenterOtherCompany, BillingCenterNotBilling, BillingCenterSelf, BillingCenterMissing]

  /** The errors `valid?` collects for `c` against the customers table. */
  function CustomerErrors(c: Customer, table: map<Id, Customer>): (r: set<CustomerError>)
    ensures forall e :: e in r <==> Violates(e, c, table)
  {
    set e | e in AllCustomerErrors && Violates(e, c, table)
  }

  predicate CustomerValid(c: Customer, table: map<Id, Customer>)
  {
    CustomerErrors(c, table) == {}
  }

  /** The hierarchy a valid receiving center sits in: it names a billing center
    * other than itself, and when that row exists it is a billing center of the
    * same company. */
  lemma ValidReceivingCenterHierarchy(c: Customer, table: map<Id, Customer>)
    requires CustomerValid(c, table) && !c.isBillingCenter
    ensures c.billingCenterId.Some? && c.billingCenterId.value != c.id
    ensures c.billingCenterId.value in table ==>
              table[c.billingCenterId.value].isBillingCenter && table[c.billingCenterId.value].companyId == c.companyId
  {
    assert !Violates(BillingCenterMissing, c, table) && !Violates(BillingCenterSelf, c, table);
    assert !Violates(BillingCenterNotBilling, c, table) && !Violates(BillingCenterOtherCompany, c, table);
    assert !Violates(CompanyIdBlank, c, table);
  }

  /** A receiving center with no billing center is never valid, whatever else it holds. */
  lemma ReceivingWithoutBillingInvalid(c: Customer, table: map<Id, Customer>)
    requires !c.isBillingCenter && c.billingCenterId.None?
    ensures !CustomerValid(c, table)
  {
    assert Violates(BillingCenterMissing, c, table);
  }

  // ---------------------------------------------------------------------
  // Formatting and the shipping snapshot

  function Address(c: Customer): seq<Option<string>>
  {
    [c.postalCode, c.prefecture, c.city, c.address1, c.address2]
  }

  /** `full_address`. */
  function FullAddress(c: Customer): string
  {
    JoinPresent(Address(c))
  }

  /** `display_name`: `"code: name"`. */
  function DisplayName(c: Customer): string
  {
    CodeAndName(if c.centerCode.Some? then c.centerCode.value else "", if c.centerName.Some? then c.centerName.value else "")
  }

  /** The `ship_*` columns of an order. */
  datatype ShipAddress = ShipAddress(
    postalCode: Option<string>,
    prefecture: Option<string>,
    city: Option<string>,
    address1: Option<string>,
    address2: Option<string>,
    centerName: Option<string>)

  /** `to_shipping_snapshot`: each address part goes to its `ship_` column and the
    * center name to `ship_center_name`. */
  function ToShippingSnapshot(c: Customer): (r: ShipAddress)
    ensures [r.postalCode, r.prefecture, r.city, r.address1, r.address2] == Address(c)
    ensures r.centerName == c.centerName
  {
    ShipAddress(c.postalCode, c.prefecture, c.city, c.address1, c.address2, c.centerName)
  }

  /** The one-line shipping address (`full_shipping_address` of an order). */
  function ShipLine(a: ShipAddress): string
  {
    JoinPresent([a.postalCode, a.prefecture, a.city, a.address1, a.address2])
  }

  /** A snapshot prints as the center's own address. */
  lemma SnapshotPrintsAsCustomer(c: Customer)
    ensures ShipLine(ToShippingSnapshot(c)) == FullAddress(c)
  {
  }
}
