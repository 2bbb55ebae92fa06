// A tenant company: its validations, the per-company order-number sequence
// (a counter column advanced in place) and the lookup of a company by the
// domain of a sign-up e-mail.

module Companies {
  import opened Common
  import opened Domains

  /** Order numbers are the prefix, a dash, and the sequence value padded to this width. */
  const OrderNoWidth: nat := 7

  /** `"#{prefix}-#{n.to_s.rjust(7, '0')}"`. */
  function OrderNumber(prefix: string, n: int): string
  {
    prefix + "-" + PadLeft(IntToString(n), OrderNoWidth, '0')
  }

  /** Reading an order number back: the prefix, a dash, and at least seven digits. */
  function ParseOrderNumber(prefix: string, s: string): (r: Option<nat>)
    ensures r.Some? ==> |s| >= |prefix| + 1 + OrderNoWidth && s[..|prefix| + 1] == prefix + "-"
  {
    if |s| >= |prefix| + 1 + OrderNoWidth && s[..|prefix| + 1] == prefix + "-"
       && forall i :: |prefix| + 1 <= i < |s| ==> IsDigit(s[i])
    then
      var digits := s[|prefix| + 1..];
      assert forall i :: 0 <= i < |digits| ==> IsDigit(digits[i]) by {
        forall i | 0 <= i < |digits| ensures IsDigit(digits[i]) {
          assert digits[i] == s[|prefix| + 1 + i];
        }
      }
      Some(DigitsValue(digits))
    else None
  }

  /** Padding a numeral with zeros on the left is prefixing `Zeros`. */
  lemma PadLeftIsZeros(s: string)
    requires |s| < OrderNoWidth
    ensures PadLeft(s, OrderNoWidth, '0') == Zeros(OrderNoWidth - |s|) + s
  {
    var k := OrderNoWidth - |s|;
    var p, z := PadLeft(s, OrderNoWidth, '0'), Zeros(k) + s;
    assert |p| == |z| == OrderNoWidth;
    forall i | 0 <= i < OrderNoWidth ensures p[i] == z[i] {
      if i >= k {
        assert p[i] == p[k..][i - k];
      }
    }
  }

  /** The order number of a non-negative sequence value can be read back. */
  lemma OrderNumberRoundTrip(prefix: string, n: nat)
    ensures ParseOrderNumber(prefix, OrderNumber(prefix, n)) == Some(n)
  {
    var s := OrderNumber(prefix, n);
    var digits := PadLeft(NatToString(n), OrderNoWidth, '0');
    assert s == (prefix + "-") + digits;
    assert s[..|prefix| + 1] == prefix + "-";
    assert s[|prefix| + 1..] == digits;
    NatToStringValue(n);
    if |NatToString(n)| < OrderNoWidth {
      PadLeftIsZeros(NatToString(n));
      LeadingZerosValue(OrderNoWidth - |NatToString(n)|, NatToString(n));
    }
    forall i | |prefix| + 1 <= i < |s| ensures IsDigit(s[i]) {
      assert s[i] == digits[i - |prefix| - 1];
    }
  }

  /** Different sequence values never give the same order number. */
  lemma OrderNumberInjective(prefix: string, n: nat, m: nat)
    requires n != m
    ensures OrderNumber(prefix, n) != OrderNumber(prefix, m)
  {
    OrderNumberRoundTrip(prefix, n);
    OrderNumberRoundTrip(prefix, m);
  }

  /** The numeral is padded to seven digits and never truncated. */
  lemma OrderNumberShape(prefix: string, n: nat)
    ensures |OrderNumber(prefix, n)| == |prefix| + 1 + (if |NatToString(n)| < OrderNoWidth then OrderNoWidth else |NatToString(n)|)
    ensures OrderNumber(prefix, n)[|OrderNumber(prefix, n)| - |NatToString(n)|..] == NatToString(n)
  {
  }

  lemma OrderNumberExamples()
    ensures OrderNumber("ORD", 1) == "ORD-0000001"
    ensures OrderNumber("ABC", 1000000) == "ABC-1000000"
    ensures OrderNumber("ABC", 10000000) == "ABC-10000000"
  {
    FirstOrderNumber();
    PowersOfTenNumerals();
    assert PadLeft("1000000", 7, '0') == "1000000";
    assert PadLeft("10000000", 7, '0') == "10000000";
  }

  lemma FirstOrderNumber()
    ensures OrderNumber("ORD", 1) == "ORD-0000001"
  {
    assert NatToString(1) == "1";
    assert PadLeft("1", 7, '0') == "0000001";
  }

  lemma PowersOfTenNumerals()
    ensures NatToString(1000000) == "1000000" && NatToString(10000000) == "10000000"
  {
    assert NatToString(1) == "1";
    assert NatToString(10) == "10";
    assert NatToString(100) == "100";
    assert NatToString(1000) == "1000";
    assert NatToString(10000) == "10000";
    assert NatToString(100000) == "100000";
    assert NatToString(1000000) == "1000000";
  }

  // ---------------------------------------------------------------------
  // Prefix validation

  predicate IsUpperAlnum(c: char)
  {
    'A' <= c <= 'Z' || '0' <= c <= '9'
  }

  datatype CompanyError =
    | NameBlank | NameTooLong
    | CodeBlank | CodeTaken | CodeTooLong
    | PaymentTermsTooLong
    | PrefixBlank | PrefixTooLong | PrefixFormat
    | SeqNegative
    | DomainsInvalid(e: DomainError)

  /** The three `order_prefix` rules: presence, at most 10 characters, `\A[A-Z0-9]+\z`. */
  function PrefixErrors(prefix: string): (r: set<CompanyError>)
    ensures r == {} <==> 1 <= |prefix| <= 10 && forall i :: 0 <= i < |prefix| ==> IsUpperAlnum(prefix[i])
  {
    assert |prefix| >= 1 && IsUpperAlnum(prefix[0]) ==> !IsBlankChar(prefix[0]);
    (if Blank(prefix) then {PrefixBlank} else {})
    + (if |prefix| > 10 then {PrefixTooLong} else {})
    + (if prefix == [] || exists i :: 0 <= i < |prefix| && !IsUpperAlnum(prefix[i]) then {PrefixFormat} else {})
  }

  /** A valid prefix never contains the dash that separates it from the numeral. */
  predicate ValidPrefix(prefix: string)
  {
    PrefixErrors(prefix) == {}
  }

  /** In the number of a valid prefix, the first dash is the one right after the prefix. */
  lemma DashAfterPrefix(p: string, n: int)
    requires ValidPrefix(p)
    ensures |OrderNumber(p, n)| > |p| && OrderNumber(p, n)[|p|] == '-'
    ensures forall i :: 0 <= i < |p| ==> OrderNumber(p, n)[i] == p[i] && OrderNumber(p, n)[i] != '-'
  {
  }

  /** Two companies with valid, different prefixes never issue the same order number. */
  lemma OrderNumberPrefixesDisjoint(p: string, q: string, n: int, m: int)
    requires ValidPrefix(p) && ValidPrefix(q) && p != q
    ensures OrderNumber(p, n) != OrderNumber(q, m)
  {
    DashAfterPrefix(p, n);
    DashAfterPrefix(q, m);
    if |p| == |q| {
      var i :| 0 <= i < |p| && p[i] != q[i];
      assert OrderNumber(p, n)[i] != OrderNumber(q, m)[i];
    }
  }

  // ---------------------------------------------------------------------
  // The company row

  class Company {
    const id: Id
    var name: string
    var code: string
    var paymentTerms: Option<string>
    var orderPrefix: string
    var orderSeq: int
    var domains: DomainsValue
    var isActive: bool
    var postalCode: Option<string>
    var prefecture: Option<string>
    var city: Option<string>
    var address1: Option<string>
    var address2: Option<string>

    constructor (id: Id, name: string, code: string, orderPrefix: string, orderSeq: int, domains: DomainsValue, isActive: bool)
      ensures this.id == id && this.name == name && this.code == code
      ensures this.orderPrefix == orderPrefix && this.orderSeq == orderSeq
      ensures this.domains == domains && this.isActive == isActive
      ensures paymentTerms.None? && postalCode.None? && prefecture.None? && city.None? && address1.None? && address2.None?
    {
      this.id := id;
      this.name := name;
      this.code := code;
      this.paymentTerms := None;
      this.orderPrefix := orderPrefix;
      this.orderSeq := orderSeq;
      this.domains := domains;
      this.isActive := isActive;
      this.postalCode := None;
      this.prefecture := None;
      this.city := None;
      this.address1 := None;
      this.address2 := None;
    }

    /** `generate_next_order_no!`: advances the sequence by one and returns the
      * order number of the new value; nothing else changes. */
    method GenerateNextOrderNo() returns (no: string)
      modifies this`orderSeq
      ensures orderSeq == old(orderSeq) + 1
      ensures no == OrderNumber(orderPrefix, orderSeq)
    {
      orderSeq := orderSeq + 1;
      no := OrderNumber(orderPrefix, orderSeq);
    }

    /** `full_address`: the present address parts in order, space separated. */
    function FullAddress(): string
      reads this
    {
      JoinPresent([postalCode, prefecture, city, address1, address2])
    }

    /** The errors `valid?` collects; `otherCodes` are the codes of the other companies. */
    function Errors(otherCodes: set<string>): (r: set<CompanyError>)
      reads this
      ensures r == {} ==> ValidPrefix(orderPrefix) && orderSeq >= 0
      ensures CodeTaken in r <==> code in otherCodes
    {
      FieldErrors(name, code, paymentTerms, orderPrefix, orderSeq, domains, otherCodes)
    }
  }

  /** The errors `valid?` collects for a company row holding these column values. */
  function FieldErrors(name: string, code: string, paymentTerms: Option<string>, orderPrefix: string, orderSeq: int,
                       domains: DomainsValue, otherCodes: set<string>): (r: set<CompanyError>)
    ensures r == {} ==> ValidPrefix(orderPrefix) && orderSeq >= 0
    ensures r == {} ==> domains.DomainArray? && |domains.entries| > 0
                        && forall i :: 0 <= i < |domains.entries| ==> EntryValid(domains.entries[i])
    ensures r == {} ==> Present(name) && Present(code) && |name| <= 255 && |code| <= 50
    ensures CodeTaken in r <==> code in otherCodes
    ensures r == {} <==> TextFieldsValid(name, code, paymentTerms, otherCodes) && ValidPrefix(orderPrefix)
                         && orderSeq >= 0 && DomainsValid(domains)
  {
    TextFieldErrors(name, code, paymentTerms, otherCodes)
    + PrefixErrors(orderPrefix)
    + (if orderSeq < 0 then {SeqNegative} else {})
    + DomainFieldErrors(domains)
  }

  /** The rules on the name, code and payment-terms columns: name present and
    * at most 255 characters, code present, unused by the other companies and
    * at most 50, payment terms blank or at most 255. */
  predicate TextFieldsValid(name: string, code: string, paymentTerms: Option<string>, otherCodes: set<string>)
  {
    Present(name) && |name| <= 255 && Present(code) && code !in otherCodes && |code| <= 50
    && (paymentTerms.None? || Blank(paymentTerms.value) || |paymentTerms.value| <= 255)
  }

  /** The rule on the `domains` column: a non-empty array of valid domains. */
  predicate DomainsValid(domains: DomainsValue)
  {
    domains.DomainArray? && |domains.entries| > 0
    && forall i :: 0 <= i < |domains.entries| ==> EntryValid(domains.entries[i])
  }

  /** The errors of the name, code and payment-terms columns. */
  function TextFieldErrors(name: string, code: string, paymentTerms: Option<string>, otherCodes: set<string>)
    : (r: set<CompanyError>)
    ensures r == {} ==> Present(name) && Present(code) && |name| <= 255 && |code| <= 50
    ensures CodeTaken in r <==> code in otherCodes
    ensures r == {} <==> TextFieldsValid(name, code, paymentTerms, otherCodes)
  {
    (if Blank(name) then {NameBlank} else {})
    + (if |name| > 255 then {NameTooLong} else {})
    + (if Blank(code) then {CodeBlank} else {})
    + (if code in otherCodes then {CodeTaken} else {})
    + (if |code| > 50 then {CodeTooLong} else {})
    + (if paymentTerms.Some? && !Blank(paymentTerms.value) && |paymentTerms.value| > 255 then {PaymentTermsTooLong} else {})
  }

  /** The errors of the `domains` column, each wrapping one domain error. */
  function DomainFieldErrors(domains: DomainsValue): (r: set<CompanyError>)
    ensures r == {} ==> domains.DomainArray? && |domains.entries| > 0
                        && forall i :: 0 <= i < |domains.entries| ==> EntryValid(domains.entries[i])
    ensures forall e :: e in r ==> e.DomainsInvalid?
    ensures r == {} <==> DomainsValid(domains)
  {
    var de := CompanyDomainErrors(domains);
    var ds := set e | e in de :: DomainsInvalid(e);
    assert de != [] ==> de[0] in de && DomainsInvalid(de[0]) in ds;
    ds
  }

  /** Two successive draws on one company return different numbers with
    * increasing sequence values. */
  method TwoDraws(c: Company) returns (first: string, second: string)
    requires c.orderSeq >= 0
    modifies c`orderSeq
    ensures first != second
    ensures c.orderSeq == old(c.orderSeq) + 2
  {
    first := c.GenerateNextOrderNo();
    var s1 := c.orderSeq;
    second := c.GenerateNextOrderNo();
    OrderNumberInjective(c.orderPrefix, s1, c.orderSeq);
  }

  // ---------------------------------------------------------------------
  // find_by_email_domain

  /** The first company of `cs` (in primary-key order) that is active and lists `key`. */
  function FirstWithDomain(cs: seq<Company>, key: string): (r: Option<Company>)
    reads set c | c in cs
    ensures r.Some? ==> r.value in cs && r.value.isActive && CompanyHasDomain(r.value.domains, key)
    ensures r.None? <==> forall i :: 0 <= i < |cs| ==> !(cs[i].isActive && CompanyHasDomain(cs[i].domains, key))
    ensures r.Some? ==> exists j :: 0 <= j < |cs| && cs[j] == r.value
                          && forall i :: 0 <= i < j ==> !(cs[i].isActive && CompanyHasDomain(cs[i].domains, key))
  {
    if cs == [] then None
    else if cs[0].isActive && CompanyHasDomain(cs[0].domains, key) then Some(cs[0])
    else
      var r := FirstWithDomain(cs[1..], key);
      if r.Some? then
        FirstAfterHead(cs, key, r.value);
        r
      else r
  }

  /** A first match in the tail is a first match of the whole list when the
    * head does not match. */
  lemma FirstAfterHead(cs: seq<Company>, key: string, x: Company)
    requires cs != [] && !(cs[0].isActive && CompanyHasDomain(cs[0].domains, key))
    requires exists j :: 0 <= j < |cs[1..]| && cs[1..][j] == x
               && forall i :: 0 <= i < j ==> !(cs[1..][i].isActive && CompanyHasDomain(cs[1..][i].domains, key))
    ensures exists j :: 0 <= j < |cs| && cs[j] == x
              && forall i :: 0 <= i < j ==> !(cs[i].isActive && CompanyHasDomain(cs[i].domains, key))
  {
    var j :| 0 <= j < |cs[1..]| && cs[1..][j] == x
             && forall i :: 0 <= i < j ==> !(cs[1..][i].isActive && CompanyHasDomain(cs[1..][i].domains, key));
    assert cs[j + 1] == x;
    forall i | 0 <= i < j + 1 ensures !(cs[i].isActive && CompanyHasDomain(cs[i].domains, key)) {
      if i > 0 { assert cs[i] == cs[1..][i - 1]; }
    }
  }

  /** `Company.find_by_email_domain(email)`: nil for a blank domain part, otherwise
    * the first active company listing the lower-cased domain. */
  function FindByEmailDomain(email: string, cs: seq<Company>): (r: Option<Company>)
    reads set c | c in cs
    ensures EmailDomain(email).None? ==> r.None?
    ensures r.Some? ==> r.value in cs && r.value.isActive
                        && CompanyHasDomain(r.value.domains, EmailDomain(email).value)
    ensures EmailDomain(email).Some? && r.None? ==>
              forall i :: 0 <= i < |cs| ==> !(cs[i].isActive && CompanyHasDomain(cs[i].domains, EmailDomain(email).value))
  {
    match EmailDomain(email)
    case None => None
    case Some(key) => FirstWithDomain(cs, key)
  }
}
