// The platform-wide manufacturer master: code uniqueness, the optional
// domain list and the lookup of a manufacturer by a sign-up e-mail domain.

module Manufacturers {
  import opened Common
  import opened Domains

  datatype Manufacturer = Manufacturer(
    id: Id,
    code: Option<string>,
    name: Option<string>,
    paymentTerms: Option<string>,
    domains: DomainsValue,
    isActive: bool)

  datatype ManufacturerError =
    | CodeBlank | CodeTooLong | CodeTaken
    | NameBlank | NameTooLong
    | PaymentTermsTooLong
    | DomainsInvalid(e: DomainError)

  /** The errors `valid?` collects; `otherCodes` are the codes of all other
    * manufacturers (the code is unique across the platform, not per company). */
  function ManufacturerErrors(m: Manufacturer, otherCodes: set<string>): (r: set<ManufacturerError>)
    ensures CodeTaken in r <==> m.code.Some? && m.code.value in otherCodes
    ensures (m.domains.Scalar? || m.domains == DomainArray([])) ==> forall e :: DomainsInvalid(e) !in r
    ensures m.domains.DomainArray? ==>
              ((forall e :: DomainsInvalid(e) !in r) <==> forall i :: 0 <= i < |m.domains.entries| ==> EntryValid(m.domains.entries[i]))
  {
    var de := ManufacturerDomainErrors(m.domains);
    var ds := set e | e in de :: DomainsInvalid(e);
    assert de != [] ==> de[0] in de && DomainsInvalid(de[0]) in ds;
    (if BlankOpt(m.code) then {CodeBlank} else {})
    + (if LongerThan(m.code, 50) then {CodeTooLong} else {})
    + (if m.code.Some? && m.code.value in otherCodes then {CodeTaken} else {})
    + (if BlankOpt(m.name) then {NameBlank} else {})
    + (if LongerThan(m.name, 255) then {NameTooLong} else {})
    + (if LongerUnlessBlank(m.paymentTerms, 255) then {PaymentTermsTooLong} else {})
    + ds
  }

  /** `display_name`. */
  function DisplayName(m: Manufacturer): string
  {
    CodeAndName(if m.code.Some? then m.code.value else "", if m.name.Some? then m.name.value else "")
  }

  /** The first manufacturer of `ms` that is active and lists `key`. */
  function FirstWithDomain(ms: seq<Manufacturer>, key: string): (r: Option<Manufacturer>)
    ensures r.Some? ==> r.value in ms && r.value.isActive && ManufacturerHasDomain(r.value.domains, key)
    ensures r.None? <==> forall i :: 0 <= i < |ms| ==> !(ms[i].isActive && ManufacturerHasDomain(ms[i].domains, key))
    ensures r.Some? ==> exists j :: 0 <= j < |ms| && ms[j] == r.value
                          && forall i :: 0 <= i < j ==> !(ms[i].isActive && ManufacturerHasDomain(ms[i].domains, key))
  {
    if ms == [] then None
    else if ms[0].isActive && ManufacturerHasDomain(ms[0].domains, key) then Some(ms[0])
    else
      var r := FirstWithDomain(ms[1..], key);
      if r.Some? then
        assert exists j :: 0 <= j < |ms| && ms[j] == r.value
                 && forall i :: 0 <= i < j ==> !(ms[i].isActive && ManufacturerHasDomain(ms[i].domains, key)) by {
          var j :| 0 <= j < |ms[1..]| && ms[1..][j] == r.value
                 && forall i :: 0 <= i < j ==> !(ms[1..][i].isActive && ManufacturerHasDomain(ms[1..][i].domains, key));
          assert ms[j + 1] == r.value;
          forall i | 0 <= i < j + 1 ensures !(ms[i].isActive && ManufacturerHasDomain(ms[i].domains, key)) {
            if i > 0 { assert ms[i] == ms[1..][i - 1]; }
          }
        }
        r
      else r
  }

  /** `Manufacturer.find_by_email_domain(email)`: nil for a blank domain part,
    * otherwise the first active manufacturer whose non-empty list holds the domain. */
  function FindByEmailDomain(email: string, ms: seq<Manufacturer>): (r: Option<Manufacturer>)
    ensures EmailDomain(email).None? ==> r.None?
    ensures r.Some? ==> r.value in ms && r.value.isActive && r.value.domains.DomainArray?
                        && |r.value.domains.entries| > 0
                        && ManufacturerHasDomain(r.value.domains, EmailDomain(email).value)
    ensures EmailDomain(email).Some? && r.None? ==>
              forall i :: 0 <= i < |ms| ==> !(ms[i].isActive && ManufacturerHasDomain(ms[i].domains, EmailDomain(email).value))
  {
    match EmailDomain(email)
    case None => None
    case Some(key) => FirstWithDomain(ms, key)
  }
}
