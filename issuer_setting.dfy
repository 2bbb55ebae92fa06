// The issuer printed on invoices: a single settings row fetched or created
// on demand, and its one-line address.

module IssuerSettings {
  import opened Common

  /** One `issuer_settings` row (the address and contact columns). */
  datatype Setting = Setting(
    name: string,
    postalCode: Option<string>,
    prefecture: Option<string>,
    city: Option<string>,
    address1: Option<string>,
    address2: Option<string>,
    phone: Option<string>,
    fax: Option<string>,
    registrationNumber: Option<string>)

  /** The row `create!(name: "")` inserts. */
  const BlankSetting: Setting := Setting("", None, None, None, None, None, None, None, None)

  /** The address parts in printing order. */
  function AddressParts(s: Setting): seq<Option<string>>
  {
    [s.postalCode, s.prefecture, s.city, s.address1, s.address2]
  }

  /** `full_address`: the non-blank address parts joined by single spaces. */
  function FullAddress(s: Setting): string
  {
    JoinPresent(AddressParts(s))
  }

  /** A blank part leaves no trace (no doubled space) in the address. */
  lemma FullAddressSkipsBlankPart(s: Setting, i: nat)
    requires i < 5 && BlankOpt(AddressParts(s)[i])
    ensures FullAddress(s) == JoinPresent(AddressParts(s)[..i] + AddressParts(s)[i + 1..])
  {
    var ps := AddressParts(s);
    assert ps == ps[..i] + [ps[i]] + ps[i + 1..];
    JoinPresentSkipsBlank(ps[..i], ps[i], ps[i + 1..]);
  }

  /** With every part present the address is the five parts in order, spaced. */
  lemma FullAddressAllPresent(s: Setting, postal: string, pref: string, city: string, a1: string, a2: string)
    requires AddressParts(s) == [Some(postal), Some(pref), Some(city), Some(a1), Some(a2)]
    requires Present(postal) && Present(pref) && Present(city) && Present(a1) && Present(a2)
    ensures FullAddress(s) == Join([postal, pref, city, a1, a2], " ")
  {
    JoinPresentAllPresent(AddressParts(s), [postal, pref, city, a1, a2]);
  }

  /** The `issuer_settings` table, its rows in primary-key order. */
  class SettingTable {
    var rows: seq<Setting>

    constructor ()
      ensures rows == []
    {
      rows := [];
    }

    /** `IssuerSetting.current`: the first row, or a new blank row when the table is empty. */
    method Current() returns (s: Setting)
      modifies this
      ensures old(rows) != [] ==> rows == old(rows) && s == rows[0]
      ensures old(rows) == [] ==> rows == [BlankSetting] && s == BlankSetting
      ensures rows != [] && s == rows[0]
    {
      if rows != [] {
        s := rows[0];
        return;
      }
      rows := rows + [BlankSetting];
      s := BlankSetting;
    }
  }

  /** A second call returns the same row and creates nothing. */
  method CurrentTwice(t: SettingTable) returns (s1: Setting, s2: Setting)
    modifies t
    ensures s1 == s2
    ensures |t.rows| == (if old(t.rows) == [] then 1 else |old(t.rows)|)
  {
    s1 := t.Current();
    s2 := t.Current();
  }
}
