// E-mail domain lists shared by companies and manufacturers: the domain
// pattern both models validate against, the two validators (strict for
// companies, optional for manufacturers), extraction of the domain part of
// an e-mail address, and the textarea-to-array normalisation that the
// companies and manufacturers controllers apply to the `domains` param.

module Domains {
  import opened Common

  /** One element of the `domains` jsonb array; a non-string element keeps its `to_s`. */
  datatype DomainEntry = DomainString(s: string) | NonString(shown: string)

  /** The `domains` jsonb column: an array, or some other JSON value rendered as text. */
  datatype DomainsValue = DomainArray(entries: seq<DomainEntry>) | Scalar(text: string)

  datatype DomainError =
    | CantBeBlank                   // validates :domains, presence: true
    | MustBeArray                   // "must be an array"
    | MustHaveOne                   // "must have at least one domain"
    | InvalidDomain(entry: DomainEntry)  // "contains invalid domain: ..."

  // ---------------------------------------------------------------------
  // The pattern /\A[a-z0-9]+([\-\.]{1}[a-z0-9]+)*\.[a-z]{2,}\z/i

  predicate IsAlnum(c: char)
  {
    'a' <= c <= 'z' || 'A' <= c <= 'Z' || '0' <= c <= '9'
  }

  predicate IsLetter(c: char)
  {
    'a' <= c <= 'z' || 'A' <= c <= 'Z'
  }

  predicate IsSep(c: char)
  {
    c == '-' || c == '.'
  }

  predicate AlnumRun(b: string)
  {
    |b| >= 1 && forall i :: 0 <= i < |b| ==> IsAlnum(b[i])
  }

  /** `[a-z0-9]+([\-\.][a-z0-9]+)*`: alphanumerics and single separators, alphanumeric at both ends. */
  predicate LabelRun(b: string)
  {
    && |b| >= 1 && IsAlnum(b[0]) && IsAlnum(b[|b| - 1])
    && (forall i :: 0 <= i < |b| ==> IsAlnum(b[i]) || IsSep(b[i]))
    && (forall i :: 0 <= i < |b| - 1 ==> IsSep(b[i]) ==> IsAlnum(b[i + 1]))
  }

  /** `[a-z]{2,}` */
  predicate TopLevel(t: string)
  {
    |t| >= 2 && forall i :: 0 <= i < |t| ==> IsLetter(t[i])
  }

  /** The whole pattern: a label run, a dot, a top-level label. */
  predicate ValidDomainName(s: string)
  {
    exists k :: 0 < k < |s| && s[k] == '.' && LabelRun(s[..k]) && TopLevel(s[k + 1..])
  }

  /** A derivation of the pattern: first label, (separator, label) pairs, top-level label. */
  datatype DomainParts = DomainParts(first: string, rest: seq<(char, string)>, tld: string)

  predicate WellFormedParts(p: DomainParts)
  {
    && AlnumRun(p.first)
    && (forall i :: 0 <= i < |p.rest| ==> IsSep(p.rest[i].0) && AlnumRun(p.rest[i].1))
    && TopLevel(p.tld)
  }

  function RenderRest(rest: seq<(char, string)>): string
  {
    if rest == [] then "" else [rest[0].0] + rest[0].1 + RenderRest(rest[1..])
  }

  function Render(p: DomainParts): string
  {
    p.first + RenderRest(p.rest) + "." + p.tld
  }

  lemma LabelRunExtend(b: string, c: char, l: string)
    requires LabelRun(b) && IsSep(c) && AlnumRun(l)
    ensures LabelRun(b + [c] + l)
  {
    var s := b + [c] + l;
    forall i | 0 <= i < |s| - 1 && IsSep(s[i]) ensures IsAlnum(s[i + 1]) {
      if i < |b| - 1 {
        assert s[i] == b[i] && s[i + 1] == b[i + 1];
      } else if i == |b| - 1 {
        assert s[i] == b[|b| - 1];
      } else if i == |b| {
        assert s[i + 1] == l[0];
      } else {
        assert s[i] == l[i - |b| - 1];
      }
    }
  }

  lemma {:induction false} LabelRunRest(b: string, rest: seq<(char, string)>)
    requires LabelRun(b)
    requires forall i :: 0 <= i < |rest| ==> IsSep(rest[i].0) && AlnumRun(rest[i].1)
    ensures LabelRun(b + RenderRest(rest))
    decreases |rest|
  {
    if rest != [] {
      LabelRunExtend(b, rest[0].0, rest[0].1);
      LabelRunRest(b + [rest[0].0] + rest[0].1, rest[1..]);
      assert b + RenderRest(rest) == b + [rest[0].0] + rest[0].1 + RenderRest(rest[1..]);
    }
  }

  /** Every string the pattern describes is accepted by ValidDomainName. */
  lemma RenderedIsValid(p: DomainParts)
    requires WellFormedParts(p)
    ensures ValidDomainName(Render(p))
  {
    LabelRunRest(p.first, p.rest);
    var b := p.first + RenderRest(p.rest);
    var s := Render(p);
    assert s == b + "." + p.tld;
    assert s[..|b|] == b && s[|b|] == '.' && s[|b| + 1..] == p.tld;
  }

  /** Every accepted string has a derivation: the pattern admits nothing more. */
  lemma ValidHasParts(s: string) returns (p: DomainParts)
    requires ValidDomainName(s)
    ensures WellFormedParts(p) && Render(p) == s
  {
    var k :| 0 < k < |s| && s[k] == '.' && LabelRun(s[..k]) && TopLevel(s[k + 1..]);
    var first, rest := SplitLabelRun(s[..k]);
    p := DomainParts(first, rest, s[k + 1..]);
    assert s == s[..k] + "." + s[k + 1..];
  }

  /** Splits a label run into its first label and its (separator, label) pairs. */
  lemma {:induction false} SplitLabelRun(b: string) returns (first: string, rest: seq<(char, string)>)
    requires LabelRun(b)
    ensures AlnumRun(first)
    ensures forall i :: 0 <= i < |rest| ==> IsSep(rest[i].0) && AlnumRun(rest[i].1)
    ensures first + RenderRest(rest) == b
    decreases |b|
  {
    var j := LastSep(b, |b|);
    if j < 0 {
      first, rest := b, [];
      forall i | 0 <= i < |b| ensures IsAlnum(b[i]) {
        assert !IsSep(b[i]);
      }
    } else {
      var head := b[..j];
      var tail := b[j + 1..];
      LabelRunBeforeSep(b, j);
      AlnumAfterLastSep(b, j);
      var f, r := SplitLabelRun(head);
      first, rest := f, r + [(b[j], tail)];
      RenderRestSnoc(r, b[j], tail);
      assert b == head + [b[j]] + tail;
    }
  }

  /** What precedes a separator of a label run is a label run. */
  lemma LabelRunBeforeSep(b: string, j: int)
    requires LabelRun(b) && 0 < j < |b| - 1 && IsSep(b[j])
    ensures LabelRun(b[..j])
  {
    var head := b[..j];
    assert head[0] == b[0];
    assert head[|head| - 1] == b[j - 1];
    forall i | 0 <= i < |head| - 1 && IsSep(head[i]) ensures IsAlnum(head[i + 1]) {
      assert head[i] == b[i] && head[i + 1] == b[i + 1];
    }
  }

  /** What follows the last separator of a label run is alphanumeric. */
  lemma AlnumAfterLastSep(b: string, j: int)
    requires LabelRun(b) && 0 <= j < |b| - 1
    requires forall i :: j < i < |b| ==> !IsSep(b[i])
    ensures AlnumRun(b[j + 1..])
  {
    var tail := b[j + 1..];
    forall i | 0 <= i < |tail| ensures IsAlnum(tail[i]) {
      assert tail[i] == b[j + 1 + i];
      assert !IsSep(b[j + 1 + i]);
    }
  }

  /** The index of the last separator of `b` before `n`, or -1. */
  lemma {:induction false} LastSep(b: string, n: nat) returns (j: int)
    requires LabelRun(b) && n <= |b|
    ensures -1 <= j < n
    ensures j >= 0 ==> 0 < j < |b| - 1 && IsSep(b[j])
    ensures forall i :: j < i < n ==> !IsSep(b[i])
    decreases n
  {
    if n == 0 {
      j := -1;
    } else if IsSep(b[n - 1]) {
      j := n - 1;
      assert j != 0 && j != |b| - 1 by { assert IsAlnum(b[0]) && IsAlnum(b[|b| - 1]); }
    } else {
      j := LastSep(b, n - 1);
    }
  }

  lemma {:induction false} RenderRestSnoc(r: seq<(char, string)>, c: char, l: string)
    ensures RenderRest(r + [(c, l)]) == RenderRest(r) + [c] + l
  {
    if r == [] {
      assert r + [(c, l)] == [(c, l)];
    } else {
      assert (r + [(c, l)])[0] == r[0];
      assert (r + [(c, l)])[1..] == r[1..] + [(c, l)];
      RenderRestSnoc(r[1..], c, l);
    }
  }

  lemma LowerCharClasses(c: char)
    ensures IsAlnum(LowerChar(c)) <==> IsAlnum(c)
    ensures IsLetter(LowerChar(c)) <==> IsLetter(c)
    ensures IsSep(LowerChar(c)) <==> IsSep(c)
    ensures LowerChar(c) == '.' <==> c == '.'
    ensures IsBlankChar(LowerChar(c)) <==> IsBlankChar(c)
  {
  }

  lemma LabelRunDowncase(x: string)
    ensures LabelRun(Downcase(x)) <==> LabelRun(x)
  {
    var d := Downcase(x);
    forall i | 0 <= i < |x| ensures (IsAlnum(d[i]) <==> IsAlnum(x[i])) && (IsSep(d[i]) <==> IsSep(x[i])) {
      LowerCharClasses(x[i]);
    }
  }

  lemma TopLevelDowncase(x: string)
    ensures TopLevel(Downcase(x)) <==> TopLevel(x)
  {
    var d := Downcase(x);
    forall i | 0 <= i < |x| ensures IsLetter(d[i]) <==> IsLetter(x[i]) {
      LowerCharClasses(x[i]);
    }
  }

  lemma PresentDowncase(x: string)
    ensures Present(Downcase(x)) <==> Present(x)
  {
    var d := Downcase(x);
    forall i | 0 <= i < |x| ensures IsBlankChar(d[i]) <==> IsBlankChar(x[i]) {
      LowerCharClasses(x[i]);
    }
  }

  /** The pattern is case-insensitive: lower-casing a name does not change whether it is valid. */
  lemma DowncasePreservesValidity(s: string)
    ensures ValidDomainName(Downcase(s)) <==> ValidDomainName(s)
  {
    var d := Downcase(s);
    forall k | 0 < k < |s|
      ensures (d[k] == '.' && LabelRun(d[..k]) && TopLevel(d[k + 1..]))
          <==> (s[k] == '.' && LabelRun(s[..k]) && TopLevel(s[k + 1..]))
    {
      LowerCharClasses(s[k]);
      assert d[..k] == Downcase(s[..k]);
      assert d[k + 1..] == Downcase(s[k + 1..]);
      LabelRunDowncase(s[..k]);
      TopLevelDowncase(s[k + 1..]);
    }
  }

  // ---------------------------------------------------------------------
  // Validators

  predicate EntryValid(e: DomainEntry)
  {
    e.DomainString? && ValidDomainName(e.s)
  }

  /** The entries that fail the pattern, in order: one error each. */
  function InvalidEntries(es: seq<DomainEntry>): (r: seq<DomainError>)
    ensures |r| <= |es|
    ensures r == [] <==> forall i :: 0 <= i < |es| ==> EntryValid(es[i])
    ensures forall e :: InvalidDomain(e) in r <==> e in es && !EntryValid(e)
    ensures forall x :: x in r ==> x.InvalidDomain?
  {
    if es == [] then []
    else
      var tl := InvalidEntries(es[1..]);
      assert forall i :: 1 <= i < |es| ==> es[i] == es[1..][i - 1];
      assert forall e :: e in es <==> e == es[0] || e in es[1..];
      if EntryValid(es[0]) then tl else [InvalidDomain(es[0])] + tl
  }

  /** `validates :domains, presence: true` for a jsonb value. */
  predicate DomainsBlank(v: DomainsValue)
  {
    match v
    case DomainArray(es) => es == []
    case Scalar(t) => Blank(t)
  }

  /**
   * Company's domain errors: presence, then `domains_must_be_array_of_valid_domains`
   * (not an array; an empty array; one error per element that is not a matching string).
   */
  function CompanyDomainErrors(v: DomainsValue): (r: seq<DomainError>)
    ensures r == [] <==> v.DomainArray? && v.entries != [] && forall i :: 0 <= i < |v.entries| ==> EntryValid(v.entries[i])
    ensures v.Scalar? ==> MustBeArray in r
    ensures v == DomainArray([]) ==> CantBeBlank in r && MustHaveOne in r
  {
    (if DomainsBlank(v) then [CantBeBlank] else [])
    + match v
      case Scalar(_) => [MustBeArray]
      case DomainArray(es) => if es == [] then [MustHaveOne] else InvalidEntries(es)
  }

  /** Manufacturer's domain errors: checked only for a non-empty array. */
  function ManufacturerDomainErrors(v: DomainsValue): (r: seq<DomainError>)
    ensures (v.Scalar? || v == DomainArray([])) ==> r == []
    ensures v.DomainArray? ==> (r == [] <==> forall i :: 0 <= i < |v.entries| ==> EntryValid(v.entries[i]))
  {
    match v
    case Scalar(_) => []
    case DomainArray(es) => InvalidEntries(es)
  }

  // ---------------------------------------------------------------------
  // E-mail domain lookup key

  /**
   * `email.to_s.split("@").last&.downcase`, then nil when blank: the lower-cased last
   * non-empty `@`-separated segment, or None.
   */
  function EmailDomain(email: string): (r: Option<string>)
    ensures r.Some? ==> Present(r.value) && '@' !in r.value
  {
    var parts := RubySplit(email, '@');
    if parts == [] then None
    else
      var d := Downcase(parts[|parts| - 1]);
      assert '@' !in parts[|parts| - 1];
      assert forall i :: 0 <= i < |d| ==> d[i] != '@';
      if Blank(d) then None else Some(d)
  }

  /** For `local@domain` with a non-blank domain, the key is the lower-cased domain. */
  lemma EmailDomainOf(local: string, domain: string)
    requires '@' !in domain && Present(domain)
    ensures EmailDomain(local + "@" + domain) == Some(Downcase(domain))
  {
    assert local + "@" + domain == local + ['@'] + domain;
    assert domain != "";
    SplitLastPiece(local, domain, '@');
    PresentDowncase(domain);
  }

  /** Split at a separator, a non-empty text after the last one is the last field. */
  lemma SplitLastPiece(a: string, b: string, sep: char)
    requires sep !in b && b != ""
    ensures var r := RubySplit(a + [sep] + b, sep); r != [] && r[|r| - 1] == b
  {
    PiecesLast(a, b, sep);
    var ps := Pieces(a + [sep] + b, sep);
    assert DropTrailingEmpty(ps) == ps;
  }

  /** An address with no '@' is its own lookup key. */
  lemma EmailWithoutAt(email: string)
    requires '@' !in email && Present(email)
    ensures EmailDomain(email) == Some(Downcase(email))
  {
    PiecesWithoutSep(email, '@');
    assert email != "";
    PresentDowncase(email);
  }

  lemma {:induction false} PiecesLast(a: string, b: string, sep: char)
    requires sep !in b
    ensures |Pieces(a + [sep] + b, sep)| >= 2
    ensures Pieces(a + [sep] + b, sep)[|Pieces(a + [sep] + b, sep)| - 1] == b
  {
    var s := a + [sep] + b;
    if a == [] {
      assert s == [sep] + b && s[1..] == b;
      PiecesWithoutSep(b, sep);
    } else {
      assert s[0] == a[0];
      assert s[1..] == a[1..] + [sep] + b;
      PiecesLast(a[1..], b, sep);
    }
  }

  /** Case-insensitive membership of a key in a company's domain list (non-strings never match). */
  predicate CompanyHasDomain(v: DomainsValue, key: string)
  {
    v.DomainArray? && exists i :: 0 <= i < |v.entries| && v.entries[i].DomainString? && Downcase(v.entries[i].s) == key
  }

  /** The manufacturer version compares `d.to_s.downcase`, and skips an empty or non-array list. */
  predicate ManufacturerHasDomain(v: DomainsValue, key: string)
  {
    v.DomainArray? && v.entries != [] && exists i :: 0 <= i < |v.entries| && Downcase(EntryText(v.entries[i])) == key
  }

  function EntryText(e: DomainEntry): string
  {
    match e
    case DomainString(s) => s
    case NonString(shown) => shown
  }

  // ---------------------------------------------------------------------
  // Textarea normalisation in the companies and manufacturers controllers

  /**
   * A `domains` param that is a one-element array holding a string is split on
   * newlines, stripped, and cleared of blank lines; anything else is unchanged.
   */
  function NormalizeDomainsParam(p: Option<seq<string>>): (r: Option<seq<string>>)
    ensures r.None? <==> p.None?
    ensures p.Some? && |p.value| != 1 ==> r == p
    ensures p.Some? && |p.value| == 1 ==> forall i :: 0 <= i < |r.value| ==> CleanLine(r.value[i])
  {
    match p
    case None => None
    case Some(list) =>
      if |list| == 1 then
        CleanLinesClean(RubySplit(list[0], '\n'));
        Some(CleanLines(RubySplit(list[0], '\n')))
      else p
  }

  /** `.map(&:strip).reject(&:blank?)` */
  function CleanLines(lines: seq<string>): (r: seq<string>)
    ensures |r| <= |lines|
  {
    if lines == [] then []
    else if Blank(Strip(lines[0])) then CleanLines(lines[1..])
    else [Strip(lines[0])] + CleanLines(lines[1..])
  }

  /** Every line kept is stripped, present, and free of newlines. */
  lemma {:induction false} CleanLinesClean(lines: seq<string>)
    requires forall i :: 0 <= i < |lines| ==> '\n' !in lines[i]
    ensures forall i :: 0 <= i < |CleanLines(lines)| ==> CleanLine(CleanLines(lines)[i])
  {
    if lines != [] {
      var tl := lines[1..];
      assert forall i :: 0 <= i < |tl| ==> tl[i] == lines[i + 1];
      CleanLinesClean(tl);
      StripIsStripped(lines[0]);
      StripSubset(lines[0]);
    }
  }

  predicate CleanLine(x: string)
  {
    Present(x) && '\n' !in x && Stripped(x)
  }

  lemma StripSubset(s: string)
    ensures forall c :: c in Strip(s) ==> c in s
  {
    StripLeftSubset(s);
    StripRightSubset(StripLeft(s));
  }

  lemma {:induction false} StripLeftSubset(s: string)
    ensures forall c :: c in StripLeft(s) ==> c in s
  {
    if s != [] && IsStripChar(s[0]) {
      StripLeftSubset(s[1..]);
    }
  }

  lemma {:induction false} StripRightSubset(s: string)
    ensures forall c :: c in StripRight(s) ==> c in s
  {
    if s != [] && IsStripChar(s[|s| - 1]) {
      StripRightSubset(s[..|s| - 1]);
    }
  }

  /** A list shown one per line and submitted back is recovered exactly. */
  lemma {:induction false} NormalizeRoundTrip(ds: seq<string>)
    requires ds != []
    requires forall i :: 0 <= i < |ds| ==> CleanLine(ds[i])
    ensures NormalizeDomainsParam(Some([Join(ds, "\n")])) == Some(ds)
  {
    JoinPiecesRoundTrip(ds, '\n');
    assert ds[|ds| - 1] != "" by { assert Present(ds[|ds| - 1]); }
    assert RubySplit(Join(ds, "\n"), '\n') == ds;
    CleanLinesKeeps(ds);
  }

  lemma {:induction false} CleanLinesKeeps(ds: seq<string>)
    requires forall i :: 0 <= i < |ds| ==> CleanLine(ds[i])
    ensures CleanLines(ds) == ds
  {
    if ds != [] {
      var tl := ds[1..];
      assert forall i :: 0 <= i < |tl| ==> tl[i] == ds[i + 1];
      CleanLinesKeeps(tl);
      CleanLinesCons(ds[0], tl);
      assert ds == [ds[0]] + tl;
    }
  }

  lemma CleanLinesCons(x: string, tl: seq<string>)
    requires CleanLine(x) && CleanLines(tl) == tl
    ensures CleanLines([x] + tl) == [x] + tl
  {
    StrippedIsFixed(x);
    assert ([x] + tl)[0] == x && ([x] + tl)[1..] == tl;
  }

  /** Splitting a join of non-empty, separator-free parts on the separator gives the parts back. */
  lemma {:induction false} JoinPiecesRoundTrip(parts: seq<string>, sep: char)
    requires parts != []
    requires forall i :: 0 <= i < |parts| ==> parts[i] != "" && sep !in parts[i]
    ensures Pieces(Join(parts, [sep]), sep) == parts
  {
    if |parts| == 1 {
      PiecesWithoutSep(parts[0], sep);
    } else {
      var rest := parts[1..];
      assert forall i :: 0 <= i < |rest| ==> rest[i] == parts[i + 1];
      JoinPiecesRoundTrip(rest, sep);
      assert Join(parts, [sep]) == parts[0] + [sep] + Join(rest, [sep]);
      PiecesConcat(parts[0], Join(rest, [sep]), sep);
      assert parts == [parts[0]] + rest;
    }
  }
}
