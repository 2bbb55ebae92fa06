// Shared vocabulary of the model: optional values, record ids, the string
// helpers the Rails code leans on (blank?, strip, downcase, split, join),
// decimal rendering of integers, and calendar dates.

module Common {

  datatype Option<T> = None | Some(value: T)

  /** The outcome of an operation that raises in the source: a value or the error it raises. */
  datatype Result<T, E> = Ok(value: T) | Err(error: E)

  /** Primary keys of every table. */
  type Id = nat

  // ---------------------------------------------------------------------
  // blank? / present?

  /** The characters `String#blank?` treats as blank (POSIX [[:space:]] over Unicode). */
  predicate IsBlankChar(c: char)
  {
    c == ' ' || c == '\t' || c == '\n' || c == '\r' || c == '\U{000B}' || c == '\U{000C}'
    || c == '\U{0085}' || c == '\U{00A0}' || c == '\U{1680}'
    || ('\U{2000}' <= c <= '\U{200A}') || c == '\U{2028}' || c == '\U{2029}'
    || c == '\U{202F}' || c == '\U{205F}' || c == '\U{3000}'
  }

  predicate Blank(s: string)
  {
    forall i :: 0 <= i < |s| ==> IsBlankChar(s[i])
  }

  predicate Present(s: string)
  {
    !Blank(s)
  }

  /** A text starting with a letter is present. */
  lemma PresentWord(s: string)
    requires |s| > 0 && ('a' <= s[0] <= 'z' || 'A' <= s[0] <= 'Z')
    ensures Present(s) && Presence(Some(s)) == Some(s)
  {
    assert !IsBlankChar(s[0]);
  }

  /** `x.blank?` for a nullable string column. */
  predicate BlankOpt(s: Option<string>)
  {
    s.None? || Blank(s.value)
  }

  /** `x.presence`: the value when present, nil otherwise. */
  function Presence(s: Option<string>): (r: Option<string>)
    ensures r.Some? <==> !BlankOpt(s)
    ensures r.Some? ==> r == s
  {
    if BlankOpt(s) then None else s
  }

  // ---------------------------------------------------------------------
  // strip

  /** The characters `String#strip` removes: ASCII whitespace and NUL. */
  predicate IsStripChar(c: char)
  {
    c == ' ' || c == '\t' || c == '\n' || c == '\r' || c == '\U{000B}' || c == '\U{000C}' || c == '\0'
  }

  function StripLeft(s: string): (r: string)
    ensures |r| <= |s|
    ensures r == [] || !IsStripChar(r[0])
  {
    if s != [] && IsStripChar(s[0]) then StripLeft(s[1..]) else s
  }

  function StripRight(s: string): (r: string)
    ensures |r| <= |s|
    ensures r == [] || !IsStripChar(r[|r| - 1])
  {
    if s != [] && IsStripChar(s[|s| - 1]) then StripRight(s[..|s| - 1]) else s
  }

  /** `String#strip`: the longest infix with no strip character at either end. */
  function Strip(s: string): (r: string)
    ensures |r| <= |s|
  {
    StripRight(StripLeft(s))
  }

  /** A stripped string begins and ends with a character `strip` keeps, and is one `strip` leaves alone. */
  predicate Stripped(s: string)
  {
    s == [] || (!IsStripChar(s[0]) && !IsStripChar(s[|s| - 1]))
  }

  lemma {:induction false} StripLeftEnds(s: string)
    ensures Stripped(s) ==> StripLeft(s) == s
    ensures s != [] && !IsStripChar(s[|s| - 1]) ==> StripLeft(s) != [] && !IsStripChar(StripLeft(s)[|StripLeft(s)| - 1])
  {
    if s != [] && IsStripChar(s[0]) {
      StripLeftEnds(s[1..]);
    }
  }

  lemma StripIsStripped(s: string)
    ensures Stripped(Strip(s))
  {
    var l := StripLeft(s);
    var r := StripRight(l);
    if r != [] {
      StripRightKeepsFirst(l);
    }
  }

  lemma {:induction false} StripRightKeepsFirst(s: string)
    requires StripRight(s) != []
    ensures StripRight(s)[0] == s[0]
  {
    if s != [] && IsStripChar(s[|s| - 1]) {
      StripRightKeepsFirst(s[..|s| - 1]);
    }
  }

  lemma StrippedIsFixed(s: string)
    requires Stripped(s)
    ensures Strip(s) == s
  {
    StripLeftEnds(s);
  }

  /** `x&.strip` for a nullable string. */
  function StripOpt(s: Option<string>): (r: Option<string>)
    ensures r.Some? <==> s.Some?
  {
    if s.Some? then Some(Strip(s.value)) else None
  }

  /** Stripping twice is stripping once. */
  lemma StripIdempotent(s: string)
    ensures Strip(Strip(s)) == Strip(s)
  {
    StripIsStripped(s);
    StrippedIsFixed(Strip(s));
  }

  // ---------------------------------------------------------------------
  // Case

  /** ASCII case folding (the model does not carry Unicode case tables). */
  function LowerChar(c: char): (r: char)
    ensures 'A' <= c <= 'Z' ==> r as int == c as int + 32
    ensures !('A' <= c <= 'Z') ==> r == c
  {
    if 'A' <= c <= 'Z' then (c as int + 32) as char else c
  }

  function Downcase(s: string): (r: string)
    ensures |r| == |s|
    ensures forall i :: 0 <= i < |s| ==> r[i] == LowerChar(s[i])
  {
    if s == [] then [] else [LowerChar(s[0])] + Downcase(s[1..])
  }

  /** `a.casecmp(b).zero?`: equality after ASCII case folding. */
  predicate CaseEq(a: string, b: string)
  {
    Downcase(a) == Downcase(b)
  }

  // ---------------------------------------------------------------------
  // split / join

  /** Every piece between occurrences of `sep`, empty pieces included. */
  function Pieces(s: string, sep: char): (r: seq<string>)
    ensures |r| >= 1
    ensures forall i :: 0 <= i < |r| ==> sep !in r[i]
  {
    if s == [] then [""]
    else
      var rest := Pieces(s[1..], sep);
      if s[0] == sep then [""] + rest else [[s[0]] + rest[0]] + rest[1..]
  }

  /** The first piece is everything before the first separator. */
  lemma {:induction false} PiecesFirst(a: string, b: string, sep: char)
    requires sep !in a
    ensures Pieces(a + [sep] + b, sep)[0] == a
  {
    if a != [] {
      assert (a + [sep] + b)[1..] == a[1..] + [sep] + b;
      PiecesFirst(a[1..], b, sep);
      assert [a[0]] + a[1..] == a;
    }
  }

  /** `s.split(sep)` for a one-character separator: trailing empty pieces are dropped. */
  function RubySplit(s: string, sep: char): (r: seq<string>)
    ensures r == [] || r[|r| - 1] != ""
    ensures forall i :: 0 <= i < |r| ==> sep !in r[i]
  {
    DropTrailingEmpty(Pieces(s, sep))
  }

  function DropTrailingEmpty(ps: seq<string>): (r: seq<string>)
    ensures |r| <= |ps| && r == ps[..|r|]
    ensures r == [] || r[|r| - 1] != ""
    ensures forall i :: |r| <= i < |ps| ==> ps[i] == ""
  {
    if ps == [] || ps[|ps| - 1] != "" then ps else DropTrailingEmpty(ps[..|ps| - 1])
  }

  /** `parts.join(sep)`. */
  function Join(parts: seq<string>, sep: string): string
  {
    if parts == [] then ""
    else if |parts| == 1 then parts[0]
    else parts[0] + sep + Join(parts[1..], sep)
  }

  /** The present parts, in order (`compact_blank`). */
  function CompactBlank(parts: seq<Option<string>>): (r: seq<string>)
    ensures |r| <= |parts|
    ensures forall i :: 0 <= i < |r| ==> Present(r[i])
  {
    if parts == [] then []
    else if BlankOpt(parts[0]) then CompactBlank(parts[1..])
    else [parts[0].value] + CompactBlank(parts[1..])
  }

  /** `[...].compact_blank.join(" ")`, the address formatter used by several models. */
  function JoinPresent(parts: seq<Option<string>>): string
  {
    Join(CompactBlank(parts), " ")
  }

  /** Removing a blank part does not change a joined address. */
  lemma {:induction false} JoinPresentSkipsBlank(pre: seq<Option<string>>, x: Option<string>, post: seq<Option<string>>)
    requires BlankOpt(x)
    ensures JoinPresent(pre + [x] + post) == JoinPresent(pre + post)
  {
    CompactBlankSkipsBlank(pre, x, post);
  }

  lemma {:induction false} CompactBlankSkipsBlank(pre: seq<Option<string>>, x: Option<string>, post: seq<Option<string>>)
    requires BlankOpt(x)
    ensures CompactBlank(pre + [x] + post) == CompactBlank(pre + post)
  {
    if pre == [] {
      assert pre + [x] + post == [x] + post;
      assert ([x] + post)[0] == x;
      assert ([x] + post)[1..] == post;
      assert pre + post == post;
    } else {
      assert (pre + [x] + post)[0] == pre[0];
      assert (pre + [x] + post)[1..] == pre[1..] + [x] + post;
      assert (pre + post)[0] == pre[0];
      assert (pre + post)[1..] == pre[1..] + post;
      CompactBlankSkipsBlank(pre[1..], x, post);
    }
  }

  /** With every part present, nothing is dropped: the parts are joined as given. */
  lemma {:induction false} JoinPresentAllPresent(parts: seq<Option<string>>, vals: seq<string>)
    requires |vals| == |parts|
    requires forall i :: 0 <= i < |parts| ==> parts[i] == Some(vals[i]) && Present(vals[i])
    ensures CompactBlank(parts) == vals
    ensures JoinPresent(parts) == Join(vals, " ")
  {
    if parts != [] {
      JoinPresentAllPresent(parts[1..], vals[1..]);
    }
  }

  /** The `"#{code}: #{name}"` label of the master-data models. */
  function CodeAndName(code: string, name: string): string
  {
    code + ": " + name
  }

  /** The position of the first `x` in `s`, or `|s|` when there is none. */
  function IndexOf(s: string, x: char): (r: nat)
    ensures r <= |s|
    ensures r < |s| ==> s[r] == x
    ensures forall i :: 0 <= i < r ==> s[i] != x
  {
    if s == [] then 0 else if s[0] == x then 0 else 1 + IndexOf(s[1..], x)
  }

  lemma IndexOfAfter(c: string, x: char, rest: string)
    requires x !in c
    ensures IndexOf(c + [x] + rest, x) == |c|
  {
    var s := c + [x] + rest;
    assert s[|c|] == x;
    assert forall i :: 0 <= i < |c| ==> s[i] == c[i];
  }

  /** For codes without a colon the label determines both code and name. */
  lemma CodeAndNameInjective(c1: string, n1: string, c2: string, n2: string)
    requires ':' !in c1 && ':' !in c2
    requires CodeAndName(c1, n1) == CodeAndName(c2, n2)
    ensures c1 == c2 && n1 == n2
  {
    var s := CodeAndName(c1, n1);
    assert s == c1 + [':'] + (" " + n1);
    assert s == c2 + [':'] + (" " + n2);
    IndexOfAfter(c1, ':', " " + n1);
    IndexOfAfter(c2, ':', " " + n2);
    assert c1 == s[..|c1|] == c2;
    assert n1 == s[|c1| + 2..] == n2;
  }

  /** `length: { maximum: n }` on a nullable column (nil passes). */
  predicate LongerThan(s: Option<string>, n: nat)
  {
    s.Some? && |s.value| > n
  }

  /** `length: { maximum: n }, allow_blank: true` (blank values pass). */
  predicate LongerUnlessBlank(s: Option<string>, n: nat)
  {
    !BlankOpt(s) && |s.value| > n
  }

  lemma {:induction false} PiecesWithoutSep(s: string, sep: char)
    requires sep !in s
    ensures Pieces(s, sep) == [s]
  {
    if s != [] {
      PiecesWithoutSep(s[1..], sep);
      assert [s[0]] + s[1..] == s;
    }
  }

  lemma {:induction false} PiecesConcat(a: string, b: string, sep: char)
    requires sep !in a
    ensures Pieces(a + [sep] + b, sep) == [a] + Pieces(b, sep)
  {
    if a == [] {
      assert a + [sep] + b == [sep] + b;
      assert ([sep] + b)[1..] == b;
    } else {
      assert (a + [sep] + b)[0] == a[0];
      assert (a + [sep] + b)[1..] == a[1..] + [sep] + b;
      PiecesConcat(a[1..], b, sep);
      assert [a[0]] + a[1..] == a;
    }
  }

  // ---------------------------------------------------------------------
  // Decimal rendering (Integer#to_s) and parsing back

  predicate IsDigit(c: char)
  {
    '0' <= c <= '9'
  }

  function DigitChar(d: nat): (c: char)
    requires d < 10
    ensures IsDigit(c) && (c as int) - ('0' as int) == d
  {
    ((('0' as int) + d) as char)
  }

  /** `n.to_s` for n >= 0: the shortest decimal numeral. */
  function NatToString(n: nat): (s: string)
    ensures |s| >= 1
    ensures forall i :: 0 <= i < |s| ==> IsDigit(s[i])
    ensures |s| > 1 ==> s[0] != '0'
    decreases n
  {
    if n < 10 then [DigitChar(n)] else NatToString(n / 10) + [DigitChar(n % 10)]
  }

  /** The value of a string of decimal digits. */
  function DigitsValue(s: string): nat
    requires forall i :: 0 <= i < |s| ==> IsDigit(s[i])
  {
    if s == [] then 0
    else
      assert IsDigit(s[|s| - 1]);
      DigitsValue(s[..|s| - 1]) * 10 + ((s[|s| - 1] as int) - ('0' as int))
  }

  /** `to_s` is inverted by reading the digits back. */
  lemma {:induction false} NatToStringValue(n: nat)
    ensures DigitsValue(NatToString(n)) == n
    decreases n
  {
    var s := NatToString(n);
    if n >= 10 {
      NatToStringValue(n / 10);
      assert s[..|s| - 1] == NatToString(n / 10);
    }
  }

  /** `to_s` on integers is one to one. */
  lemma IntToStringInjective(a: int, b: int)
    requires IntToString(a) == IntToString(b)
    ensures a == b
  {
    if a >= 0 && b >= 0 {
      NatToStringValue(a);
      NatToStringValue(b);
    } else if a < 0 && b < 0 {
      assert NatToString(-a) == IntToString(a)[1..] == NatToString(-b);
      NatToStringValue(-a);
      NatToStringValue(-b);
    }
  }

  /** Leading zeros do not change the value of a numeral. */
  lemma {:induction false} LeadingZerosValue(z: nat, s: string)
    requires forall i :: 0 <= i < |s| ==> IsDigit(s[i])
    ensures forall i :: 0 <= i < |Zeros(z) + s| ==> IsDigit((Zeros(z) + s)[i])
    ensures DigitsValue(Zeros(z) + s) == DigitsValue(s)
    decreases |s|
  {
    var t := Zeros(z) + s;
    if s == [] {
      assert t == Zeros(z);
      ZerosValue(z);
    } else {
      assert t[..|t| - 1] == Zeros(z) + s[..|s| - 1];
      LeadingZerosValue(z, s[..|s| - 1]);
    }
  }

  function Zeros(k: nat): (r: string)
    ensures |r| == k && forall i :: 0 <= i < k ==> r[i] == '0'
  {
    if k == 0 then [] else Zeros(k - 1) + ['0']
  }

  lemma {:induction false} ZerosValue(k: nat)
    ensures DigitsValue(Zeros(k)) == 0
  {
    if k > 0 {
      assert Zeros(k)[..k - 1] == Zeros(k - 1);
      ZerosValue(k - 1);
    }
  }

  /** `n.to_s` for any integer: a minus sign before the magnitude. */
  function IntToString(n: int): (s: string)
    ensures n >= 0 ==> s == NatToString(n)
    ensures n < 0 ==> s == "-" + NatToString(-n)
  {
    if n >= 0 then NatToString(n) else "-" + NatToString(-n)
  }

  // String#to_i

  /** The blanks `String#to_i` skips before the number. */
  predicate IsSpaceChar(c: char)
  {
    c == ' ' || c == '\t' || c == '\n' || c == '\U{000B}' || c == '\U{000C}' || c == '\r'
  }

  function SkipSpace(s: string): (r: string)
    ensures r == [] || !IsSpaceChar(r[0])
    ensures |r| <= |s| && r == s[|s| - |r|..]
  {
    if s != [] && IsSpaceChar(s[0]) then SkipSpace(s[1..]) else s
  }

  /** The longest prefix of decimal digits. */
  function LeadingDigits(s: string): (r: string)
    ensures |r| <= |s| && r == s[..|r|]
    ensures forall i :: 0 <= i < |r| ==> IsDigit(r[i])
    ensures |r| < |s| ==> !IsDigit(s[|r|])
  {
    if s != [] && IsDigit(s[0]) then [s[0]] + LeadingDigits(s[1..]) else []
  }

  /** `String#to_i`: leading blanks, an optional sign, then the longest run
    * of digits; 0 when no digit follows. */
  function ToI(s: string): int
  {
    var t := SkipSpace(s);
    if t != [] && (t[0] == '-' || t[0] == '+') then
      var v: int := DigitsValue(LeadingDigits(t[1..]));
      if t[0] == '-' then -v else v
    else DigitsValue(LeadingDigits(t))
  }

  lemma {:induction false} LeadingDigitsOfNumeral(s: string)
    requires forall i :: 0 <= i < |s| ==> IsDigit(s[i])
    ensures LeadingDigits(s) == s
  {
    if s != [] {
      LeadingDigitsOfNumeral(s[1..]);
    }
  }

  /** A plain numeral reads back as its value. */
  lemma ToIOfNumeral(s: string)
    requires |s| > 0 && forall i :: 0 <= i < |s| ==> IsDigit(s[i])
    ensures ToI(s) == DigitsValue(s)
  {
    assert !IsSpaceChar(s[0]) && s[0] != '-' && s[0] != '+';
    assert SkipSpace(s) == s;
    LeadingDigitsOfNumeral(s);
  }

  /** `to_i` inverts `to_s` on every integer. */
  lemma ToIOfIntToString(n: int)
    ensures ToI(IntToString(n)) == n
  {
    if n >= 0 {
      ToIOfNumeral(NatToString(n));
      NatToStringValue(n);
    } else {
      ToIOfNegative(-n);
    }
  }

  lemma ToIOfNegative(m: nat)
    ensures ToI("-" + NatToString(m)) == -(m as int)
  {
    var s := "-" + NatToString(m);
    assert SkipSpace(s) == s;
    assert s[1..] == NatToString(m);
    LeadingDigitsOfNumeral(NatToString(m));
    NatToStringValue(m);
  }

  /** `s.rjust(width, c)`. */
  function PadLeft(s: string, width: nat, c: char): (r: string)
    ensures |s| >= width ==> r == s
    ensures |s| < width ==> |r| == width && r[width - |s|..] == s
    ensures forall i :: 0 <= i < |r| - |s| ==> r[i] == c
  {
    if |s| >= width then s else seq(width - |s|, _ => c) + s
  }

  // ---------------------------------------------------------------------
  // Calendar dates (proleptic Gregorian, as Ruby's Date)

  datatype Date = Date(year: int, month: int, day: int)

  predicate IsLeapYear(y: int)
  {
    (y % 4 == 0 && y % 100 != 0) || y % 400 == 0
  }

  function DaysInMonth(y: int, m: int): (n: int)
    requires 1 <= m <= 12
    ensures 28 <= n <= 31
  {
    if m == 2 then (if IsLeapYear(y) then 29 else 28)
    else if m == 4 || m == 6 || m == 9 || m == 11 then 30
    else 31
  }

  /** `Date.new(y, m, d)` succeeds exactly for these triples. */
  predicate ValidDate(d: Date)
  {
    1 <= d.month <= 12 && 1 <= d.day <= DaysInMonth(d.year, d.month)
  }

  /** Chronological order on dates. */
  predicate Before(a: Date, b: Date)
  {
    a.year < b.year
    || (a.year == b.year && a.month < b.month)
    || (a.year == b.year && a.month == b.month && a.day < b.day)
  }

  predicate NotAfter(a: Date, b: Date)
  {
    a == b || Before(a, b)
  }

  predicate InRange(d: Date, from: Date, to: Date)
  {
    NotAfter(from, d) && NotAfter(d, to)
  }

  function BeginningOfMonth(d: Date): (r: Date)
    requires ValidDate(d)
    ensures ValidDate(r) && r.year == d.year && r.month == d.month && r.day == 1
    ensures NotAfter(r, d)
  {
    Date(d.year, d.month, 1)
  }

  function EndOfMonth(d: Date): (r: Date)
    requires ValidDate(d)
    ensures ValidDate(r) && r.year == d.year && r.month == d.month
    ensures NotAfter(d, r)
    ensures forall x :: ValidDate(x) && x.year == d.year && x.month == d.month ==> NotAfter(x, r)
  {
    Date(d.year, d.month, DaysInMonth(d.year, d.month))
  }

  /** The first day of the month `k` months after the month of `d` (`>> k` on a month start). */
  function AddMonths(d: Date, k: nat): (r: Date)
    requires ValidDate(d)
    ensures ValidDate(r) && r.day == 1
    ensures r.year * 12 + (r.month - 1) == d.year * 12 + (d.month - 1) + k
  {
    var idx := d.year * 12 + (d.month - 1) + k;
    Date(idx / 12, idx % 12 + 1, 1)
  }

  /** The error `Date.new` raises for a nil or impossible month. */
  datatype DateError = InvalidDate

  /** `Date.new(year, month, 1)`: Ruby also accepts a month counted back from
    * December (-1 is December); a nil part or any other month raises. */
  function MonthStart(year: Option<int>, month: Option<int>): (r: Result<Date, DateError>)
    ensures r.Ok? ==> year.Some? && ValidDate(r.value) && r.value.day == 1 && r.value.year == year.value
    ensures year.Some? && month.Some? && 1 <= month.value <= 12 ==> r == Ok(Date(year.value, month.value, 1))
    ensures r.Err? <==> year.None? || month.None? || !(1 <= month.value <= 12 || -12 <= month.value <= -1)
  {
    if year.None? || month.None? then Err(InvalidDate)
    else if 1 <= month.value <= 12 then Ok(Date(year.value, month.value, 1))
    else if -12 <= month.value <= -1 then Ok(Date(year.value, month.value + 13, 1))
    else Err(InvalidDate)
  }
}
