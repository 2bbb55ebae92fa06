// The centers screen: the billing-flag normalization `create` and `update`
// apply to the posted form before saving, the soft `destroy`, the
// whitelisted sort of the list, and the CSV import of centers for one
// company.  The actions are modelled after `authorize` has let them through.

module CustomersController {
  import opened Common
  import opened Web
  import Customers
  import CenterAssignmentImport

  // ---------------------------------------------------------------------
  // The posted form and the billing flag

  /** The permitted `customer` parameters.  Text fields are `None` when the
    * form does not send them; ids arrive already cast, except the billing
    * center id, whose blankness the controller tests on the posted text. */
  datatype CustomerParams = CustomerParams(
    companyId: Option<Id>,
    billingCenterId: Option<string>,
    isBillingCenter: Customers.FlagValue,
    centerCode: Option<string>,
    centerName: Option<string>,
    postalCode: Option<string>,
    prefecture: Option<string>,
    city: Option<string>,
    address1: Option<string>,
    address2: Option<string>,
    isActive: Option<bool>,
    approverProfileId: Option<Id>)

  /** The controller's reading of the posted flag: `'1'`, `true` or `'true'`. */
  predicate PostedAsBillingCenter(v: Customers.FlagValue)
  {
    v == Customers.FlagText("1") || v == Customers.FlagBool(true) || v == Customers.FlagText("true")
  }

  /** The form after normalization: it goes on to the save, or it is a
    * receiving center without a billing center and is refused. */
  datatype Normalized = Proceed(p: CustomerParams) | MissingBillingCenter(p: CustomerParams)

  /** A billing center loses its billing center id and gets `true`; anything
    * else becomes a receiving center (`false`) that must name its billing
    * center.  No other parameter changes. */
  function NormalizeBillingFlag(p: CustomerParams): (r: Normalized)
    ensures r.p.isBillingCenter == Customers.FlagBool(PostedAsBillingCenter(p.isBillingCenter))
    ensures PostedAsBillingCenter(p.isBillingCenter) ==> r.Proceed? && r.p.billingCenterId == Some("")
    ensures !PostedAsBillingCenter(p.isBillingCenter) ==>
              r.p.billingCenterId == p.billingCenterId && (r.MissingBillingCenter? <==> BlankOpt(p.billingCenterId))
    ensures r.p == p.(isBillingCenter := r.p.isBillingCenter, billingCenterId := r.p.billingCenterId)
  {
    if PostedAsBillingCenter(p.isBillingCenter) then
      Proceed(p.(billingCenterId := Some(""), isBillingCenter := Customers.FlagBool(true)))
    else
      var q := p.(isBillingCenter := Customers.FlagBool(false));
      if BlankOpt(p.billingCenterId) then MissingBillingCenter(q) else Proceed(q)
  }

  /** The integer cast of a posted id, both when it is assigned to an id
    * column and when `find_by(id: ...)` casts it: blank text is nil, any
    * other text is its `to_i` (leading spaces, a sign and the leading
    * digits; the rest is ignored, and text without digits is 0).  Ids are
    * non-negative, so a negative number names no row and reads as nil. */
  function CastId(s: string): (r: Option<Id>)
    ensures Blank(s) ==> r.None?
    ensures Present(s) && ToI(s) >= 0 ==> r == Some(ToI(s))
    ensures r.Some? ==> Present(s) && r.value == ToI(s)
  {
    if Blank(s) then None
    else
      var n := ToI(s);
      if n >= 0 then Some(n) else None
  }

  /** The cast reads a number off the front of the text, as `to_i` does,
    * and not only a text that is all digits. */
  lemma CastIdReadsLeadingNumber()
    ensures CastId("12abc") == Some(12)
  {
    var d: string := "12";
    var t: string := "12abc";
    assert DigitsValue(d) == 12 by { assert d[..1] == "1"; }
    assert t == d + t[2..];
    NumeralThenText(d, t[2..]);
  }

  /** Leading spaces are skipped. */
  lemma CastIdSkipsLeadingSpace()
    ensures CastId(" 12") == Some(12)
  {
    var d: string := "12";
    assert DigitsValue(d) == 12 by { assert d[..1] == "1"; }
    NumeralThenText(d, "");
    assert d + "" == d;
    var u: string := " 12";
    CastIdSkipsSpace(u);
    assert u[1..] == d;
  }

  lemma CastIdSkipsSpace(s: string)
    requires s != [] && IsSpaceChar(s[0])
    ensures CastId(s) == CastId(s[1..])
  {
    ToISkipsSpace(s);
    SpaceIsBlank(s[0]);
    BlankFirstAndRest(s);
  }

  lemma ToISkipsSpace(s: string)
    requires s != [] && IsSpaceChar(s[0])
    ensures ToI(s) == ToI(s[1..])
  {
    assert SkipSpace(s) == SkipSpace(s[1..]);
  }

  lemma SpaceIsBlank(c: char)
    requires IsSpaceChar(c)
    ensures IsBlankChar(c)
  {
  }

  /** Text is blank iff its first character is blank and so is the rest. */
  lemma BlankFirstAndRest(s: string)
    requires s != []
    ensures Blank(s) <==> IsBlankChar(s[0]) && Blank(s[1..])
  {
    if IsBlankChar(s[0]) && Blank(s[1..]) {
      forall i | 0 <= i < |s| ensures IsBlankChar(s[i]) {
        if i > 0 { assert s[i] == s[1..][i - 1]; }
      }
    }
  }

  /** A numeral followed by text that does not start with a digit casts to
    * the numeral's value. */
  lemma NumeralThenText(d: string, rest: string)
    requires |d| > 0 && forall i :: 0 <= i < |d| ==> IsDigit(d[i])
    requires rest == [] || !IsDigit(rest[0])
    ensures ToI(d + rest) == DigitsValue(d) && CastId(d + rest) == Some(DigitsValue(d))
  {
    NumeralThenTextToI(d, rest);
    var t := d + rest;
    assert t[0] == d[0];
    DigitFirstIsPresent(t);
  }

  lemma DigitFirstIsPresent(s: string)
    requires s != [] && IsDigit(s[0])
    ensures Present(s)
  {
    assert !IsBlankChar(s[0]);
  }

  /** `to_i` of a numeral followed by text that does not start with a digit. */
  lemma NumeralThenTextToI(d: string, rest: string)
    requires |d| > 0 && forall i :: 0 <= i < |d| ==> IsDigit(d[i])
    requires rest == [] || !IsDigit(rest[0])
    ensures ToI(d + rest) == DigitsValue(d)
  {
    var t := d + rest;
    assert SkipSpace(t) == t by {
      assert IsDigit(t[0]);
      assert !IsSpaceChar(t[0]);
    }
    assert t[0] != '-' && t[0] != '+' by { assert IsDigit(t[0]); }
    LeadingDigitsOfNumeralThen(d, rest);
  }

  lemma {:induction false} LeadingDigitsOfNumeralThen(d: string, rest: string)
    requires forall i :: 0 <= i < |d| ==> IsDigit(d[i])
    requires rest == [] || !IsDigit(rest[0])
    ensures LeadingDigits(d + rest) == d
  {
    if d != [] {
      assert (d + rest)[1..] == d[1..] + rest;
      LeadingDigitsOfNumeralThen(d[1..], rest);
    }
  }

  /** Text without digits is 0, and blank text and negative numbers are nil. */
  lemma CastIdOtherText()
    ensures CastId("abc") == Some(0)
    ensures CastId("") == None && CastId(" ") == None
    ensures CastId("-3") == None
  {
    var t: string := "abc";
    assert !IsDigit(t[0]) && !IsSpaceChar(t[0]);
    assert LeadingDigits(t) == [] && SkipSpace(t) == t;
    assert ToI(t) == 0;
    assert !IsBlankChar(t[0]);
    var m: string := "-3";
    assert SkipSpace(m) == m;
    assert m[1..] == "3";
    assert LeadingDigits(m[1..]) == m[1..] by { assert LeadingDigits(m[2..]) == []; }
    assert DigitsValue(m[1..]) == 3;
    assert ToI(m) == -3;
    assert !IsBlankChar(m[0]);
  }

  function Keep<T>(current: Option<T>, posted: Option<T>): Option<T>
  {
    if posted.Some? then posted else current
  }

  /** `assign_attributes` of a normalized form: every posted field replaces
    * the column, the flag is the normalized boolean and the billing center id
    * is the cast text (nil for a billing center). */
  function AssignParams(c: Customers.Customer, p: CustomerParams): Customers.Customer
  {
    c.(companyId := Keep(c.companyId, p.companyId),
       centerCode := Keep(c.centerCode, p.centerCode),
       centerName := Keep(c.centerName, p.centerName),
       postalCode := Keep(c.postalCode, p.postalCode),
       prefecture := Keep(c.prefecture, p.prefecture),
       city := Keep(c.city, p.city),
       address1 := Keep(c.address1, p.address1),
       address2 := Keep(c.address2, p.address2),
       isActive := if p.isActive.Some? then p.isActive.value else c.isActive,
       isBillingCenter := p.isBillingCenter == Customers.FlagBool(true),
       billingCenterId := if p.billingCenterId.Some? then CastId(p.billingCenterId.value) else c.billingCenterId,
       approverProfileId := Keep(c.approverProfileId, p.approverProfileId))
  }

  /** A new row with the column defaults (active, not a billing center). */
  function DefaultCustomer(id: Id): Customers.Customer
  {
    Customers.Customer(id, None, None, None, None, None, None, None, None, true, false, None, None)
  }

  /** The saved record keeps the normalized decision: a billing center has no
    * billing center of its own, and the model method reads the stored flag
    * the way the controller decided it. */
  lemma NormalizedRecordFollowsFlag(c: Customers.Customer, p: CustomerParams)
    requires NormalizeBillingFlag(p).Proceed?
    ensures var rec := AssignParams(c, NormalizeBillingFlag(p).p);
            rec.isBillingCenter == PostedAsBillingCenter(p.isBillingCenter)
            && Customers.IsBillingCenter(rec) == PostedAsBillingCenter(p.isBillingCenter)
            && (rec.isBillingCenter ==> rec.billingCenterId.None?)
  {
    var q := NormalizeBillingFlag(p).p;
    if PostedAsBillingCenter(p.isBillingCenter) {
      assert q.billingCenterId == Some("");
      assert CastId("") == None;
    }
  }

  /** On `create` the refusal only anticipates the model: the new record the
    * refused form would have built fails the receiving-center rule anyway. */
  lemma RefusalAnticipatesValidation(id: Id, p: CustomerParams, table: map<Id, Customers.Customer>)
    requires NormalizeBillingFlag(p).MissingBillingCenter?
    ensures Customers.BillingCenterMissing in Customers.CustomerErrors(AssignParams(DefaultCustomer(id), NormalizeBillingFlag(p).p), table)
  {
    var rec := AssignParams(DefaultCustomer(id), NormalizeBillingFlag(p).p);
    assert p.billingCenterId.Some? ==> CastId(p.billingCenterId.value) == None;
    assert Customers.Violates(Customers.BillingCenterMissing, rec, table);
  }

  /** On `update` the refusal is stricter than the model: a form that leaves
    * the billing center out is refused even when the stored row has one. */
  lemma UpdateRefusalStricter(c: Customers.Customer, p: CustomerParams, table: map<Id, Customers.Customer>)
    requires p.billingCenterId.None? && !PostedAsBillingCenter(p.isBillingCenter)
    requires c.billingCenterId.Some?
    ensures NormalizeBillingFlag(p).MissingBillingCenter?
    ensures AssignParams(c, NormalizeBillingFlag(p).p).billingCenterId == c.billingCenterId
    ensures Customers.BillingCenterMissing !in Customers.CustomerErrors(AssignParams(c, NormalizeBillingFlag(p).p), table)
  {
  }

  /** The controller's test and `is_billing_center?` are written over
    * different raw values: `'true'` passes the first but not the second, and
    * the number `1` the other way round.  The difference is only in the text:
    * `is_billing_center` is a boolean column, so the model method only ever
    * reads a cast boolean, and on booleans the two tests agree. */
  lemma ControllerAndModelFlagReadings()
    ensures PostedAsBillingCenter(Customers.FlagText("true")) && !Customers.FlagIsBillingCenter(Customers.FlagText("true"))
    ensures !PostedAsBillingCenter(Customers.FlagInt(1)) && Customers.FlagIsBillingCenter(Customers.FlagInt(1))
    ensures forall b: bool :: PostedAsBillingCenter(Customers.FlagBool(b)) == Customers.FlagIsBillingCenter(Customers.FlagBool(b))
  {
  }

  // ---------------------------------------------------------------------
  // create, update, destroy

  /** What an action leaves behind: the response and the customers table. */
  datatype Outcome = Outcome(resp: Response, table: map<Id, Customers.Customer>)

  const CreatedKey: string := "customers.created"
  const UpdatedKey: string := "customers.updated"
  const DeactivatedKey: string := "customers.deactivated"
  const DeactivateFailedKey: string := "customers.deactivate_failed"

  /** `create`: the refused form and an invalid record render `new` with 422
    * and save nothing; a valid record is stored under the new `id`. */
  function Create(p: CustomerParams, id: Id, table: map<Id, Customers.Customer>): (r: Outcome)
    requires id !in table
    ensures r.table != table <==> r.resp == RedirectWith(CustomerPage(id), Notice(CreatedKey))
    ensures r.table != table ==>
              NormalizeBillingFlag(p).Proceed? && r.table == table[id := AssignParams(DefaultCustomer(id), NormalizeBillingFlag(p).p)]
              && Customers.CustomerValid(r.table[id], table)
    ensures r.table == table ==> r.resp == Render("new", Unprocessable)
    ensures NormalizeBillingFlag(p).Proceed?
            && Customers.CustomerValid(AssignParams(DefaultCustomer(id), NormalizeBillingFlag(p).p), table) ==>
              r.table == table[id := AssignParams(DefaultCustomer(id), NormalizeBillingFlag(p).p)]
              && r.resp == RedirectWith(CustomerPage(id), Notice(CreatedKey))
  {
    match NormalizeBillingFlag(p)
    case MissingBillingCenter(_) => Outcome(Render("new", Unprocessable), table)
    case Proceed(q) =>
      var rec := AssignParams(DefaultCustomer(id), q);
      if Customers.CustomerValid(rec, table) then
        assert table[id := rec] != table by { assert id in table[id := rec]; }
        Outcome(RedirectWith(CustomerPage(id), Notice(CreatedKey)), table[id := rec])
      else Outcome(Render("new", Unprocessable), table)
  }

  /** `update` of the stored row `id`: the same two refusals render `edit`. */
  function Update(p: CustomerParams, id: Id, table: map<Id, Customers.Customer>): (r: Outcome)
    requires id in table
    ensures r.resp.Redirect? ==>
              NormalizeBillingFlag(p).Proceed? && r.table == table[id := AssignParams(table[id], NormalizeBillingFlag(p).p)]
              && Customers.CustomerValid(r.table[id], table) && r.resp.flash == Notice(UpdatedKey)
    ensures !r.resp.Redirect? ==> r.table == table && r.resp == Render("edit", Unprocessable)
    ensures NormalizeBillingFlag(p).Proceed?
            && Customers.CustomerValid(AssignParams(table[id], NormalizeBillingFlag(p).p), table) ==>
              r.table == table[id := AssignParams(table[id], NormalizeBillingFlag(p).p)]
              && r.resp == RedirectWith(CustomerPage(id), Notice(UpdatedKey))
  {
    match NormalizeBillingFlag(p)
    case MissingBillingCenter(_) => Outcome(Render("edit", Unprocessable), table)
    case Proceed(q) =>
      var rec := AssignParams(table[id], q);
      if Customers.CustomerValid(rec, table) then
        Outcome(RedirectWith(CustomerPage(id), Notice(UpdatedKey)), table[id := rec])
      else Outcome(Render("edit", Unprocessable), table)
  }

  /** `destroy` is a soft delete: only `is_active` goes false, and only when
    * the row still passes its validations. */
  function Destroy(id: Id, table: map<Id, Customers.Customer>): (r: Outcome)
    requires id in table
    ensures r.table.Keys == table.Keys
    ensures r.table[id] == table[id] || r.table[id] == table[id].(isActive := false)
    ensures forall k :: k in table && k != id ==> r.table[k] == table[k]
    ensures r.resp == RedirectWith(CustomersIndex, Notice(DeactivatedKey)) <==> Customers.CustomerValid(table[id], table)
  {
    var rec := table[id].(isActive := false);
    DeactivationKeepsErrors(table[id], table);
    if Customers.CustomerValid(rec, table) then
      Outcome(RedirectWith(CustomersIndex, Notice(DeactivatedKey)), table[id := rec])
    else Outcome(RedirectWith(CustomerPage(id), Alert(DeactivateFailedKey)), table)
  }

  /** No validation looks at `is_active`: deactivating a row leaves its errors
    * as they were. */
  lemma DeactivationKeepsErrors(c: Customers.Customer, table: map<Id, Customers.Customer>)
    ensures Customers.CustomerErrors(c.(isActive := false), table) == Customers.CustomerErrors(c, table)
  {
    var d := c.(isActive := false);
    forall e ensures Customers.Violates(e, d, table) == Customers.Violates(e, c, table) {
      assert Customers.BillingCenterOf(d, table) == Customers.BillingCenterOf(c, table);
    }
  }

  // ---------------------------------------------------------------------
  // Sorting

  const SortableColumns: seq<string> := ["center_code", "center_name", "prefecture", "city", "is_active"]

  /** `params[:x].to_s`. */
  function ParamText(x: Option<string>): string
  {
    if x.Some? then x.value else ""
  }

  /** `sort_column`: a listed column, otherwise `center_code`. */
  function SortColumn(sort: Option<string>): (r: string)
    ensures r in SortableColumns
    ensures r == ParamText(sort) <==> ParamText(sort) in SortableColumns
  {
    if ParamText(sort) in SortableColumns then ParamText(sort)
    else
      assert ParamText(sort) != "center_code";
      "center_code"
  }

  /** `sort_direction`: `asc` or `desc`, otherwise `asc`. */
  function SortDirection(direction: Option<string>): (r: string)
    ensures r == "asc" || r == "desc"
    ensures r == ParamText(direction) <==> ParamText(direction) in ["asc", "desc"]
  {
    if ParamText(direction) in ["asc", "desc"] then ParamText(direction) else "asc"
  }

  function Upcase(direction: string): string
  {
    if direction == "desc" then "DESC" else "ASC"
  }

  /** `sort_order`: the ORDER BY text. */
  function SortOrder(sort: Option<string>, direction: Option<string>): string
  {
    SortColumn(sort) + " " + Upcase(SortDirection(direction))
  }

  /** Whatever is posted, the ORDER BY text is one of the ten whitelisted
    * clauses, and each of them is reached by naming it. */
  lemma SortOrderWhitelisted(sort: Option<string>, direction: Option<string>)
    ensures exists k, d :: 0 <= k < |SortableColumns| && d in ["ASC", "DESC"]
                           && SortOrder(sort, direction) == SortableColumns[k] + " " + d
    ensures ParamText(sort) in SortableColumns && ParamText(direction) in ["asc", "desc"] ==>
              SortOrder(sort, direction) == ParamText(sort) + " " + Upcase(ParamText(direction))
  {
    var col := SortColumn(sort);
    var k :| 0 <= k < |SortableColumns| && SortableColumns[k] == col;
    var d := Upcase(SortDirection(direction));
    assert d in ["ASC", "DESC"];
    assert SortOrder(sort, direction) == SortableColumns[k] + " " + d;
  }

  // ---------------------------------------------------------------------
  // CSV import

  /** One data row of the file: the cell under each header it has. */
  type CsvRow = map<string, string>

  /** What `CSV.parse(content, headers: true)` gives: the header row (a
    * header cell may be nil) and the data rows, or a malformed file. */
  datatype Csv = Parsed(headers: Option<seq<Option<string>>>, rows: seq<CsvRow>) | Malformed

  /** `row[header]`: nil when the row has no such header. */
  function Cell(row: CsvRow, header: string): Option<string>
  {
    if header in row then Some(row[header]) else None
  }

  datatype ImportFailure = InvalidFormat | MissingHeaders(headers: seq<string>) | CsvParseError | UnknownError

  /** One entry of `import_errors`, with its 1-based line in the file. */
  datatype RowError =
    | RequiredFieldsMissing(row: nat)
    | RecordInvalid(row: nat, errors: set<Customers.CustomerError>, centerCode: string)
    | RowRaised(row: nat)

  datatype ImportResult =
    | Failed(failure: ImportFailure)
    | Finished(success: bool, created: nat, updated: nat, errorCount: nat, importErrors: seq<RowError>)

  const RequiredHeaders: seq<string> := ["center_code", "center_name"]

  /** `csv.headers.map(&:downcase)`: nil when some header is nil (the call
    * raises). */
  function DowncaseHeaders(hs: seq<Option<string>>): (r: Option<seq<string>>)
    ensures r.Some? <==> forall i :: 0 <= i < |hs| ==> hs[i].Some?
    ensures r.Some? ==> |r.value| == |hs| && forall i :: 0 <= i < |hs| ==> r.value[i] == Downcase(hs[i].value)
  {
    if hs == [] then Some([])
    else if hs[0].None? then None
    else
      match DowncaseHeaders(hs[1..])
      case None => None
      case Some(rest) => Some([Downcase(hs[0].value)] + rest)
  }

  /** `required_headers - downcased`, in the order of the required list. */
  function Missing(required: seq<string>, present: seq<string>): (r: seq<string>)
    ensures forall h :: h in r <==> h in required && h !in present
  {
    if required == [] then []
    else (if required[0] in present then [] else [required[0]]) + Missing(required[1..], present)
  }

  /** The checks before any row is read. */
  function HeaderFailure(headers: Option<seq<Option<string>>>): (r: Option<ImportFailure>)
    ensures r.None? <==> headers.Some? && headers.value != [] && DowncaseHeaders(headers.value).Some?
                         && forall h :: h in RequiredHeaders ==> h in DowncaseHeaders(headers.value).value
  {
    if headers.None? || headers.value == [] then Some(InvalidFormat)
    else
      match DowncaseHeaders(headers.value)
      case None => Some(UnknownError)
      case Some(ds) =>
        var missing := Missing(RequiredHeaders, ds);
        if missing != [] then
          assert missing[0] in missing;
          Some(MissingHeaders(missing))
        else
          assert forall h :: h in RequiredHeaders ==> h in ds;
          None
  }

  /** The imported `is_active`: a blank cell, `"1"` or `"true"` in any case. */
  function ImportedActive(cell: Option<string>): bool
  {
    (cell.Some? && Downcase(Strip(cell.value)) == "true") || (cell.Some? && Strip(cell.value) == "1") || BlankOpt(cell)
  }

  /** `find_or_initialize_by(company:, center_code:)` looks up the first row
    * of the company with the code, in primary-key order. */
  predicate CodeMatches(c: Customers.Customer, company: Id, code: string)
  {
    c.companyId == Some(company) && c.centerCode == Some(code)
  }

  function FindByCode(rows: seq<Customers.Customer>, company: Id, code: string): Option<nat>
  {
    CenterAssignmentImport.FirstIndex(rows, (c: Customers.Customer) => CodeMatches(c, company, code))
  }

  /** The customers table as the validations see it. */
  function TableOf(rows: seq<Customers.Customer>): map<Id, Customers.Customer>
  {
    if rows == [] then map[] else TableOf(rows[..|rows| - 1])[rows[|rows| - 1].id := rows[|rows| - 1]]
  }

  /** The record `find_or_initialize_by` starts a new code from: the company
    * and code, the column defaults otherwise.  As written it is a receiving
    * center without billing center; the corrected import makes it a billing
    * center. */
  function NewCenter(id: Id, company: Id, code: string, corrected: bool): Customers.Customer
  {
    DefaultCustomer(id).(companyId := Some(company), centerCode := Some(code), isBillingCenter := corrected)
  }

  /** `assign_attributes` of a row: the name, the stripped address cells (an
    * absent cell clears the column) and the imported `is_active`. */
  function AssignRow(c: Customers.Customer, row: CsvRow, name: string): Customers.Customer
  {
    c.(centerName := Some(name),
       postalCode := StripOpt(Cell(row, "postal_code")),
       prefecture := StripOpt(Cell(row, "prefecture")),
       city := StripOpt(Cell(row, "city")),
       address1 := StripOpt(Cell(row, "address1")),
       address2 := StripOpt(Cell(row, "address2")),
       isActive := ImportedActive(Cell(row, "is_active")))
  }

  /** The state the row loop carries: the customers rows in primary-key
    * order, the next id the database gives, the counters and the errors. */
  datatype Tally = Tally(rows: seq<Customers.Customer>, nextId: Id, created: nat, updated: nat, errors: seq<RowError>)

  /** One row of the loop.  As written, a saved row goes on to
    * `persisted_before_last_save?`, which `ActiveRecord` does not define: the
    * `NoMethodError` is rescued as a row error after the save, so the row is
    * stored but reported as failed.  The corrected row counts it instead. */
  function RowStep(t: Tally, row: CsvRow, line: nat, company: Id, corrected: bool): (r: Tally)
    ensures |t.errors| <= |r.errors| <= |t.errors| + 1 && r.errors[..|t.errors|] == t.errors
    ensures |r.errors| > |t.errors| ==> r.errors[|t.errors|].row == line
    ensures corrected ==> r.created + r.updated + |r.errors| == t.created + t.updated + |t.errors| + 1
    ensures !corrected ==> r.created == t.created && r.updated == t.updated && |r.errors| == |t.errors| + 1
  {
    var code := StripOpt(Cell(row, "center_code"));
    var name := StripOpt(Cell(row, "center_name"));
    if BlankOpt(code) || BlankOpt(name) then
      t.(errors := t.errors + [RequiredFieldsMissing(line)])
    else
      var found := FindByCode(t.rows, company, code.value);
      var base := if found.Some? then t.rows[found.value] else NewCenter(t.nextId, company, code.value, corrected);
      var c := AssignRow(base, row, name.value);
      var errs := Customers.CustomerErrors(c, TableOf(t.rows));
      if errs != {} then
        t.(errors := t.errors + [RecordInvalid(line, errs, code.value)])
      else
        var saved := if found.Some? then t.(rows := t.rows[found.value := c])
                     else t.(rows := t.rows + [c], nextId := t.nextId + 1);
        if !corrected then saved.(errors := saved.errors + [RowRaised(line)])
        else if found.Some? then saved.(updated := saved.updated + 1)
        else saved.(created := saved.created + 1)
  }

  /** The rows from index `i` on; the row at index `i` is line `i + 2` of the
    * file (the header is line 1). */
  function ImportRows(t: Tally, csvRows: seq<CsvRow>, i: nat, company: Id, corrected: bool): Tally
    decreases |csvRows| - i
  {
    if i >= |csvRows| then t
    else ImportRows(RowStep(t, csvRows[i], i + 2, company, corrected), csvRows, i + 1, company, corrected)
  }

  /** A whole import: its result and the customers table it leaves. */
  datatype ImportRun = ImportRun(result: ImportResult, rows: seq<Customers.Customer>, nextId: Id)

  function ImportSpec(csv: Csv, company: Id, rows: seq<Customers.Customer>, nextId: Id, corrected: bool): ImportRun
  {
    if csv.Malformed? then ImportRun(Failed(CsvParseError), rows, nextId)
    else if HeaderFailure(csv.headers).Some? then ImportRun(Failed(HeaderFailure(csv.headers).value), rows, nextId)
    else
      var f := ImportRows(Tally(rows, nextId, 0, 0, []), csv.rows, 0, company, corrected);
      ImportRun(Finished(|f.errors| == 0, f.created, f.updated, |f.errors|, f.errors), f.rows, f.nextId)
  }

  /** Every row from index `i` on leaves exactly one trace: as written always
    * an error and never a count; corrected either a count or an error. */
  lemma {:induction false} ImportRowsAccounting(t: Tally, csvRows: seq<CsvRow>, i: nat, company: Id, corrected: bool)
    requires i <= |csvRows|
    ensures var f := ImportRows(t, csvRows, i, company, corrected);
            (corrected ==> f.created + f.updated + |f.errors| == t.created + t.updated + |t.errors| + (|csvRows| - i))
            && (!corrected ==> f.created == t.created && f.updated == t.updated && |f.errors| == |t.errors| + (|csvRows| - i))
    decreases |csvRows| - i
  {
    if i < |csvRows| {
      ImportRowsAccounting(RowStep(t, csvRows[i], i + 2, company, corrected), csvRows, i + 1, company, corrected);
    }
  }

  /** As written, an import that reaches the rows succeeds only for a file
    * with no data rows, and never reports a created or updated center. */
  lemma AsWrittenImportNeverSucceeds(csv: Csv, company: Id, rows: seq<Customers.Customer>, nextId: Id)
    requires csv.Parsed? && HeaderFailure(csv.headers).None?
    ensures var r := ImportSpec(csv, company, rows, nextId, false).result;
            r.Finished? && r.created == 0 && r.updated == 0 && r.errorCount == |csv.rows|
            && (r.success <==> csv.rows == [])
  {
    ImportRowsAccounting(Tally(rows, nextId, 0, 0, []), csv.rows, 0, company, false);
  }

  /** Corrected, the import succeeds exactly when every row was stored, as
    * created or updated. */
  lemma CorrectedImportCounts(csv: Csv, company: Id, rows: seq<Customers.Customer>, nextId: Id)
    requires csv.Parsed? && HeaderFailure(csv.headers).None?
    ensures var r := ImportSpec(csv, company, rows, nextId, true).result;
            r.Finished? && r.created + r.updated + r.errorCount == |csv.rows|
            && (r.success <==> r.created + r.updated == |csv.rows|)
  {
    ImportRowsAccounting(Tally(rows, nextId, 0, 0, []), csv.rows, 0, company, true);
  }

  /** The errors are numbered by file line: in ascending order, between line
    * `lo` and line `hi`. */
  predicate Numbered(errs: seq<RowError>, lo: nat, hi: nat)
  {
    (forall k :: 0 <= k < |errs| ==> lo <= errs[k].row <= hi)
    && (forall k, l :: 0 <= k < l < |errs| ==> errs[k].row < errs[l].row)
  }

  lemma PrefixChain<T>(t: seq<T>, s: seq<T>, f: seq<T>)
    requires |t| <= |s| <= |f| && s[..|t|] == t && f[..|s|] == s
    ensures f[..|t|] == t && f[|t|..] == s[|t|..] + f[|s|..]
  {
    assert f[..|t|] == f[..|s|][..|t|];
    assert f[|t|..] == f[|t|..|s|] + f[|s|..];
  }

  lemma NumberedCons(a: seq<RowError>, b: seq<RowError>, lo: nat, hi: nat)
    requires lo <= hi && |a| <= 1 && (|a| == 1 ==> a[0].row == lo) && Numbered(b, lo + 1, hi)
    ensures Numbered(a + b, lo, hi)
  {
  }

  /** The errors the rows from index `i` on add follow the file: one line
    * number per row, ascending, from `i + 2` to the last line. */
  lemma {:induction false} ErrorsNumbered(t: Tally, csvRows: seq<CsvRow>, i: nat, company: Id, corrected: bool)
    requires i <= |csvRows|
    ensures var f := ImportRows(t, csvRows, i, company, corrected);
            |t.errors| <= |f.errors| && f.errors[..|t.errors|] == t.errors
            && Numbered(f.errors[|t.errors|..], i + 2, |csvRows| + 1)
    decreases |csvRows| - i
  {
    if i < |csvRows| {
      var s := RowStep(t, csvRows[i], i + 2, company, corrected);
      ErrorsNumbered(s, csvRows, i + 1, company, corrected);
      var f := ImportRows(s, csvRows, i + 1, company, corrected);
      PrefixChain(t.errors, s.errors, f.errors);
      NumberedCons(s.errors[|t.errors|..], f.errors[|s.errors|..], i + 2, |csvRows| + 1);
    }
  }

  /** Every import error carries a real line of the file, in order. */
  lemma ImportErrorsNumbered(csv: Csv, company: Id, rows: seq<Customers.Customer>, nextId: Id, corrected: bool)
    requires csv.Parsed? && HeaderFailure(csv.headers).None?
    ensures var r := ImportSpec(csv, company, rows, nextId, corrected).result;
            r.Finished? && Numbered(r.importErrors, 2, |csv.rows| + 1)
  {
    ErrorsNumbered(Tally(rows, nextId, 0, 0, []), csv.rows, 0, company, corrected);
    var f := ImportRows(Tally(rows, nextId, 0, 0, []), csv.rows, 0, company, corrected);
    assert f.errors[0..] == f.errors;
  }

  /** Rows of other companies are left as they were, and every added row
    * belongs to the importing company. */
  predicate OnlyCompanyChanged(before: seq<Customers.Customer>, after: seq<Customers.Customer>, company: Id)
  {
    |before| <= |after|
    && (forall k :: 0 <= k < |before| && before[k].companyId != Some(company) ==> after[k] == before[k])
    && (forall k :: 0 <= k < |before| ==> after[k].id == before[k].id && after[k].companyId == before[k].companyId)
    && (forall k :: |before| <= k < |after| ==> after[k].companyId == Some(company))
  }

  lemma RowStepIsolated(t: Tally, row: CsvRow, line: nat, company: Id, corrected: bool)
    ensures OnlyCompanyChanged(t.rows, RowStep(t, row, line, company, corrected).rows, company)
  {
  }

  lemma {:induction false} ImportRowsIsolated(t: Tally, csvRows: seq<CsvRow>, i: nat, company: Id, corrected: bool)
    requires i <= |csvRows|
    ensures OnlyCompanyChanged(t.rows, ImportRows(t, csvRows, i, company, corrected).rows, company)
    decreases |csvRows| - i
  {
    if i < |csvRows| {
      var s := RowStep(t, csvRows[i], i + 2, company, corrected);
      RowStepIsolated(t, csvRows[i], i + 2, company, corrected);
      ImportRowsIsolated(s, csvRows, i + 1, company, corrected);
    }
  }

  /** The import writes only the importing company's centers. */
  lemma ImportIsolated(csv: Csv, company: Id, rows: seq<Customers.Customer>, nextId: Id, corrected: bool)
    ensures OnlyCompanyChanged(rows, ImportSpec(csv, company, rows, nextId, corrected).rows, company)
  {
    if csv.Parsed? && HeaderFailure(csv.headers).None? {
      ImportRowsIsolated(Tally(rows, nextId, 0, 0, []), csv.rows, 0, company, corrected);
    }
  }

  /** As written, a row with a new code and both names present is never
    * stored: the record it starts is a receiving center without billing
    * center, whatever its cells hold. */
  lemma AsWrittenNewCenterRejected(t: Tally, row: CsvRow, line: nat, company: Id)
    requires !BlankOpt(StripOpt(Cell(row, "center_code"))) && !BlankOpt(StripOpt(Cell(row, "center_name")))
    requires FindByCode(t.rows, company, Strip(Cell(row, "center_code").value)).None?
    ensures var r := RowStep(t, row, line, company, false);
            r.rows == t.rows && r.errors[|t.errors|].RecordInvalid?
            && Customers.BillingCenterMissing in r.errors[|t.errors|].errors
  {
    var code := Strip(Cell(row, "center_code").value);
    var name := StripOpt(Cell(row, "center_name"));
    var c := AssignRow(NewCenter(t.nextId, company, code, false), row, name.value);
    Customers.ReceivingWithoutBillingInvalid(c, TableOf(t.rows));
    assert Customers.Violates(Customers.BillingCenterMissing, c, TableOf(t.rows));
  }

  /** Corrected, the record a new code starts breaks none of the hierarchy
    * rules: it is a billing center with no billing center of its own. */
  lemma CorrectedNewCenterIsBillingCenter(rows: seq<Customers.Customer>, nextId: Id, row: CsvRow, company: Id,
                                          code: string, name: string)
    ensures var c := AssignRow(NewCenter(nextId, company, code, true), row, name);
            var errs := Customers.CustomerErrors(c, TableOf(rows));
            Customers.IsBillingCenter(c) && c.billingCenterId.None?
            && Customers.BillingCenterMissing !in errs && Customers.BillingCenterSelf !in errs
            && Customers.BillingCenterNotBilling !in errs && Customers.BillingCenterOtherCompany !in errs
  {
  }

  /** The customers table of the modelled database. */
  class CustomerStore {
    var rows: seq<Customers.Customer>
    var nextId: Id

    constructor (rows0: seq<Customers.Customer>, nextId0: Id)
      ensures rows == rows0 && nextId == nextId0
    {
      rows := rows0;
      nextId := nextId0;
    }

    /** `import_customers_from_csv(csv_file, company)` as written. */
    method ImportCustomersFromCsv(csv: Csv, company: Id) returns (r: ImportResult)
      modifies this
      ensures ImportRun(r, rows, nextId) == ImportSpec(csv, company, old(rows), old(nextId), false)
    {
      if csv.Malformed? {
        return Failed(CsvParseError);
      }
      var failure := HeaderFailure(csv.headers);
      if failure.Some? {
        return Failed(failure.value);
      }
      var created, updated := 0, 0;
      var importErrors: seq<RowError> := [];
      ghost var start := Tally(rows, nextId, 0, 0, []);
      var i := 0;
      while i < |csv.rows|
        invariant i <= |csv.rows|
        invariant ImportRows(Tally(rows, nextId, created, updated, importErrors), csv.rows, i, company, false)
                  == ImportRows(start, csv.rows, 0, company, false)
      {
        importErrors := ImportRow(csv.rows[i], i + 2, company, created, updated, importErrors);
        i := i + 1;
      }
      r := Finished(|importErrors| == 0, created, updated, |importErrors|, importErrors);
    }

    /** The body of the row loop: `line` is the row's line in the file. */
    method ImportRow(row: CsvRow, line: nat, company: Id, created: nat, updated: nat, importErrors: seq<RowError>)
      returns (errs: seq<RowError>)
      modifies this
      ensures Tally(rows, nextId, created, updated, errs)
              == RowStep(Tally(old(rows), old(nextId), created, updated, importErrors), row, line, company, false)
    {
      errs := importErrors;
      var code := StripOpt(Cell(row, "center_code"));
      var name := StripOpt(Cell(row, "center_name"));
      if BlankOpt(code) || BlankOpt(name) {
        errs := errs + [RequiredFieldsMissing(line)];
        return;
      }
      var found := FindByCode(rows, company, code.value);
      var customer := if found.Some? then rows[found.value] else NewCenter(nextId, company, code.value, false);
      customer := AssignRow(customer, row, name.value);
      var problems := Customers.CustomerErrors(customer, TableOf(rows));
      if problems != {} {
        errs := errs + [RecordInvalid(line, problems, code.value)];
        return;
      }
      if found.Some? {
        rows := rows[found.value := customer];
      } else {
        rows := rows + [customer];
        nextId := nextId + 1;
      }
      // `persisted_before_last_save?` raises; the rescue records the row.
      errs := errs + [RowRaised(line)];
    }
  }
}
