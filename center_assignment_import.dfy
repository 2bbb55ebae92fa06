// The bulk update of approvers and member assignments from a CSV file: each
// row names a billing center of the company by code, optionally the e-mail of
// its approver, and optionally the e-mails of the members who belong to it.
// The importer collects row errors and counts what it changed.
//
// The customers and profiles tables are sequences in primary-key order, so
// that `find_by` is the first matching row.  Whether `update!` passes the
// record's validations is given as the predicates `centerValid` and
// `profileValid`.

module CenterAssignmentImport {
  import opened Common
  import Customers
  import UserProfiles

  type Customer = Customers.Customer
  type Profile = UserProfiles.Profile

  /** One data row: the `center_code`, `approver_email` and `member_emails`
    * cells, `None` when the column is absent. */
  datatype Row = Row(centerCode: Option<string>, approverEmail: Option<string>, memberEmails: Option<string>)

  /** What `CSV.parse` gives: the header names and the data rows, or the
    * malformed-CSV error. */
  datatype Csv = Csv(headers: seq<string>, rows: seq<Row>) | MalformedCsv

  /** The messages the importer records; row errors carry the row's line number. */
  datatype ImportError =
    | MissingCenterCodeHeader
    | InvalidCsv
    | BlankCenterCode(line: int)
    | CenterNotFound(line: int, code: string)
    | ApproverNotFound(line: int, email: string)
    | MemberNotFound(line: int, email: string)
    | ValidationFailed(line: int)

  function LineOf(e: ImportError): Option<int>
  {
    if e.MissingCenterCodeHeader? || e.InvalidCsv? then None else Some(e.line)
  }

  /** The two tables the importer writes. */
  datatype Db = Db(centers: seq<Customer>, profiles: seq<Profile>)

  /** The importer's readable state after a run: `errors`, `updated_centers`,
    * `updated_members`, and the tables. */
  datatype Outcome = Outcome(errors: seq<ImportError>, updatedCenters: nat, updatedMembers: nat, db: Db)

  /** What a run depends on besides the tables: the company, each user's
    * e-mail by user id, and whether a changed row passes its validations. */
  datatype Env = Env(companyId: Id, emailOf: map<Id, string>,
                     centerValid: Customer -> bool, profileValid: Profile -> bool)

  // ---------------------------------------------------------------------
  // Lookups

  /** The index of the first element satisfying `p`. */
  function FirstIndex<T>(s: seq<T>, p: T -> bool): (r: Option<nat>)
    ensures r.Some? ==> r.value < |s| && p(s[r.value]) && forall k :: 0 <= k < r.value ==> !p(s[k])
    ensures r.None? ==> forall k :: 0 <= k < |s| ==> !p(s[k])
  {
    if s == [] then None
    else if p(s[0]) then Some(0)
    else
      match FirstIndex(s[1..], p)
      case None => None
      case Some(i) => Some(i + 1)
  }

  /** `Customer.for_company(company).billing_centers` rows with this code. */
  predicate CenterMatches(c: Customer, companyId: Id, code: string)
  {
    c.companyId == Some(companyId) && Customers.IsBillingCenter(c) && c.centerCode == Some(code)
  }

  function FindCenter(centers: seq<Customer>, companyId: Id, code: string): Option<nat>
  {
    FirstIndex(centers, (c: Customer) => CenterMatches(c, companyId, code))
  }

  /** `UserProfile.for_company(company).joins(:user)` rows whose user has this e-mail. */
  predicate ProfileMatches(p: Profile, env: Env, email: string)
  {
    p.companyId == Some(env.companyId) && p.userId.Some? && p.userId.value in env.emailOf
    && env.emailOf[p.userId.value] == email
  }

  function FindProfile(profiles: seq<Profile>, env: Env, email: string): Option<nat>
  {
    FirstIndex(profiles, (p: Profile) => ProfileMatches(p, env, email))
  }

  // ---------------------------------------------------------------------
  // Cells

  /** The characters of `/[,，\s]+/`: both commas and ASCII whitespace. */
  predicate IsMemberSep(c: char)
  {
    c == ',' || c == '，' || c == ' ' || c == '\t' || c == '\n' || c == '\r' || c == '\U{000B}' || c == '\U{000C}'
  }

  /** The text between single separator characters, empty fields included. */
  function Fields(s: string): (r: seq<string>)
    ensures |r| >= 1
    ensures forall i :: 0 <= i < |r| ==> forall j :: 0 <= j < |r[i]| ==> !IsMemberSep(r[i][j])
  {
    if s == [] then [""]
    else
      var rest := Fields(s[1..]);
      if IsMemberSep(s[0]) then [""] + rest else [[s[0]] + rest[0]] + rest[1..]
  }

  /** Stripped fields without the blank ones. */
  function PresentStripped(fs: seq<string>): (r: seq<string>)
    ensures forall i :: 0 <= i < |r| ==> Present(r[i])
  {
    if fs == [] then []
    else if Blank(Strip(fs[0])) then PresentStripped(fs[1..])
    else [Strip(fs[0])] + PresentStripped(fs[1..])
  }

  /** `str.split(/[,，\s]+/).map(&:strip).reject(&:blank?)`.  Splitting at
    * every single separator gives the same list once empty fields are
    * dropped, since a run of separators only adds empty fields. */
  function MemberEmails(s: string): (r: seq<string>)
    ensures forall i :: 0 <= i < |r| ==> Present(r[i])
  {
    PresentStripped(Fields(s))
  }

  /** A field without separators and without characters `strip` removes. */
  predicate PlainEmail(e: string)
  {
    Present(e) && forall j :: 0 <= j < |e| ==> !IsMemberSep(e[j]) && !IsStripChar(e[j])
  }

  lemma {:induction false} FieldsJoinComma(a: string, rest: seq<string>)
    requires forall j :: 0 <= j < |a| ==> !IsMemberSep(a[j])
    ensures Fields(a + "," + Join(rest, ",")) == [a] + Fields(Join(rest, ","))
  {
    if a == [] {
      assert a + "," + Join(rest, ",") == [','] + Join(rest, ",");
      assert ([','] + Join(rest, ","))[1..] == Join(rest, ",");
    } else {
      var s := a + "," + Join(rest, ",");
      assert s[0] == a[0];
      assert s[1..] == a[1..] + "," + Join(rest, ",");
      FieldsJoinComma(a[1..], rest);
      assert [a[0]] + a[1..] == a;
    }
  }

  lemma {:induction false} FieldsPlain(a: string)
    requires forall j :: 0 <= j < |a| ==> !IsMemberSep(a[j])
    ensures Fields(a) == [a]
  {
    if a != [] {
      FieldsPlain(a[1..]);
      assert [a[0]] + a[1..] == a;
    }
  }

  /** Round trip: member e-mails written comma-separated are read back as written. */
  lemma {:induction false} MemberEmailsRoundTrip(emails: seq<string>)
    requires forall i :: 0 <= i < |emails| ==> PlainEmail(emails[i])
    ensures MemberEmails(Join(emails, ",")) == emails
  {
    if emails == [] {
      assert Fields("") == [""];
      StrippedIsFixed("");
    } else {
      var e := emails[0];
      assert Stripped(e);
      StrippedIsFixed(e);
      if |emails| == 1 {
        assert Join(emails, ",") == e;
        FieldsPlain(e);
        assert [e][1..] == [];
        assert !Blank(Strip([e][0]));
        assert PresentStripped([e]) == [Strip(e)] + PresentStripped([]);
        assert emails == [e];
      } else {
        assert Join(emails, ",") == e + "," + Join(emails[1..], ",");
        FieldsJoinComma(e, emails[1..]);
        MemberEmailsRoundTrip(emails[1..]);
        assert ([e] + Fields(Join(emails[1..], ",")))[1..] == Fields(Join(emails[1..], ","));
      }
    }
  }

  // ---------------------------------------------------------------------
  // One row

  function AddError(o: Outcome, e: ImportError): (r: Outcome)
    ensures r.errors == o.errors + [e]
    ensures r.updatedCenters == o.updatedCenters && r.updatedMembers == o.updatedMembers && r.db == o.db
  {
    o.(errors := o.errors + [e])
  }

  /** A step inside a row either continues or ends the row, after the
    * `rescue ActiveRecord::RecordInvalid` recorded a validation error. */
  datatype Step = Continue(o: Outcome) | Stopped(o: Outcome)

  /** `o1` extends `o` by at most one error, of row `line`. */
  predicate AtMostOneError(o: Outcome, o1: Outcome, line: int)
  {
    o1.errors == o.errors
    || (|o1.errors| == |o.errors| + 1 && o1.errors[..|o.errors|] == o.errors && LineOf(o1.errors[|o.errors|]) == Some(line))
  }

  /** `center.update!(approver_user_profile_id: approver)` followed by the
    * `updated_centers` increment. */
  function SetApprover(o: Outcome, env: Env, ci: nat, approver: Option<Id>, line: int): (r: Step)
    requires ci < |o.db.centers|
    ensures r.Continue? <==> env.centerValid(o.db.centers[ci].(approverProfileId := approver))
    ensures r.Continue? ==>
              r.o == o.(updatedCenters := o.updatedCenters + 1,
                        db := o.db.(centers := o.db.centers[ci := o.db.centers[ci].(approverProfileId := approver)]))
    ensures r.Stopped? ==> r.o == AddError(o, ValidationFailed(line))
  {
    var c := o.db.centers[ci].(approverProfileId := approver);
    if env.centerValid(c) then
      Continue(o.(updatedCenters := o.updatedCenters + 1, db := o.db.(centers := o.db.centers[ci := c])))
    else Stopped(AddError(o, ValidationFailed(line)))
  }

  /** The approver part of a row for center `ci`; `email` is the stripped
    * cell.  It writes at most the approver of center `ci`, counts at most
    * one center and records at most one error. */
  function ApproverStep(o: Outcome, env: Env, ci: nat, email: Option<string>, line: int): (r: Step)
    requires ci < |o.db.centers|
    ensures AtMostOneError(o, r.o, line)
    ensures o.updatedCenters <= r.o.updatedCenters <= o.updatedCenters + 1
    ensures r.o.updatedMembers == o.updatedMembers && r.o.db.profiles == o.db.profiles
    ensures |r.o.db.centers| == |o.db.centers|
    ensures r.o.db.centers == o.db.centers[ci := o.db.centers[ci].(approverProfileId := r.o.db.centers[ci].approverProfileId)]
  {
    if !BlankOpt(email) then
      match FindProfile(o.db.profiles, env, email.value)
      case None => Continue(AddError(o, ApproverNotFound(line, email.value)))
      case Some(pi) =>
        var pid := o.db.profiles[pi].id;
        if o.db.centers[ci].approverProfileId != Some(pid) then SetApprover(o, env, ci, Some(pid), line)
        else Continue(o)
    else if o.db.centers[ci].approverProfileId.Some? then SetApprover(o, env, ci, None, line)
    else Continue(o)
  }

  /** The profile a present approver cell names, if any. */
  function ApproverNamed(o: Outcome, env: Env, email: Option<string>): Option<Id>
    requires !BlankOpt(email)
  {
    match FindProfile(o.db.profiles, env, email.value)
    case None => None
    case Some(pi) => Some(o.db.profiles[pi].id)
  }

  /** The approver cases: an unknown e-mail adds one error; the approver the
    * center already has, or nothing to clear, changes nothing; a different
    * approver, or a blank cell over an existing one, is written and counted. */
  lemma ApproverStepCases(o: Outcome, env: Env, ci: nat, email: Option<string>, line: int)
    requires ci < |o.db.centers|
    ensures !BlankOpt(email) && ApproverNamed(o, env, email).None? ==>
              ApproverStep(o, env, ci, email, line) == Continue(AddError(o, ApproverNotFound(line, email.value)))
    ensures !BlankOpt(email) && ApproverNamed(o, env, email).Some? ==>
              ApproverStep(o, env, ci, email, line) ==
                if o.db.centers[ci].approverProfileId == ApproverNamed(o, env, email) then Continue(o)
                else SetApprover(o, env, ci, ApproverNamed(o, env, email), line)
    ensures BlankOpt(email) ==>
              ApproverStep(o, env, ci, email, line) ==
                if o.db.centers[ci].approverProfileId.None? then Continue(o) else SetApprover(o, env, ci, None, line)
  {
  }

  /** Re-applying an approver cell that just succeeded changes nothing: the
    * center now has that approver (or none), so the second pass neither
    * writes nor counts. */
  lemma ApproverStepIdempotent(o: Outcome, env: Env, ci: nat, email: Option<string>, line: int)
    requires ci < |o.db.centers|
    requires ApproverStep(o, env, ci, email, line).Continue?
    requires !BlankOpt(email) ==> ApproverNamed(o, env, email).Some?
    ensures var o1 := ApproverStep(o, env, ci, email, line).o;
            ApproverStep(o1, env, ci, email, line) == Continue(o1)
  {
    ApproverStepCases(o, env, ci, email, line);
    var o1 := ApproverStep(o, env, ci, email, line).o;
    ApproverStepCases(o1, env, ci, email, line);
    if !BlankOpt(email) {
      assert ApproverNamed(o1, env, email) == ApproverNamed(o, env, email);
    }
  }

  /** One member e-mail: `profile.update!(billing_center_id: center.id)` and
    * the `updated_members` increment, or the not-found error. */
  function MemberStep(o: Outcome, env: Env, centerId: Id, email: string, line: int): (r: Step)
    ensures FindProfile(o.db.profiles, env, email).None? ==> r == Continue(AddError(o, MemberNotFound(line, email)))
    ensures FindProfile(o.db.profiles, env, email).Some? ==>
              var pi := FindProfile(o.db.profiles, env, email).value;
              var p := o.db.profiles[pi].(billingCenterId := Some(centerId));
              if env.profileValid(p) then
                r == Continue(o.(updatedMembers := o.updatedMembers + 1,
                                 db := o.db.(profiles := o.db.profiles[pi := p])))
              else r == Stopped(AddError(o, ValidationFailed(line)))
  {
    match FindProfile(o.db.profiles, env, email)
    case None => Continue(AddError(o, MemberNotFound(line, email)))
    case Some(pi) =>
      var p := o.db.profiles[pi].(billingCenterId := Some(centerId));
      if env.profileValid(p) then
        Continue(o.(updatedMembers := o.updatedMembers + 1, db := o.db.(profiles := o.db.profiles[pi := p])))
      else Stopped(AddError(o, ValidationFailed(line)))
  }

  /** The member loop: `next` past unknown e-mails, stop at a validation failure. */
  function MembersStep(o: Outcome, env: Env, centerId: Id, emails: seq<string>, line: int): Step
    decreases |emails|
  {
    if emails == [] then Continue(o)
    else
      match MemberStep(o, env, centerId, emails[0], line)
      case Stopped(o1) => Stopped(o1)
      case Continue(o1) => MembersStep(o1, env, centerId, emails[1..], line)
  }

  /** The member part of a row: nothing for a blank cell. */
  function MembersOf(o: Outcome, env: Env, centerId: Id, cell: Option<string>, line: int): Outcome
  {
    if BlankOpt(cell) then o else MembersStep(o, env, centerId, MemberEmails(cell.value), line).o
  }

  /** The rest of a row once its center `ci` is found. */
  function RowForCenter(o: Outcome, env: Env, ci: nat, row: Row, line: int): Outcome
    requires ci < |o.db.centers|
  {
    match ApproverStep(o, env, ci, StripOpt(row.approverEmail), line)
    case Stopped(o1) => o1
    case Continue(o1) => MembersOf(o1, env, o.db.centers[ci].id, StripOpt(row.memberEmails), line)
  }

  /** `process_row(row, line_no)`. */
  function RowEffect(o: Outcome, env: Env, row: Row, line: int): Outcome
  {
    var code := StripOpt(row.centerCode);
    if BlankOpt(code) then AddError(o, BlankCenterCode(line))
    else
      match FindCenter(o.db.centers, env.companyId, code.value)
      case None => AddError(o, CenterNotFound(line, code.value))
      case Some(ci) => RowForCenter(o, env, ci, row, line)
  }

  /** The rows from index `idx` on, each numbered `idx + 2`: one for the
    * header, one because lines count from 1. */
  function RunFrom(o: Outcome, env: Env, rows: seq<Row>, idx: nat): Outcome
    decreases |rows| - idx
  {
    if idx >= |rows| then o
    else RunFrom(RowEffect(o, env, rows[idx], idx + 2), env, rows, idx + 1)
  }

  /** `run(csv_content)` from the given tables: the counters start afresh. */
  function RunCsv(env: Env, db: Db, csv: Csv): Outcome
  {
    var start := Outcome([], 0, 0, db);
    match csv
    case MalformedCsv => AddError(start, InvalidCsv)
    case Csv(headers, rows) =>
      if "center_code" !in headers then AddError(start, MissingCenterCodeHeader)
      else RunFrom(start, env, rows, 0)
  }

  // ---------------------------------------------------------------------
  // Properties

  /** A file without the `center_code` header, or one that does not parse,
    * gives exactly one error, counts nothing and writes nothing. */
  lemma UnreadableFileProcessesNothing(env: Env, db: Db, csv: Csv)
    requires csv.MalformedCsv? || "center_code" !in csv.headers
    ensures RunCsv(env, db, csv).errors == [if csv.MalformedCsv? then InvalidCsv else MissingCenterCodeHeader]
    ensures RunCsv(env, db, csv).updatedCenters == 0 && RunCsv(env, db, csv).updatedMembers == 0
    ensures RunCsv(env, db, csv).db == db
  {
  }

  /** A blank code, or one that names no billing center of the company, adds
    * one error and leaves everything else as it was. */
  lemma UnknownCenterSkipsRow(o: Outcome, env: Env, row: Row, line: int)
    requires BlankOpt(StripOpt(row.centerCode)) || FindCenter(o.db.centers, env.companyId, StripOpt(row.centerCode).value).None?
    ensures RowEffect(o, env, row, line) ==
              AddError(o, if BlankOpt(StripOpt(row.centerCode)) then BlankCenterCode(line)
                          else CenterNotFound(line, StripOpt(row.centerCode).value))
  {
  }

  /** `o1` extends `o`'s errors with errors of row `line` only. */
  predicate ErrorsOfLine(o: Outcome, o1: Outcome, line: int)
  {
    |o.errors| <= |o1.errors| && o1.errors[..|o.errors|] == o.errors
    && forall j :: |o.errors| <= j < |o1.errors| ==> LineOf(o1.errors[j]) == Some(line)
  }

  lemma ErrorsOfLineTrans(o: Outcome, o1: Outcome, o2: Outcome, line: int)
    requires ErrorsOfLine(o, o1, line) && ErrorsOfLine(o1, o2, line)
    ensures ErrorsOfLine(o, o2, line)
  {
    assert o2.errors[..|o.errors|] == o2.errors[..|o1.errors|][..|o.errors|];
    forall j | |o.errors| <= j < |o2.errors|
      ensures LineOf(o2.errors[j]) == Some(line)
    {
      if j < |o1.errors| {
        assert o2.errors[j] == o2.errors[..|o1.errors|][j];
      }
    }
  }

  /** The member loop appends errors of the row only, and every e-mail it
    * reads ends as exactly one counted member or one error, unless a
    * validation failure ends the loop early. */
  lemma {:induction false} MembersAccounting(o: Outcome, env: Env, centerId: Id, emails: seq<string>, line: int)
    ensures var r := MembersStep(o, env, centerId, emails, line).o;
            ErrorsOfLine(o, r, line) && r.updatedCenters == o.updatedCenters && r.db.centers == o.db.centers
            && o.updatedMembers <= r.updatedMembers
    ensures MembersStep(o, env, centerId, emails, line).Continue? ==>
              var r := MembersStep(o, env, centerId, emails, line).o;
              (r.updatedMembers - o.updatedMembers) + (|r.errors| - |o.errors|) == |emails|
    ensures MembersStep(o, env, centerId, emails, line).Stopped? ==>
              var r := MembersStep(o, env, centerId, emails, line).o;
              |r.errors| > 0 && r.errors[|r.errors| - 1] == ValidationFailed(line)
    decreases |emails|
  {
    if emails != [] {
      var s := MemberStep(o, env, centerId, emails[0], line);
      assert ErrorsOfLine(o, s.o, line);
      if s.Continue? {
        MembersAccounting(s.o, env, centerId, emails[1..], line);
        ErrorsOfLineTrans(o, s.o, MembersStep(s.o, env, centerId, emails[1..], line).o, line);
      }
    } else {
      assert o.errors[..|o.errors|] == o.errors;
    }
  }

  /** A row only appends errors, each carrying the row's line number, and
    * counts at most one center. */
  lemma RowErrorsCarryLine(o: Outcome, env: Env, row: Row, line: int)
    ensures var r := RowEffect(o, env, row, line);
            ErrorsOfLine(o, r, line) && o.updatedCenters <= r.updatedCenters <= o.updatedCenters + 1
  {
    var code := StripOpt(row.centerCode);
    if BlankOpt(code) || FindCenter(o.db.centers, env.companyId, code.value).None? {
      assert o.errors + [if BlankOpt(code) then BlankCenterCode(line) else CenterNotFound(line, code.value)]
               == RowEffect(o, env, row, line).errors;
    } else {
      var ci := FindCenter(o.db.centers, env.companyId, code.value).value;
      var a := ApproverStep(o, env, ci, StripOpt(row.approverEmail), line);
      assert ErrorsOfLine(o, a.o, line);
      var members := StripOpt(row.memberEmails);
      if a.Continue? && !BlankOpt(members) {
        MembersAccounting(a.o, env, o.db.centers[ci].id, MemberEmails(members.value), line);
        ErrorsOfLineTrans(o, a.o, RowEffect(o, env, row, line), line);
      }
    }
  }

  /** Over a run from row `idx`, the new errors carry line numbers between
    * `idx + 2` and the last row's `|rows| + 1`, in non-decreasing order, and
    * each row adds at most one to `updated_centers`. */
  lemma {:induction false} RunLines(o: Outcome, env: Env, rows: seq<Row>, idx: nat)
    ensures var r := RunFrom(o, env, rows, idx);
            LinesBetween(o, r, idx + 2, |rows| + 1)
            && r.updatedCenters <= o.updatedCenters + (if idx < |rows| then |rows| - idx else 0)
  {
    RunErrorLines(o, env, rows, idx);
    RunCountsRows(o, env, rows, idx);
  }

  lemma {:induction false} RunErrorLines(o: Outcome, env: Env, rows: seq<Row>, idx: nat)
    ensures LinesBetween(o, RunFrom(o, env, rows, idx), idx + 2, |rows| + 1)
    decreases |rows| - idx
  {
    if idx < |rows| {
      var o1 := RowEffect(o, env, rows[idx], idx + 2);
      RowErrorsCarryLine(o, env, rows[idx], idx + 2);
      RunErrorLines(o1, env, rows, idx + 1);
      LinesStep(o, o1, RunFrom(o1, env, rows, idx + 1), idx + 2, |rows| + 1);
    } else {
      assert o.errors[..|o.errors|] == o.errors;
    }
  }

  lemma {:induction false} RunCountsRows(o: Outcome, env: Env, rows: seq<Row>, idx: nat)
    ensures RunFrom(o, env, rows, idx).updatedCenters <= o.updatedCenters + (if idx < |rows| then |rows| - idx else 0)
    decreases |rows| - idx
  {
    if idx < |rows| {
      var o1 := RowEffect(o, env, rows[idx], idx + 2);
      RowErrorsCarryLine(o, env, rows[idx], idx + 2);
      RunCountsRows(o1, env, rows, idx + 1);
    }
  }

  /** The new errors of `r` over `o` carry lines from `lo` to `hi`, in
    * non-decreasing order. */
  predicate LinesBetween(o: Outcome, r: Outcome, lo: int, hi: int)
  {
    |o.errors| <= |r.errors| && r.errors[..|o.errors|] == o.errors
    && (forall j :: |o.errors| <= j < |r.errors| ==> LineOf(r.errors[j]).Some? && lo <= LineOf(r.errors[j]).value <= hi)
    && (forall i, j :: |o.errors| <= i < j < |r.errors| ==> LineOf(r.errors[i]).value <= LineOf(r.errors[j]).value)
  }

  lemma LinesStep(o: Outcome, o1: Outcome, r: Outcome, line: int, hi: int)
    requires ErrorsOfLine(o, o1, line) && LinesBetween(o1, r, line + 1, hi) && line <= hi
    ensures LinesBetween(o, r, line, hi)
  {
    assert r.errors[..|o.errors|] == r.errors[..|o1.errors|][..|o.errors|];
    forall j | |o1.errors| > j >= |o.errors|
      ensures r.errors[j] == o1.errors[j]
    {
      assert r.errors[j] == r.errors[..|o1.errors|][j];
    }
  }

  /** `o1`'s tables differ from `o`'s only in approvers of the company's
    * billing centers and in billing centers of the company's profiles. */
  predicate WritesIsolated(o: Outcome, o1: Outcome, companyId: Id)
  {
    |o1.db.centers| == |o.db.centers| && |o1.db.profiles| == |o.db.profiles|
    && (forall k :: 0 <= k < |o.db.centers| && o1.db.centers[k] != o.db.centers[k] ==>
          o.db.centers[k].companyId == Some(companyId) && Customers.IsBillingCenter(o.db.centers[k])
          && o1.db.centers[k] == o.db.centers[k].(approverProfileId := o1.db.centers[k].approverProfileId))
    && (forall k :: 0 <= k < |o.db.profiles| && o1.db.profiles[k] != o.db.profiles[k] ==>
          o.db.profiles[k].companyId == Some(companyId)
          && o1.db.profiles[k] == o.db.profiles[k].(billingCenterId := o1.db.profiles[k].billingCenterId))
  }

  lemma WritesIsolatedTrans(o: Outcome, o1: Outcome, o2: Outcome, companyId: Id)
    requires WritesIsolated(o, o1, companyId) && WritesIsolated(o1, o2, companyId)
    ensures WritesIsolated(o, o2, companyId)
  {
  }

  lemma {:induction false} MembersIsolated(o: Outcome, env: Env, centerId: Id, emails: seq<string>, line: int)
    ensures WritesIsolated(o, MembersStep(o, env, centerId, emails, line).o, env.companyId)
    decreases |emails|
  {
    if emails != [] {
      var s := MemberStep(o, env, centerId, emails[0], line);
      if s.Continue? {
        MembersIsolated(s.o, env, centerId, emails[1..], line);
        WritesIsolatedTrans(o, s.o, MembersStep(s.o, env, centerId, emails[1..], line).o, env.companyId);
      }
    }
  }

  lemma RowIsolated(o: Outcome, env: Env, row: Row, line: int)
    ensures WritesIsolated(o, RowEffect(o, env, row, line), env.companyId)
  {
    var code := StripOpt(row.centerCode);
    if !BlankOpt(code) {
      var found := FindCenter(o.db.centers, env.companyId, code.value);
      if found.Some? {
        var ci := found.value;
        var a := ApproverStep(o, env, ci, StripOpt(row.approverEmail), line);
        assert WritesIsolated(o, a.o, env.companyId);
        var members := StripOpt(row.memberEmails);
        if a.Continue? && !BlankOpt(members) {
          MembersIsolated(a.o, env, o.db.centers[ci].id, MemberEmails(members.value), line);
          WritesIsolatedTrans(o, a.o, RowEffect(o, env, row, line), env.companyId);
        }
      }
    }
  }

  /** Only the company's own billing centers are written, and only their
    * approver; only the company's own profiles are written, and only their
    * billing center. */
  lemma {:induction false} RunIsolated(o: Outcome, env: Env, rows: seq<Row>, idx: nat)
    ensures WritesIsolated(o, RunFrom(o, env, rows, idx), env.companyId)
    decreases |rows| - idx
  {
    if idx < |rows| {
      var o1 := RowEffect(o, env, rows[idx], idx + 2);
      RowIsolated(o, env, rows[idx], idx + 2);
      RunIsolated(o1, env, rows, idx + 1);
      WritesIsolatedTrans(o, o1, RunFrom(o1, env, rows, idx + 1), env.companyId);
    }
  }

  // ---------------------------------------------------------------------
  // The importer object

  /** `CenterAssignmentCsvImporter`: its readers and the two tables it updates. */
  class Importer {
    const companyId: Id
    const emailOf: map<Id, string>
    const centerValid: Customer -> bool
    const profileValid: Profile -> bool
    var errors: seq<ImportError>
    var updatedCenters: nat
    var updatedMembers: nat
    var centers: seq<Customer>
    var profiles: seq<Profile>

    constructor (companyId: Id, emailOf: map<Id, string>, centerValid: Customer -> bool, profileValid: Profile -> bool,
                 centers: seq<Customer>, profiles: seq<Profile>)
      ensures this.companyId == companyId && this.emailOf == emailOf
      ensures this.centerValid == centerValid && this.profileValid == profileValid
      ensures errors == [] && updatedCenters == 0 && updatedMembers == 0
      ensures this.centers == centers && this.profiles == profiles
    {
      this.companyId := companyId;
      this.emailOf := emailOf;
      this.centerValid := centerValid;
      this.profileValid := profileValid;
      errors := [];
      updatedCenters := 0;
      updatedMembers := 0;
      this.centers := centers;
      this.profiles := profiles;
    }

    function Context(): Env
    {
      Env(companyId, emailOf, centerValid, profileValid)
    }

    function State(): Outcome
      reads this
    {
      Outcome(errors, updatedCenters, updatedMembers, Db(centers, profiles))
    }

    /** `run(csv_content)`: true exactly when no error was recorded. */
    method Run(csv: Csv) returns (ok: bool)
      modifies this
      ensures State() == RunCsv(Context(), old(State()).db, csv)
      ensures ok <==> errors == []
    {
      errors := [];
      updatedCenters := 0;
      updatedMembers := 0;
      if csv.MalformedCsv? {
        errors := errors + [InvalidCsv];
        return false;
      }
      if "center_code" !in csv.headers {
        errors := errors + [MissingCenterCodeHeader];
        return false;
      }
      var rows := csv.rows;
      ghost var start := State();
      var i := 0;
      while i < |rows|
        invariant 0 <= i <= |rows|
        invariant RunFrom(State(), Context(), rows, i) == RunFrom(start, Context(), rows, 0)
      {
        ProcessRow(rows[i], i + 2);
        i := i + 1;
      }
      ok := errors == [];
    }

    /** `process_row(row, line_no)`. */
    method ProcessRow(row: Row, line: int)
      modifies this
      ensures State() == RowEffect(old(State()), Context(), row, line)
    {
      var code := StripOpt(row.centerCode);
      if BlankOpt(code) {
        errors := errors + [BlankCenterCode(line)];
        return;
      }
      var found := FindCenter(centers, companyId, code.value);
      if found.None? {
        errors := errors + [CenterNotFound(line, code.value)];
        return;
      }
      var ci := found.value;
      var centerId := centers[ci].id;
      var go := UpdateApprover(ci, StripOpt(row.approverEmail), line);
      if go {
        var membersCell := StripOpt(row.memberEmails);
        if !BlankOpt(membersCell) {
          UpdateMembers(centerId, MemberEmails(membersCell.value), line);
        }
      }
    }

    /** The approver part of `process_row`; false when a validation failure
      * ended the row. */
    method UpdateApprover(ci: nat, email: Option<string>, line: int) returns (go: bool)
      requires ci < |centers|
      modifies this
      ensures var s := ApproverStep(old(State()), Context(), ci, email, line);
              State() == s.o && (go <==> s.Continue?)
    {
      var center := centers[ci];
      var target: Option<Id>;
      if !BlankOpt(email) {
        var approver := FindProfile(profiles, Context(), email.value);
        if approver.None? {
          errors := errors + [ApproverNotFound(line, email.value)];
          return true;
        }
        target := Some(profiles[approver.value].id);
        if center.approverProfileId == target {
          return true;
        }
      } else {
        if center.approverProfileId.None? {
          return true;
        }
        target := None;
      }
      var c := center.(approverProfileId := target);
      if !centerValid(c) {
        errors := errors + [ValidationFailed(line)];
        return false;
      }
      centers := centers[ci := c];
      updatedCenters := updatedCenters + 1;
      return true;
    }

    /** The member loop of `process_row`. */
    method UpdateMembers(centerId: Id, emails: seq<string>, line: int)
      modifies this
      ensures State() == MembersStep(old(State()), Context(), centerId, emails, line).o
    {
      ghost var before := State();
      var j := 0;
      while j < |emails|
        invariant 0 <= j <= |emails|
        invariant MembersStep(before, Context(), centerId, emails, line)
                  == MembersStep(State(), Context(), centerId, emails[j..], line)
      {
        assert emails[j..][1..] == emails[j + 1..];
        var pi := FindProfile(profiles, Context(), emails[j]);
        if pi.None? {
          errors := errors + [MemberNotFound(line, emails[j])];
        } else {
          var p := profiles[pi.value].(billingCenterId := Some(centerId));
          if !profileValid(p) {
            errors := errors + [ValidationFailed(line)];
            return;
          }
          profiles := profiles[pi.value := p];
          updatedMembers := updatedMembers + 1;
        }
        j := j + 1;
      }
    }
  }
}
