// The internal admins' company screens (`Admin::CompaniesController`): the
// before-actions in their order (the unscoped lookup, the internal-admin
// guard, then the policy), the permitted form fields with the textarea form of
// `domains`, and create / update of a company row.

module AdminCompaniesController {
  import opened Common
  import opened Web
  import opened Domains
  import Companies
  import ApplicationPolicy
  import CompanyPolicy
  import ApplicationController

  type Account = ApplicationPolicy.Account

  const CreatedKey: string := "companies.created"
  const UpdatedKey: string := "companies.updated"

  // ---------------------------------------------------------------------
  // Before-actions

  /** `require_internal_admin` (the payments screens have the same guard):
    * the role alone decides, not the member status. */
  function RequireInternalAdmin(u: Account): (r: Response)
    ensures r == Continue <==> ApplicationPolicy.InternalAdmin(u)
    ensures r != Continue ==> r == RedirectWith(Root, Alert(ApplicationController.NotAuthorizedKey))
  {
    if ApplicationPolicy.InternalAdmin(u) then Continue
    else RedirectWith(Root, Alert(ApplicationController.NotAuthorizedKey))
  }

  datatype CompanyAction = Index | Show | New | Edit | Create | Update

  function PolicyAction(a: CompanyAction): ApplicationPolicy.Action
  {
    match a
    case Index => ApplicationPolicy.Index
    case Show => ApplicationPolicy.Show
    case New => ApplicationPolicy.New
    case Edit => ApplicationPolicy.Edit
    case Create => ApplicationPolicy.Create
    case Update => ApplicationPolicy.Update
  }

  /** How far a request for company `id` gets: `set_company` (show, edit and
    * update; `Company.find` outside any scope, a miss being rescued as
    * RecordNotFound), then `require_internal_admin` (all but show), then
    * `authorize` (all but index). */
  function Gate(u: Account, a: CompanyAction, id: Id, companyIds: set<Id>): (r: Response)
    ensures a in {Show, Edit, Update} && id !in companyIds ==>
              r == ApplicationController.Rescue(ApplicationController.RecordNotFound)
    ensures r == Continue && a != Show ==> ApplicationPolicy.InternalAdmin(u)
  {
    if a in {Show, Edit, Update} && id !in companyIds then
      ApplicationController.Rescue(ApplicationController.RecordNotFound)
    else if a != Show && RequireInternalAdmin(u) != Continue then
      RequireInternalAdmin(u)
    else if a == Index || CompanyPolicy.CompanyAllows(u, id, PolicyAction(a)) == Some(true) then
      Continue
    else
      ApplicationController.Rescue(ApplicationController.NotAuthorized)
  }

  /** The guard and the policy agree on every action: a request for an
    * existing company goes through exactly when `CompanyPolicy` allows it;
    * the guard only changes where a refused non-admin is sent (the root page
    * rather than back). */
  lemma GateMatchesPolicy(u: Account, a: CompanyAction, id: Id, companyIds: set<Id>)
    requires a in {Show, Edit, Update} ==> id in companyIds
    ensures Gate(u, a, id, companyIds) == Continue <==> CompanyPolicy.CompanyAllows(u, id, PolicyAction(a)) == Some(true)
    ensures a != Show && !ApplicationPolicy.InternalAdmin(u) ==>
              Gate(u, a, id, companyIds) == RedirectWith(Root, Alert(ApplicationController.NotAuthorizedKey))
  {
  }

  /** An active member may open the own company's page but not its edit
    * form, and opens no other company. */
  lemma MemberSeesOwnCompanyOnly(u: Account, id: Id, companyIds: set<Id>)
    requires id in companyIds
    requires ApplicationPolicy.ActiveUser(u) && !ApplicationPolicy.InternalAdmin(u)
    ensures Gate(u, Show, id, companyIds) == Continue <==> ApplicationPolicy.UserCompanyId(u) == Some(id)
    ensures Gate(u, Edit, id, companyIds) != Continue && Gate(u, Update, id, companyIds) != Continue
  {
  }

  // ---------------------------------------------------------------------
  // Permitted fields

  const ScalarFields: set<string> := {"name", "code", "order_prefix", "is_active"}
  const ListFields: set<string> := {"domains"}

  /** `company_params`: the permitted fields, with a one-element `domains`
    * array (the textarea) split into its clean lines. */
  function CompanyParams(submitted: map<string, Param>): (r: map<string, Param>)
    ensures r.Keys == Permit(submitted, ScalarFields, ListFields).Keys
    ensures "order_seq" !in r && "payment_terms" !in r
    ensures forall k :: k in r && k != "domains" ==> r[k] == submitted[k]
    ensures "domains" in r ==>
              r["domains"].List? && Some(r["domains"].items) == NormalizeDomainsParam(Some(submitted["domains"].items))
  {
    var permitted := Permit(submitted, ScalarFields, ListFields);
    if "domains" in permitted then
      permitted["domains" := List(NormalizeDomainsParam(Some(permitted["domains"].items)).value)]
    else permitted
  }

  /** The spellings the boolean cast reads as false. */
  predicate FalseSpelling(s: string)
  {
    s == "0" || s == "f" || s == "F" || s == "false" || s == "FALSE" || s == "off" || s == "OFF"
  }

  /** The boolean cast of a form value: blank is nil, the false spellings are
    * false, anything else is true. */
  function CastBoolean(s: string): (r: Option<bool>)
    ensures r.None? <==> s == ""
    ensures r == Some(false) <==> FalseSpelling(s)
  {
    if s == "" then None
    else if FalseSpelling(s) then Some(false)
    else Some(true)
  }

  /** The checkbox's two values cast to the two booleans. */
  lemma CheckBoxValues()
    ensures CastBoolean("1") == Some(true) && CastBoolean("0") == Some(false)
  {
    assert "1"[0] == '1';
    assert !FalseSpelling("1");
  }

  /** The jsonb value an array of strings is stored as. */
  function DomainsOf(ds: seq<string>): (r: DomainsValue)
    ensures r.DomainArray? && |r.entries| == |ds|
    ensures forall i :: 0 <= i < |ds| ==> r.entries[i] == DomainString(ds[i])
  {
    DomainArray(seq(|ds|, i requires 0 <= i < |ds| => DomainString(ds[i])))
  }

  /** The columns the form can reach; `isActive` is `None` when the
    * submitted value casts to nil. */
  datatype CompanyForm = CompanyForm(name: string, code: string, orderPrefix: string, isActive: Option<bool>, domains: DomainsValue)

  function FormOf(c: Companies.Company): CompanyForm
    reads c
  {
    CompanyForm(c.name, c.code, c.orderPrefix, Some(c.isActive), c.domains)
  }

  /** `Company.new`: no name, code or prefix yet, active, no domains. */
  const NewForm: CompanyForm := CompanyForm("", "", "", Some(true), DomainArray([]))

  /** Assigning the (already permitted) parameters to the form's columns;
    * a column without a parameter keeps its value. */
  function Assign(f: CompanyForm, params: map<string, Param>): (r: CompanyForm)
    ensures "name" !in params ==> r.name == f.name
    ensures "code" !in params ==> r.code == f.code
    ensures "order_prefix" !in params ==> r.orderPrefix == f.orderPrefix
    ensures "is_active" !in params ==> r.isActive == f.isActive
    ensures "domains" !in params ==> r.domains == f.domains
  {
    CompanyForm(
      if "name" in params && params["name"].Text? then params["name"].text else f.name,
      if "code" in params && params["code"].Text? then params["code"].text else f.code,
      if "order_prefix" in params && params["order_prefix"].Text? then params["order_prefix"].text else f.orderPrefix,
      if "is_active" in params && params["is_active"].Text? then CastBoolean(params["is_active"].text) else f.isActive,
      if "domains" in params && params["domains"].List? then DomainsOf(params["domains"].items) else f.domains)
  }

  /** The texts of a list of string entries. */
  function EntryTexts(es: seq<DomainEntry>): (r: seq<string>)
    requires forall i :: 0 <= i < |es| ==> es[i].DomainString?
    ensures |r| == |es| && forall i :: 0 <= i < |es| ==> r[i] == es[i].s
  {
    seq(|es|, i requires 0 <= i < |es| => es[i].s)
  }

  /** The edit form as the browser sends it back unchanged: the fields, the
    * check box as "1" or "0", and the domains one per line in the textarea. */
  function Resubmitted(f: CompanyForm): map<string, Param>
    requires f.domains.DomainArray? && forall i :: 0 <= i < |f.domains.entries| ==> f.domains.entries[i].DomainString?
  {
    map["name" := Text(f.name), "code" := Text(f.code), "order_prefix" := Text(f.orderPrefix),
        "is_active" := Text(if f.isActive == Some(false) then "0" else "1"),
        "domains" := List([Join(EntryTexts(f.domains.entries), "\n")])]
  }

  /** Submitting the edit form unchanged, with any extra field such as
    * `order_seq` added, assigns exactly the values the company already has:
    * the domains survive the round trip through the textarea. */
  lemma ResubmitChangesNothing(f: CompanyForm, extra: string, v: Param)
    requires f.isActive.Some?
    requires f.domains.DomainArray? && f.domains.entries != []
    requires forall i :: 0 <= i < |f.domains.entries| ==>
               f.domains.entries[i].DomainString? && CleanLine(f.domains.entries[i].s)
    requires extra !in ScalarFields && extra !in ListFields
    ensures Assign(f, CompanyParams(Resubmitted(f)[extra := v])) == f
  {
    var ts := EntryTexts(f.domains.entries);
    ResubmittedParams(f, extra, v);
    var ps := Resubmitted(f)["domains" := List(ts)];
    CheckBoxValues();
    FieldNamesDistinct();
    if !f.isActive.value {
      assert ps["is_active"] == Text("0");
      assert CastBoolean(ps["is_active"].text) == f.isActive;
    } else {
      assert ps["is_active"] == Text("1");
      assert CastBoolean(ps["is_active"].text) == f.isActive;
    }
    assert DomainsOf(ts) == f.domains by {
      assert DomainsOf(ts).entries == f.domains.entries;
    }
    AssignOwnValues(f, ps);
  }

  lemma FieldNamesDistinct()
    ensures "name" != "code" && "name" != "order_prefix" && "name" != "is_active" && "name" != "domains"
    ensures "code" != "order_prefix" && "code" != "is_active" && "code" != "domains"
    ensures "order_prefix" != "is_active" && "order_prefix" != "domains" && "is_active" != "domains"
  {
    assert "name"[0] != "code"[0];
  }

  /** Assigning each column its own value changes nothing. */
  lemma AssignOwnValues(f: CompanyForm, ps: map<string, Param>)
    requires "name" in ps && ps["name"] == Text(f.name)
    requires "code" in ps && ps["code"] == Text(f.code)
    requires "order_prefix" in ps && ps["order_prefix"] == Text(f.orderPrefix)
    requires "is_active" in ps && ps["is_active"].Text? && CastBoolean(ps["is_active"].text) == f.isActive
    requires "domains" in ps && ps["domains"].List? && DomainsOf(ps["domains"].items) == f.domains
    ensures Assign(f, ps) == f
  {
  }

  /** What `company_params` makes of the resubmitted form: the same fields,
    * the textarea split back into the list of domains. */
  lemma ResubmittedParams(f: CompanyForm, extra: string, v: Param)
    requires f.domains.DomainArray? && f.domains.entries != []
    requires forall i :: 0 <= i < |f.domains.entries| ==>
               f.domains.entries[i].DomainString? && CleanLine(f.domains.entries[i].s)
    requires extra !in ScalarFields && extra !in ListFields
    ensures CompanyParams(Resubmitted(f)[extra := v]) == Resubmitted(f)["domains" := List(EntryTexts(f.domains.entries))]
  {
    var ts := EntryTexts(f.domains.entries);
    var sub := Resubmitted(f);
    PermitIgnoresOtherKeys(sub, ScalarFields, ListFields, extra, v);
    assert Permit(sub, ScalarFields, ListFields) == sub;
    NormalizeRoundTrip(ts);
  }

  /** The validation errors of a company whose form columns are `f`; the
    * other columns come from the row. */
  function FormErrors(f: CompanyForm, paymentTerms: Option<string>, orderSeq: int, otherCodes: set<string>): set<Companies.CompanyError>
  {
    Companies.FieldErrors(f.name, f.code, paymentTerms, f.orderPrefix, orderSeq, f.domains, otherCodes)
  }

  /** A saved company from the form has a valid prefix, its numbering where it
    * was, and at least one valid domain. */
  lemma SavedFormIsValid(f: CompanyForm, paymentTerms: Option<string>, orderSeq: int, otherCodes: set<string>)
    requires FormErrors(f, paymentTerms, orderSeq, otherCodes) == {}
    ensures Companies.ValidPrefix(f.orderPrefix) && orderSeq >= 0
    ensures f.code !in otherCodes && Present(f.name)
    ensures f.domains.DomainArray? && f.domains.entries != []
  {
    assert Companies.CodeTaken !in FormErrors(f, paymentTerms, orderSeq, otherCodes);
  }

  // ---------------------------------------------------------------------
  // create / update

  /** `update` of a found company as an internal admin: the permitted fields
    * are assigned and validated; a valid row is written (a nil `is_active`
    * then fails the NOT NULL column and raises), an invalid one re-renders
    * the form.  The order sequence, payment terms and address are out of the
    * form's reach. */
  method UpdateCompany(c: Companies.Company, submitted: map<string, Param>, otherCodes: set<string>) returns (resp: Response)
    modifies c
    ensures c.orderSeq == old(c.orderSeq) && c.paymentTerms == old(c.paymentTerms)
    ensures c.postalCode == old(c.postalCode) && c.prefecture == old(c.prefecture) && c.city == old(c.city)
    ensures c.address1 == old(c.address1) && c.address2 == old(c.address2)
    ensures var f := Assign(old(FormOf(c)), CompanyParams(submitted));
            var ok := FormErrors(f, old(c.paymentTerms), old(c.orderSeq), otherCodes) == {};
            (!ok ==> FormOf(c) == old(FormOf(c)) && resp == Render("edit", Unprocessable))
            && (ok && f.isActive.None? ==> FormOf(c) == old(FormOf(c)) && resp == Raised)
            && (ok && f.isActive.Some? ==>
                  FormOf(c) == f && resp == RedirectWith(AdminCompanyPage(c.id), Notice(UpdatedKey)))
  {
    var f := Assign(FormOf(c), CompanyParams(submitted));
    if FormErrors(f, c.paymentTerms, c.orderSeq, otherCodes) != {} {
      resp := Render("edit", Unprocessable);
    } else if f.isActive.None? {
      resp := Raised;
    } else {
      WriteForm(c, f);
      resp := RedirectWith(AdminCompanyPage(c.id), Notice(UpdatedKey));
    }
  }

  /** The form's columns written onto the company; the others stay. */
  method WriteForm(c: Companies.Company, f: CompanyForm)
    requires f.isActive.Some?
    modifies c
    ensures FormOf(c) == f
    ensures c.orderSeq == old(c.orderSeq) && c.paymentTerms == old(c.paymentTerms)
    ensures c.postalCode == old(c.postalCode) && c.prefecture == old(c.prefecture) && c.city == old(c.city)
    ensures c.address1 == old(c.address1) && c.address2 == old(c.address2)
  {
    c.name := f.name;
    c.code := f.code;
    c.orderPrefix := f.orderPrefix;
    c.isActive := f.isActive.value;
    c.domains := f.domains;
  }

  /** `create`: a new company from the permitted fields, saved with id
    * `newId` when valid; its numbering starts at zero. */
  method CreateCompany(newId: Id, submitted: map<string, Param>, otherCodes: set<string>)
    returns (c: Companies.Company?, resp: Response)
    ensures var f := Assign(NewForm, CompanyParams(submitted));
            var ok := FormErrors(f, None, 0, otherCodes) == {};
            (!ok ==> c == null && resp == Render("new", Unprocessable))
            && (ok && f.isActive.None? ==> c == null && resp == Raised)
            && (ok && f.isActive.Some? ==>
                  c != null && fresh(c) && c.id == newId && FormOf(c) == f && c.orderSeq == 0
                  && c.paymentTerms.None? && resp == RedirectWith(AdminCompanyPage(newId), Notice(CreatedKey)))
  {
    var f := Assign(NewForm, CompanyParams(submitted));
    if FormErrors(f, None, 0, otherCodes) != {} {
      c := null;
      resp := Render("new", Unprocessable);
    } else if f.isActive.None? {
      c := null;
      resp := Raised;
    } else {
      c := new Companies.Company(newId, f.name, f.code, f.orderPrefix, 0, f.domains, f.isActive.value);
      resp := RedirectWith(AdminCompanyPage(newId), Notice(CreatedKey));
    }
  }
}
