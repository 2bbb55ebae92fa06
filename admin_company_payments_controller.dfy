// The internal admins' payment screens (`Admin::CompanyPaymentsController`):
// the guard, the index filter, the defaults of a new payment, and create,
// update (which never moves a payment to another company) and destroy on the
// payments table, with the one-payment-per-month rule the table keeps.

module AdminCompanyPaymentsController {
  import opened Common
  import opened Web
  import opened CompanyPayments
  import ApplicationPolicy
  import InternalAdminPolicies
  import CompanyPolicy
  import ApplicationController
  import AdminCompaniesController
  import CustomersController

  type Account = ApplicationPolicy.Account

  const CreatedKey: string := "company_payments.created"
  const UpdatedKey: string := "company_payments.updated"
  const DestroyedKey: string := "company_payments.destroyed"

  // ---------------------------------------------------------------------
  // Before-actions

  datatype PaymentAction = Index | Show | New | Create | Edit | Update | Destroy

  function PolicyAction(a: PaymentAction): ApplicationPolicy.Action
  {
    match a
    case Index => ApplicationPolicy.Index
    case Show => ApplicationPolicy.Show
    case New => ApplicationPolicy.New
    case Create => ApplicationPolicy.Create
    case Edit => ApplicationPolicy.Edit
    case Update => ApplicationPolicy.Update
    case Destroy => ApplicationPolicy.Destroy
  }

  /** `require_internal_admin` first, then `set_company_payment` (a find in
    * the policy scope; a miss is rescued as RecordNotFound), then
    * `authorize`.  Past the guard the policy never refuses, so a request goes
    * through exactly for an internal admin naming an existing payment. */
  function Gate(u: Account, a: PaymentAction, id: Id, table: map<Id, Payment>): (r: Response)
    ensures r == Continue <==> ApplicationPolicy.InternalAdmin(u) && (a in {Show, Edit, Update, Destroy} ==> id in table)
    ensures !ApplicationPolicy.InternalAdmin(u) ==> r == AdminCompaniesController.RequireInternalAdmin(u)
    ensures ApplicationPolicy.InternalAdmin(u) && a in {Show, Edit, Update, Destroy} && id !in table ==>
              r == ApplicationController.Rescue(ApplicationController.RecordNotFound)
  {
    if AdminCompaniesController.RequireInternalAdmin(u) != Continue then
      AdminCompaniesController.RequireInternalAdmin(u)
    else if a in {Show, Edit, Update, Destroy} && id !in InternalAdminPolicies.InternalAdminScope(u, table) then
      ApplicationController.Rescue(ApplicationController.RecordNotFound)
    else if a == Index || InternalAdminPolicies.CompanyPaymentAllows(u, PolicyAction(a)) == Some(true) then
      Continue
    else
      ApplicationController.Rescue(ApplicationController.NotAuthorized)
  }

  // ---------------------------------------------------------------------
  // index

  /** The `filter` parameter: "unpaid", "overdue" and "paid" select their
    * scopes; anything else, or none, lists every payment. */
  function Filtered(filter: Option<string>, scope: map<Id, Payment>, today: Date): (r: map<Id, Payment>)
    ensures forall k :: k in r ==> k in scope && r[k] == scope[k]
    ensures filter == Some("paid") ==> forall k :: k in r <==> k in scope && Paid(scope[k])
    ensures filter == Some("unpaid") ==> forall k :: k in r <==> k in scope && !Paid(scope[k])
    ensures filter == Some("overdue") ==> forall k :: k in r <==> k in scope && Overdue(scope[k], today)
    ensures filter != Some("paid") && filter != Some("unpaid") && filter != Some("overdue") ==> r == scope
  {
    ScopesAgreeWithPredicates(scope, today);
    if filter == Some("unpaid") then UnpaidScope(scope)
    else if filter == Some("overdue") then OverdueScope(scope, today)
    else if filter == Some("paid") then PaidScope(scope)
    else scope
  }

  /** The listed payments of the index page (the period ordering and the
    * pagination are not modelled). */
  function IndexRows(u: Account, filter: Option<string>, table: map<Id, Payment>, today: Date): map<Id, Payment>
  {
    Filtered(filter, InternalAdminPolicies.InternalAdminScope(u, table), today)
  }

  /** The "paid" and "unpaid" tabs split the full list, and every overdue
    * payment is on the "unpaid" tab. */
  lemma TabsSplitTheList(u: Account, table: map<Id, Payment>, today: Date)
    requires ApplicationPolicy.InternalAdmin(u)
    ensures IndexRows(u, Some("paid"), table, today).Keys + IndexRows(u, Some("unpaid"), table, today).Keys
              == IndexRows(u, None, table, today).Keys
    ensures IndexRows(u, Some("paid"), table, today).Keys * IndexRows(u, Some("unpaid"), table, today).Keys == {}
    ensures IndexRows(u, Some("overdue"), table, today).Keys <= IndexRows(u, Some("unpaid"), table, today).Keys
  {
    var paid := IndexRows(u, Some("paid"), table, today).Keys;
    var unpaid := IndexRows(u, Some("unpaid"), table, today).Keys;
    var overdue := IndexRows(u, Some("overdue"), table, today).Keys;
    assert InternalAdminPolicies.InternalAdminScope(u, table) == table;
    assert paid + unpaid == table.Keys by {
      forall k | k in table ensures k in paid + unpaid {
        if Paid(table[k]) { assert k in paid; } else { assert k in unpaid; }
      }
    }
    assert overdue <= unpaid by {
      forall k | k in overdue ensures k in unpaid {
        assert Overdue(table[k], today);
      }
    }
  }

  // ---------------------------------------------------------------------
  // new

  /** The pre-filled fields of the new-payment form. */
  datatype NewForm = NewForm(companyId: Option<Id>, year: int, month: int)

  /** `set_company_for_new` and `new`: a present `company_id` is looked up in
    * the company scope (a miss leaves it empty); `year` and `month` are the
    * parameters read with `to_i` when given, today's otherwise. */
  function NewDefaults<C>(u: Account, companyParam: Option<string>, companies: map<Id, C>,
                          yearParam: Option<string>, monthParam: Option<string>, today: Date): (r: NewForm)
    ensures r.companyId.Some? ==> r.companyId.value in CompanyPolicy.CompanyScope(u, companies)
    ensures r.companyId.Some? ==> companyParam.Some? && CustomersController.CastId(companyParam.value) == r.companyId
    ensures yearParam.None? ==> r.year == today.year
    ensures monthParam.None? ==> r.month == today.month
  {
    var companyId :=
      if companyParam.Some? && Present(companyParam.value) then
        var id := CustomersController.CastId(companyParam.value);
        if id.Some? && id.value in CompanyPolicy.CompanyScope(u, companies) then id else None
      else None;
    NewForm(companyId,
            if yearParam.Some? then ToI(yearParam.value) else today.year,
            if monthParam.Some? then ToI(monthParam.value) else today.month)
  }

  /** The links that open the form with a company and a period get exactly
    * that company and period; a parameter given but empty reads as 0, which
    * the year and month validations then refuse. */
  lemma NewDefaultsRoundTrip<C>(u: Account, c: Id, companies: map<Id, C>, y: int, m: int, today: Date)
    requires ApplicationPolicy.InternalAdmin(u) && c in companies
    ensures NewDefaults(u, Some(NatToString(c)), companies, Some(IntToString(y)), Some(IntToString(m)), today)
              == NewForm(Some(c), y, m)
    ensures NewDefaults(u, None, companies, Some(""), Some(""), today) == NewForm(None, 0, 0)
  {
    ToIOfIntToString(y);
    ToIOfIntToString(m);
    CastIdOfNumeral(c);
    ToIOfEmpty();
  }

  lemma CastIdOfNumeral(c: Id)
    ensures Present(NatToString(c)) && CustomersController.CastId(NatToString(c)) == Some(c)
  {
    NatToStringValue(c);
    CustomersController.NumeralThenText(NatToString(c), "");
    assert NatToString(c) + "" == NatToString(c);
  }

  lemma ToIOfEmpty()
    ensures ToI("") == 0
  {
    assert SkipSpace("") == "";
    assert LeadingDigits("") == "";
  }

  // ---------------------------------------------------------------------
  // create / update / destroy

  /** The permitted fields, already cast; the outer `Option` says whether the
    * field was submitted at all (`memo` is not modelled). */
  datatype PaymentParams = PaymentParams(
    companyId: Option<Option<Id>>,
    year: Option<Option<int>>,
    month: Option<Option<int>>,
    dueDate: Option<Option<Date>>,
    paidAt: Option<Option<Date>>,
    amount: Option<Option<real>>)

  /** The value a column takes when a field may have been submitted. */
  function Assigned<T>(current: T, posted: Option<T>): (r: T)
    ensures posted.None? ==> r == current
    ensures posted.Some? ==> r == posted.value
  {
    if posted.Some? then posted.value else current
  }

  function AssignPayment(p: Payment, a: PaymentParams): Payment
  {
    p.(companyId := Assigned(p.companyId, a.companyId),
       year := Assigned(p.year, a.year),
       month := Assigned(p.month, a.month),
       dueDate := Assigned(p.dueDate, a.dueDate),
       paidAt := Assigned(p.paidAt, a.paidAt),
       amount := Assigned(p.amount, a.amount))
  }

  /** `company_payment_params.except(:company_id)`. */
  function WithoutCompany(a: PaymentParams): (r: PaymentParams)
    ensures r.companyId.None?
  {
    a.(companyId := None)
  }

  /** An update never moves a payment to another company: whatever company
    * is submitted, the result is the same and keeps the payment's own. */
  lemma UpdateKeepsCompany(p: Payment, a: PaymentParams, other: Option<Option<Id>>)
    ensures AssignPayment(p, WithoutCompany(a)).companyId == p.companyId
    ensures AssignPayment(p, WithoutCompany(a.(companyId := other))) == AssignPayment(p, WithoutCompany(a))
  {
  }

  /** `save` passes the validations.  `belongs_to :company` adds no
    * "must exist" error: the application loads no framework defaults, so
    * an association is optional unless it says otherwise. */
  predicate Saveable(p: Payment, table: map<Id, Payment>)
  {
    PaymentErrors(p, table) == {}
  }

  /** The database accepts the written row: `company_id` is `NOT NULL` and
    * a foreign key into `companies`.  A row that fails this raises out of
    * `save`, which nothing rescues. */
  predicate RowAccepted(p: Payment, companyIds: set<Id>)
  {
    p.companyId.Some? && p.companyId.value in companyIds
  }

  /** `CompanyPayment.new`: nothing but the id. */
  function Fresh(id: Id): Payment
  {
    Payment(id, None, None, None, None, None, None)
  }

  /** Every row sits under its own id and passes the validations against
    * the table, so no company has two payments for one month. */
  predicate LedgerValid(table: map<Id, Payment>)
  {
    forall k :: k in table ==> table[k].id == k && PaymentErrors(table[k], table) == {}
  }

  /** Writing a row that passed its validations (a new one or a changed one)
    * keeps the whole table valid: a clash with another row would have been
    * the new row's own PeriodTaken error. */
  lemma SaveKeepsLedgerValid(table: map<Id, Payment>, p: Payment)
    requires LedgerValid(table)
    requires PaymentErrors(p, table) == {}
    ensures LedgerValid(table[p.id := p])
  {
    var t := table[p.id := p];
    assert !PaymentViolates(PeriodTaken, p, table);
    forall k | k in t
      ensures t[k].id == k && PaymentErrors(t[k], t) == {}
    {
      if k == p.id {
        assert forall e :: !PaymentViolates(e, p, table);
        assert !PeriodTakenIn(p, t) by {
          forall j | j in t && j != p.id
            ensures !(t[j].companyId == p.companyId && t[j].year == p.year && t[j].month == p.month)
          {
            assert t[j] == table[j];
          }
        }
        forall e ensures !PaymentViolates(e, p, t) {
          assert !PaymentViolates(e, p, table);
        }
      } else {
        var q := table[k];
        assert forall e :: !PaymentViolates(e, q, table);
        assert !PeriodTakenIn(q, t) by {
          forall j | j in t && j != k
            ensures !(t[j].companyId == q.companyId && t[j].year == q.year && t[j].month == q.month)
          {
            if j == p.id {
              assert k in table && k != p.id && table[k] == q;
            } else {
              assert t[j] == table[j];
            }
          }
        }
        forall e ensures !PaymentViolates(e, q, t) {
          assert !PaymentViolates(e, q, table);
        }
      }
    }
  }

  /** Removing a row keeps the table valid. */
  lemma DestroyKeepsLedgerValid(table: map<Id, Payment>, id: Id)
    requires LedgerValid(table)
    ensures LedgerValid(table - {id})
  {
    var t := table - {id};
    forall k | k in t
      ensures PaymentErrors(t[k], t) == {}
    {
      var q := table[k];
      assert forall e :: !PaymentViolates(e, q, table);
      assert forall j :: j in t ==> j in table && t[j] == table[j];
      forall e ensures !PaymentViolates(e, q, t) {
        assert !PaymentViolates(e, q, table);
      }
    }
  }

  /** The payments table behind the screens. */
  class PaymentLedger {
    var payments: map<Id, Payment>

    constructor(ps: map<Id, Payment>)
      ensures payments == ps
    {
      payments := ps;
    }

    /** `create`: a new payment with id `newId` from the submitted fields;
      * saved and listed when it passes the validations and the database
      * takes it, the form again when a validation fails, and an unrescued
      * database error when the company is missing or unknown. */
    method Create(newId: Id, a: PaymentParams, companyIds: set<Id>) returns (resp: Response)
      requires newId !in payments
      modifies this
      ensures var p := AssignPayment(Fresh(newId), a);
              (Saveable(p, old(payments)) && RowAccepted(p, companyIds) ==>
                 payments == old(payments)[newId := p] && resp == RedirectWith(AdminCompanyPayments, Notice(CreatedKey)))
              && (Saveable(p, old(payments)) && !RowAccepted(p, companyIds) ==>
                 payments == old(payments) && resp == Raised)
              && (!Saveable(p, old(payments)) ==>
                 payments == old(payments) && resp == Render("new", Unprocessable))
    {
      var p := AssignPayment(Fresh(newId), a);
      if !Saveable(p, payments) {
        resp := Render("new", Unprocessable);
      } else if !RowAccepted(p, companyIds) {
        resp := Raised;
      } else {
        payments := payments[newId := p];
        resp := RedirectWith(AdminCompanyPayments, Notice(CreatedKey));
      }
    }

    /** `update` of a found payment: the submitted fields except the company
      * are assigned; the row is written when it can be saved. */
    method Update(id: Id, a: PaymentParams, companyIds: set<Id>) returns (resp: Response)
      requires id in payments
      modifies this
      ensures var p := AssignPayment(old(payments)[id], WithoutCompany(a));
              (Saveable(p, old(payments)) && RowAccepted(p, companyIds) ==>
                 payments == old(payments)[id := p] && resp == RedirectWith(AdminCompanyPayments, Notice(UpdatedKey)))
              && (Saveable(p, old(payments)) && !RowAccepted(p, companyIds) ==>
                 payments == old(payments) && resp == Raised)
              && (!Saveable(p, old(payments)) ==>
                 payments == old(payments) && resp == Render("edit", Unprocessable))
      ensures id in payments && payments[id].companyId == old(payments)[id].companyId
    {
      var p := AssignPayment(payments[id], WithoutCompany(a));
      if !Saveable(p, payments) {
        resp := Render("edit", Unprocessable);
      } else if !RowAccepted(p, companyIds) {
        resp := Raised;
      } else {
        payments := payments[id := p];
        resp := RedirectWith(AdminCompanyPayments, Notice(UpdatedKey));
      }
    }

    /** `destroy` of a found payment: the row always goes (nothing can stop
      * it, so the failure branch is never taken), and the response goes to
      * its company's page; a row without a company cannot build that path
      * and raises after the delete. */
    method Destroy(id: Id) returns (resp: Response)
      requires id in payments
      modifies this
      ensures payments == old(payments) - {id}
      ensures old(payments)[id].companyId.Some? ==>
                resp == RedirectWith(AdminCompanyPage(old(payments)[id].companyId.value), Notice(DestroyedKey))
      ensures old(payments)[id].companyId.None? ==> resp == Raised
    {
      var company := payments[id].companyId;
      payments := payments - {id};
      if company.Some? {
        resp := RedirectWith(AdminCompanyPage(company.value), Notice(DestroyedKey));
      } else {
        resp := Raised;
      }
    }
  }
}
