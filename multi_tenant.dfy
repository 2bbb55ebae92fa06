// The tenant-scoping concern shared by every company-owned table: the
// `for_company` / `for_company_id` scopes, the two company-scoped finders and
// the `company_id` presence rule.  A table is a map from primary key to row;
// `companyOf` reads a row's `company_id` column.

module MultiTenant {
  import opened Common

  /** `for_company(c)` and `for_company_id(c)`: the rows whose `company_id` is `c`
    * (a nil company selects the rows whose `company_id` is NULL). */
  function ForCompany<R>(table: map<Id, R>, companyOf: R -> Option<Id>, c: Option<Id>): (r: map<Id, R>)
    ensures forall id :: id in r <==> id in table && companyOf(table[id]) == c
    ensures forall id :: id in r ==> r[id] == table[id]
  {
    map id | id in table && companyOf(table[id]) == c :: table[id]
  }

  /** Tenant isolation: a company's scope never holds a row of another company,
    * and the scopes of two different companies share no row. */
  lemma ForCompanyIsolation<R>(table: map<Id, R>, companyOf: R -> Option<Id>, c: Option<Id>, d: Option<Id>)
    requires c != d
    ensures forall id :: id in ForCompany(table, companyOf, c) ==> companyOf(table[id]) != d
    ensures forall id :: !(id in ForCompany(table, companyOf, c) && id in ForCompany(table, companyOf, d))
  {
  }

  /** Scoping then adding a row of the same company is adding it then scoping. */
  lemma {:induction false} ForCompanyInsert<R>(table: map<Id, R>, companyOf: R -> Option<Id>, c: Option<Id>, id: Id, row: R)
    ensures companyOf(row) == c ==> ForCompany(table[id := row], companyOf, c) == ForCompany(table, companyOf, c)[id := row]
    ensures companyOf(row) != c ==> ForCompany(table[id := row], companyOf, c) == ForCompany(table - {id}, companyOf, c)
  {
    var lhs := ForCompany(table[id := row], companyOf, c);
    if companyOf(row) == c {
      var rhs := ForCompany(table, companyOf, c)[id := row];
      assert forall k :: k in lhs <==> k in rhs;
      assert forall k :: k in lhs ==> lhs[k] == rhs[k];
    } else {
      var rhs := ForCompany(table - {id}, companyOf, c);
      assert forall k :: k in lhs <==> k in rhs;
      assert forall k :: k in lhs ==> lhs[k] == rhs[k];
    }
  }

  /** `find_for_company(id, c)`: the row when it exists inside the company's scope,
    * otherwise the framework's RecordNotFound (modelled as `None`). */
  function FindForCompany<R>(table: map<Id, R>, companyOf: R -> Option<Id>, id: Id, c: Option<Id>): (r: Option<R>)
    ensures r.Some? <==> id in table && companyOf(table[id]) == c
    ensures r.Some? ==> r.value == table[id]
  {
    var scoped := ForCompany(table, companyOf, c);
    if id in scoped then Some(scoped[id]) else None
  }

  /** The message `find_for_company!` re-raises RecordNotFound with. */
  const AccessDeniedMessage: string := "Record not found or access denied"

  /** `find_for_company!(id, c)`: as `find_for_company`, but every miss raises the
    * one message above, so a caller cannot tell "no such id" from "another tenant's id". */
  function FindForCompanyBang<R>(table: map<Id, R>, companyOf: R -> Option<Id>, id: Id, c: Option<Id>): (r: Result<R, string>)
    ensures r.Ok? <==> FindForCompany(table, companyOf, id, c).Some?
    ensures r.Ok? ==> r.value == table[id]
    ensures r.Err? ==> r.error == AccessDeniedMessage
  {
    match FindForCompany(table, companyOf, id, c)
    case Some(row) => Ok(row)
    case None => Err(AccessDeniedMessage)
  }

  /** A missing id and another tenant's id give the same outcome. */
  lemma FindForCompanyBangHidesTenant<R>(table: map<Id, R>, companyOf: R -> Option<Id>, missing: Id, foreign: Id, c: Option<Id>)
    requires missing !in table
    requires foreign in table && companyOf(table[foreign]) != c
    ensures FindForCompanyBang(table, companyOf, missing, c) == FindForCompanyBang(table, companyOf, foreign, c)
  {
  }

  /** `validates :company_id, presence: true`, shared by every including model. */
  predicate CompanyIdPresent(companyId: Option<Id>)
  {
    companyId.Some?
  }
}
