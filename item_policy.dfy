// Who may see and maintain items: an active user sees the own company's items
// and those shared with that company, only internal admins change them.

module ItemPolicy {
  import opened Common
  import opened ApplicationPolicy
  import Items

  /** `show?`; `shares` are the `item_companies` pairs. */
  predicate ShowItem(u: Account, i: Items.Item, shares: Items.ItemShares)
  {
    if !ActiveUser(u) then false
    else if InternalAdmin(u) then true
    else if UserCompanyId(u).None? then false
    else i.companyId == UserCompanyId(u) || (i.id, UserCompanyId(u).value) in shares
  }

  function ItemAllows(u: Account, i: Items.Item, shares: Items.ItemShares, a: Action): Decision
  {
    match a
    case Index => Some(ActiveUser(u))
    case Show => Some(ShowItem(u, i, shares))
    case Create => Some(InternalAdmin(u))
    case Update => Some(InternalAdmin(u))
    case Destroy => Some(InternalAdmin(u))
    case Import => Some(InternalAdmin(u))
    case _ => BaseAllows(a, InternalAdmin(u), InternalAdmin(u))
  }

  /** `show?` is the item's visibility to the user's company, for an active
    * user outside the internal admins. */
  lemma ShowIsVisibility(u: Account, i: Items.Item, shares: Items.ItemShares)
    ensures ItemAllows(u, i, shares, Show) == Some(true) <==>
              ActiveUser(u) && (InternalAdmin(u) || (UserCompanyId(u).Some? && Items.VisibleTo(i, UserCompanyId(u).value, shares)))
  {
  }

  /** Why a scope could not be resolved: `current_company` is nil and `.id` raises. */
  datatype ScopeError = NoCurrentCompany

  /** `ItemPolicy::Scope#resolve`. */
  function ItemScope(u: Account, table: map<Id, Items.Item>, shares: Items.ItemShares, companyIds: set<Id>): Result<map<Id, Items.Item>, ScopeError>
  {
    if !ActiveUser(u) then Ok(map[])
    else if InternalAdmin(u) then Ok(table)
    else
      var c := CurrentCompanyId(u, companyIds);
      if c.None? then Err(NoCurrentCompany)
      else Ok(map k | k in table && (table[k].companyId == c || (k, c.value) in shares) :: table[k])
  }

  /** The list fails only for an active user outside the internal admins
    * without a current company; otherwise, with the item keyed by its id, it
    * holds exactly the items `show?` opens. */
  lemma ItemScopeMatchesShow(u: Account, table: map<Id, Items.Item>, shares: Items.ItemShares, companyIds: set<Id>, k: Id)
    requires k in table && table[k].id == k
    requires InternalAdmin(u) || CurrentCompanyId(u, companyIds) == UserCompanyId(u)
    ensures ItemScope(u, table, shares, companyIds).Err? <==> ActiveUser(u) && !InternalAdmin(u) && UserCompanyId(u).None?
    ensures ItemScope(u, table, shares, companyIds).Ok? ==>
              (k in ItemScope(u, table, shares, companyIds).value <==> ItemAllows(u, table[k], shares, Show) == Some(true))
  {
  }

  /** A company with no share sees only its own items. */
  lemma ItemScopeWithoutShares(u: Account, table: map<Id, Items.Item>, companyIds: set<Id>)
    requires ActiveUser(u) && !InternalAdmin(u)
    requires ItemScope(u, table, {}, companyIds).Ok?
    ensures forall k :: k in ItemScope(u, table, {}, companyIds).value ==> table[k].companyId == UserCompanyId(u)
  {
  }
}
