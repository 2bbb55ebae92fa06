// The item screens (`ItemsController`): which company's items the list shows,
// the replacement of an item's sharing pairs (`update_visible_companies`),
// and the soft delete.

module ItemsController {
  import opened Common
  import opened Web
  import Items
  import ApplicationPolicy
  import ItemPolicy
  import CustomersController

  type Account = ApplicationPolicy.Account

  const DeactivatedKey: string := "items.deactivated"
  const DeactivateFailedKey: string := "items.deactivate_failed"

  // ---------------------------------------------------------------------
  // index

  /** `@companies`: the active companies (ordered by code, as given) for an
    * internal admin, `[current_company].compact` for anyone else. */
  function OfferedCompanies(u: Account, activeByCode: seq<Id>, companyIds: set<Id>): (r: seq<Id>)
    ensures ApplicationPolicy.InternalAdmin(u) ==> r == activeByCode
    ensures !ApplicationPolicy.InternalAdmin(u) ==>
              (r == [] <==> ApplicationPolicy.CurrentCompanyId(u, companyIds).None?)
              && forall i :: 0 <= i < |r| ==> Some(r[i]) == ApplicationPolicy.CurrentCompanyId(u, companyIds)
  {
    if ApplicationPolicy.InternalAdmin(u) then activeByCode
    else
      var c := ApplicationPolicy.CurrentCompanyId(u, companyIds);
      if c.Some? then [c.value] else []
  }

  predicate Offers(offered: seq<Id>, x: int)
  {
    exists i :: 0 <= i < |offered| && offered[i] == x
  }

  /** `@selected_company`: the company named by `params[:company_id]&.to_i`
    * when it is offered, otherwise the first offered company (nil when none). */
  function SelectCompany(offered: seq<Id>, param: Option<string>): (r: Option<Id>)
    ensures r.None? <==> offered == []
    ensures r.Some? ==> r.value in offered
    ensures param.Some? && Offers(offered, ToI(param.value)) ==> r.Some? && r.value == ToI(param.value)
    ensures (param.None? || !Offers(offered, ToI(param.value))) && offered != [] ==> r == Some(offered[0])
  {
    if param.Some? && Offers(offered, ToI(param.value)) then
      var x := ToI(param.value);
      var i :| 0 <= i < |offered| && offered[i] == x;
      Some(offered[i])
    else if offered == [] then None
    else Some(offered[0])
  }

  /** A link carrying an offered company's id selects that company. */
  lemma SelectOfferedCompany(offered: seq<Id>, c: Id)
    requires c in offered
    ensures SelectCompany(offered, Some(IntToString(c))) == Some(c)
  {
    ToIOfIntToString(c);
    var i :| 0 <= i < |offered| && offered[i] == c;
    assert Offers(offered, ToI(IntToString(c)));
  }

  /** `policy_scope(Item).for_company(selected)`: the scope fails for a
    * member without a current company (the policy reads its id). */
  function ListedItems(u: Account, items: map<Id, Items.Item>, shares: Items.ItemShares,
                       companyIds: set<Id>, selected: Option<Id>): (r: Result<map<Id, Items.Item>, ItemPolicy.ScopeError>)
    ensures r.Ok? <==> ItemPolicy.ItemScope(u, items, shares, companyIds).Ok?
    ensures r.Ok? ==> forall k :: k in r.value <==>
              k in ItemPolicy.ItemScope(u, items, shares, companyIds).value && selected.Some? && items[k].companyId == selected
    ensures r.Ok? ==> forall k :: k in r.value ==> r.value[k] == items[k]
  {
    match ItemPolicy.ItemScope(u, items, shares, companyIds)
    case Err(e) => Err(e)
    case Ok(scope) =>
      if selected.None? then Ok(map[])
      else Ok(map k | k in scope && scope[k].companyId == selected :: scope[k])
  }

  /** What `index` shows: the offered companies, the selected one and its items. */
  datatype ItemsPage = ItemsPage(companies: seq<Id>, selected: Option<Id>, items: map<Id, Items.Item>)

  function Index(u: Account, companyParam: Option<string>, activeByCode: seq<Id>,
                 items: map<Id, Items.Item>, shares: Items.ItemShares, companyIds: set<Id>): (r: Result<ItemsPage, ItemPolicy.ScopeError>)
    ensures r.Ok? ==> r.value.selected.None? || r.value.selected.value in r.value.companies
  {
    var offered := OfferedCompanies(u, activeByCode, companyIds);
    var selected := SelectCompany(offered, companyParam);
    match ListedItems(u, items, shares, companyIds, selected)
    case Err(e) => Err(e)
    case Ok(listed) => Ok(ItemsPage(offered, selected, listed))
  }

  /** Outside the internal admins, the list holds only items the user's own
    * company owns, whatever `company_id` is posted: items shared with the
    * company are not listed here. */
  lemma MemberListsOwnItems(u: Account, companyParam: Option<string>, activeByCode: seq<Id>,
                            items: map<Id, Items.Item>, shares: Items.ItemShares, companyIds: set<Id>)
    requires !ApplicationPolicy.InternalAdmin(u)
    requires Index(u, companyParam, activeByCode, items, shares, companyIds).Ok?
    ensures var page := Index(u, companyParam, activeByCode, items, shares, companyIds).value;
            page.selected == ApplicationPolicy.CurrentCompanyId(u, companyIds)
            && forall k :: k in page.items ==> items[k].companyId == ApplicationPolicy.CurrentCompanyId(u, companyIds)
  {
    var offered := OfferedCompanies(u, activeByCode, companyIds);
    if offered != [] {
      assert offered[0] == ApplicationPolicy.CurrentCompanyId(u, companyIds).value;
    }
  }

  /** An internal admin who selects an offered company sees exactly that
    * company's items. */
  lemma AdminListsSelectedCompany(u: Account, c: Id, activeByCode: seq<Id>,
                                  items: map<Id, Items.Item>, shares: Items.ItemShares, companyIds: set<Id>)
    requires ApplicationPolicy.InternalAdmin(u) && ApplicationPolicy.ActiveUser(u)
    requires c in activeByCode
    ensures var r := Index(u, Some(IntToString(c)), activeByCode, items, shares, companyIds);
            r.Ok? && r.value.selected == Some(c)
            && forall k :: k in r.value.items <==> k in items && items[k].companyId == Some(c)
  {
    SelectOfferedCompany(activeByCode, c);
  }

  // ---------------------------------------------------------------------
  // update_visible_companies

  /** The company a posted id names, unless it is blank, names no company
    * (`find_by` is nil) or names the item's own company. */
  function Target(id: string, companies: set<Id>, own: Option<Id>): (r: Option<Id>)
    ensures r.Some? <==> !Blank(id) && CustomersController.CastId(id).Some?
                         && CustomersController.CastId(id).value in companies && CustomersController.CastId(id) != own
    ensures r.Some? ==> r == CustomersController.CastId(id)
  {
    if Blank(id) then None
    else
      var c := CustomersController.CastId(id);
      if c.Some? && c.value in companies && c != own then c else None
  }

  /** The companies the posted ids name, as a set. */
  function Targets(ids: seq<string>, companies: set<Id>, own: Option<Id>): set<Id>
  {
    set i, c | 0 <= i < |ids| && c in companies && Target(ids[i], companies, own) == Some(c) :: c
  }

  /** `item.item_companies.destroy_all`. */
  function WithoutItem(shares: Items.ItemShares, itemId: Id): (r: Items.ItemShares)
    ensures forall p :: p in r <==> p in shares && p.0 != itemId
  {
    set p | p in shares && p.0 != itemId
  }

  /** The `create!` loop over the posted ids, left to right: a pair that
    * already exists fails the uniqueness validation and raises, keeping the
    * pairs created so far (there is no transaction). */
  function CreateFrom(shares: Items.ItemShares, itemId: Id, ids: seq<string>, companies: set<Id>, own: Option<Id>): (r: (Items.ItemShares, bool))
    ensures shares <= r.0
    decreases |ids|
  {
    if ids == [] then (shares, false)
    else
      var t := Target(ids[0], companies, own);
      if t.None? then CreateFrom(shares, itemId, ids[1..], companies, own)
      else if (itemId, t.value) in shares then (shares, true)
      else CreateFrom(shares + {(itemId, t.value)}, itemId, ids[1..], companies, own)
  }

  /** `update_visible_companies(item, company_ids)`: the new pairs and
    * whether `create!` raised. */
  function VisibleUpdate(shares: Items.ItemShares, admin: bool, itemId: Id, own: Option<Id>,
                         companyIds: Option<seq<string>>, companies: set<Id>): (Items.ItemShares, bool)
  {
    if !admin || companyIds.None? then (shares, false)
    else CreateFrom(WithoutItem(shares, itemId), itemId, companyIds.value, companies, own)
  }

  /** Two posted ids name the same company. */
  predicate Repeats(ids: seq<string>, companies: set<Id>, own: Option<Id>)
  {
    exists i, j :: 0 <= i < j < |ids| && Target(ids[i], companies, own).Some?
                   && Target(ids[i], companies, own) == Target(ids[j], companies, own)
  }

  lemma TargetsCons(ids: seq<string>, companies: set<Id>, own: Option<Id>)
    requires ids != []
    ensures Targets(ids, companies, own)
            == Targets(ids[1..], companies, own)
               + (if Target(ids[0], companies, own).Some? then {Target(ids[0], companies, own).value} else {})
  {
    var t := Target(ids[0], companies, own);
    var lhs, tail := Targets(ids, companies, own), Targets(ids[1..], companies, own);
    forall c | c in lhs
      ensures c in tail || t == Some(c)
    {
      var i :| 0 <= i < |ids| && c in companies && Target(ids[i], companies, own) == Some(c);
      if i > 0 {
        assert ids[1..][i - 1] == ids[i];
      }
    }
    forall c | c in tail
      ensures c in lhs
    {
      var i :| 0 <= i < |ids[1..]| && c in companies && Target(ids[1..][i], companies, own) == Some(c);
      assert ids[i + 1] == ids[1..][i];
    }
  }

  lemma RepeatsCons(ids: seq<string>, companies: set<Id>, own: Option<Id>)
    requires ids != []
    ensures Repeats(ids, companies, own) <==>
              Repeats(ids[1..], companies, own)
              || (Target(ids[0], companies, own).Some? && Target(ids[0], companies, own).value in Targets(ids[1..], companies, own))
  {
    if Repeats(ids, companies, own) {
      RepeatsSplit(ids, companies, own);
    }
    RepeatsFromTail(ids, companies, own);
    RepeatsFromHead(ids, companies, own);
  }

  lemma RepeatsSplit(ids: seq<string>, companies: set<Id>, own: Option<Id>)
    requires ids != [] && Repeats(ids, companies, own)
    ensures Repeats(ids[1..], companies, own)
            || (Target(ids[0], companies, own).Some? && Target(ids[0], companies, own).value in Targets(ids[1..], companies, own))
  {
    var t := Target(ids[0], companies, own);
    var tail := ids[1..];
    var i, j :| 0 <= i < j < |ids| && Target(ids[i], companies, own).Some?
                && Target(ids[i], companies, own) == Target(ids[j], companies, own);
    if i == 0 {
      assert tail[j - 1] == ids[j];
      assert t.value in Targets(tail, companies, own);
    } else {
      assert tail[i - 1] == ids[i] && tail[j - 1] == ids[j];
    }
  }

  lemma RepeatsFromTail(ids: seq<string>, companies: set<Id>, own: Option<Id>)
    requires ids != []
    ensures Repeats(ids[1..], companies, own) ==> Repeats(ids, companies, own)
  {
    var tail := ids[1..];
    if Repeats(tail, companies, own) {
      var i, j :| 0 <= i < j < |tail| && Target(tail[i], companies, own).Some?
                  && Target(tail[i], companies, own) == Target(tail[j], companies, own);
      assert ids[i + 1] == tail[i] && ids[j + 1] == tail[j];
    }
  }

  lemma RepeatsFromHead(ids: seq<string>, companies: set<Id>, own: Option<Id>)
    requires ids != []
    ensures Target(ids[0], companies, own).Some? && Target(ids[0], companies, own).value in Targets(ids[1..], companies, own)
            ==> Repeats(ids, companies, own)
  {
    var t := Target(ids[0], companies, own);
    var tail := ids[1..];
    if t.Some? && t.value in Targets(tail, companies, own) {
      var j :| 0 <= j < |tail| && Target(tail[j], companies, own) == t;
      assert ids[j + 1] == tail[j];
    }
  }

  /** Started from pairs holding none of the item's, the loop raises exactly
    * when two posted ids name the same company, and otherwise adds one pair
    * per named company. */
  lemma CreateFromExact(shares: Items.ItemShares, itemId: Id, ids: seq<string>, companies: set<Id>, own: Option<Id>)
    requires forall c :: (itemId, c) in shares ==> c !in Targets(ids, companies, own)
    ensures CreateFrom(shares, itemId, ids, companies, own).1 <==> Repeats(ids, companies, own)
    ensures !Repeats(ids, companies, own) ==>
              CreateFrom(shares, itemId, ids, companies, own).0
              == shares + set c | c in Targets(ids, companies, own) :: (itemId, c)
  {
    CreateFromRaises(shares, itemId, ids, companies, own);
    if !Repeats(ids, companies, own) {
      CreateFromAdds(shares, itemId, ids, companies, own);
    }
  }

  /** The loop raises exactly when two posted ids name the same company. */
  lemma {:induction false} CreateFromRaises(shares: Items.ItemShares, itemId: Id, ids: seq<string>, companies: set<Id>, own: Option<Id>)
    requires forall c :: (itemId, c) in shares ==> c !in Targets(ids, companies, own)
    ensures CreateFrom(shares, itemId, ids, companies, own).1 <==> Repeats(ids, companies, own)
    decreases |ids|
  {
    if ids != [] {
      TargetsCons(ids, companies, own);
      RepeatsCons(ids, companies, own);
      var t := Target(ids[0], companies, own);
      var tail := ids[1..];
      if t.None? {
        CreateFromRaises(shares, itemId, tail, companies, own);
      } else if t.value in Targets(tail, companies, own) {
        CreateFromExact1(shares + {(itemId, t.value)}, itemId, tail, companies, own, t.value);
      } else {
        CreateFromRaises(shares + {(itemId, t.value)}, itemId, tail, companies, own);
      }
    }
  }

  /** Without repeats, the loop adds one pair per company named. */
  lemma {:induction false} CreateFromAdds(shares: Items.ItemShares, itemId: Id, ids: seq<string>, companies: set<Id>, own: Option<Id>)
    requires forall c :: (itemId, c) in shares ==> c !in Targets(ids, companies, own)
    requires !Repeats(ids, companies, own)
    ensures CreateFrom(shares, itemId, ids, companies, own).0
            == shares + set c | c in Targets(ids, companies, own) :: (itemId, c)
    decreases |ids|
  {
    if ids == [] {
      assert Targets(ids, companies, own) == {};
    } else {
      TargetsCons(ids, companies, own);
      RepeatsCons(ids, companies, own);
      var t := Target(ids[0], companies, own);
      var tail := ids[1..];
      if t.None? {
        CreateFromAdds(shares, itemId, tail, companies, own);
      } else {
        var s1 := shares + {(itemId, t.value)};
        CreateFromAdds(s1, itemId, tail, companies, own);
        PairsCons(shares, itemId, Targets(tail, companies, own), t.value);
      }
    }
  }

  lemma PairsCons(shares: Items.ItemShares, itemId: Id, rest: set<Id>, c: Id)
    ensures shares + (set d | d in rest + {c} :: (itemId, d))
            == shares + {(itemId, c)} + (set d | d in rest :: (itemId, d))
  {
  }

  /** A pair already present that a later id names makes the loop raise. */
  lemma {:induction false} CreateFromExact1(shares: Items.ItemShares, itemId: Id, ids: seq<string>, companies: set<Id>, own: Option<Id>, c: Id)
    requires (itemId, c) in shares && c in Targets(ids, companies, own)
    ensures CreateFrom(shares, itemId, ids, companies, own).1
    decreases |ids|
  {
    TargetsCons(ids, companies, own);
    var t := Target(ids[0], companies, own);
    if t.None? || (t.value != c && (itemId, t.value) !in shares) {
      CreateFromExact1(if t.None? then shares else shares + {(itemId, t.value)}, itemId, ids[1..], companies, own, c);
    }
  }

  /** After an update by an internal admin that posts ids naming no company
    * twice, the item is shared with exactly the companies they name, and
    * every other item's pairs are as before. */
  lemma VisibleUpdateExact(shares: Items.ItemShares, itemId: Id, own: Option<Id>, ids: seq<string>, companies: set<Id>)
    ensures var r := VisibleUpdate(shares, true, itemId, own, Some(ids), companies);
            r.1 <==> Repeats(ids, companies, own)
    ensures var r := VisibleUpdate(shares, true, itemId, own, Some(ids), companies);
            !r.1 ==> (forall c :: (itemId, c) in r.0 <==> c in Targets(ids, companies, own))
                     && (forall p: (Id, Id) :: p.0 != itemId ==> (p in r.0 <==> p in shares))
  {
    CreateFromExact(WithoutItem(shares, itemId), itemId, ids, companies, own);
  }

  /** Posting the same ids again changes nothing. */
  lemma VisibleUpdateIdempotent(shares: Items.ItemShares, itemId: Id, own: Option<Id>, ids: seq<string>, companies: set<Id>)
    requires !VisibleUpdate(shares, true, itemId, own, Some(ids), companies).1
    ensures var once := VisibleUpdate(shares, true, itemId, own, Some(ids), companies).0;
            VisibleUpdate(once, true, itemId, own, Some(ids), companies) == (once, false)
  {
    var once := VisibleUpdate(shares, true, itemId, own, Some(ids), companies).0;
    VisibleUpdateExact(shares, itemId, own, ids, companies);
    VisibleUpdateExact(once, itemId, own, ids, companies);
    var twice := VisibleUpdate(once, true, itemId, own, Some(ids), companies).0;
    forall p: (Id, Id)
      ensures p in twice <==> p in once
    {
      if p.0 == itemId {
        assert (itemId, p.1) == p;
      }
    }
    assert twice == once;
  }

  /** The item is never shared with its own company. */
  lemma NeverSharedWithOwner(shares: Items.ItemShares, itemId: Id, own: Id, ids: seq<string>, companies: set<Id>)
    requires !VisibleUpdate(shares, true, itemId, Some(own), Some(ids), companies).1
    ensures (itemId, own) !in VisibleUpdate(shares, true, itemId, Some(own), Some(ids), companies).0
  {
    VisibleUpdateExact(shares, itemId, Some(own), ids, companies);
  }

  // ---------------------------------------------------------------------
  // the item table as the actions change it

  /** No validation looks at `is_active`. */
  lemma DeactivationKeepsItemErrors(i: Items.Item, table: map<Id, Items.Item>)
    ensures Items.ItemErrors(i.(isActive := false), table) == Items.ItemErrors(i, table)
  {
    var d := i.(isActive := false);
    forall e
      ensures Items.Violates(e, d, table) == Items.Violates(e, i, table)
    {
      if e == Items.ItemCodeTaken {
        assert Items.CodeTakenIn(d, table) == Items.CodeTakenIn(i, table);
      }
    }
  }

  class ItemCatalog {
    var items: map<Id, Items.Item>
    var shares: Items.ItemShares

    constructor(items0: map<Id, Items.Item>, shares0: Items.ItemShares)
      ensures items == items0 && shares == shares0
    {
      items := items0;
      shares := shares0;
    }

    /** `destroy`: a soft delete, `update(is_active: false)`. */
    method Destroy(id: Id) returns (resp: Response)
      requires id in items
      modifies this
      ensures shares == old(shares)
      ensures Items.ItemValid(old(items)[id], old(items)) ==>
                items == old(items)[id := old(items)[id].(isActive := false)]
                && resp == RedirectWith(ItemsIndex, Notice(DeactivatedKey))
      ensures !Items.ItemValid(old(items)[id], old(items)) ==>
                items == old(items) && resp == RedirectWith(ItemPage(id), Alert(DeactivateFailedKey))
    {
      var rec := items[id].(isActive := false);
      DeactivationKeepsItemErrors(items[id], items);
      if Items.ItemValid(rec, items) {
        items := items[id := rec];
        resp := RedirectWith(ItemsIndex, Notice(DeactivatedKey));
      } else {
        resp := RedirectWith(ItemPage(id), Alert(DeactivateFailedKey));
      }
    }

    /** `update_visible_companies(item, company_ids)` for the saved item
      * `itemId` owned by `own`; `companies` are the ids of the companies
      * table.  `raised` is the `RecordInvalid` of a repeated company. */
    method UpdateVisibleCompanies(admin: bool, itemId: Id, own: Option<Id>,
                                  companyIds: Option<seq<string>>, companies: set<Id>) returns (raised: bool)
      modifies this
      ensures items == old(items)
      ensures (shares, raised) == VisibleUpdate(old(shares), admin, itemId, own, companyIds, companies)
    {
      if !admin || companyIds.None? {
        return false;
      }
      shares := WithoutItem(shares, itemId);
      var ids := companyIds.value;
      ghost var start := shares;
      var i := 0;
      while i < |ids|
        invariant 0 <= i <= |ids|
        invariant items == old(items)
        invariant CreateFrom(shares, itemId, ids[i..], companies, own) == CreateFrom(start, itemId, ids, companies, own)
      {
        assert ids[i..][1..] == ids[i + 1..];
        var t := Target(ids[i], companies, own);
        if t.Some? {
          if (itemId, t.value) in shares {
            return true;
          }
          shares := shares + {(itemId, t.value)};
        }
        i := i + 1;
      }
      raised := false;
    }
  }
}
