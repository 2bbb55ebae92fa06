// The manufacturer screens (`ManufacturersController`): lookups through the
// policy scope, the domains parameter (normalised by
// `Domains.NormalizeDomainsParam`) and the guarded delete.

module ManufacturersController {
  import opened Common
  import opened Web
  import Manufacturers
  import Items
  import UserProfiles
  import ApplicationPolicy
  import ManufacturerPolicy

  type Account = ApplicationPolicy.Account

  const DestroyHasItemsKey: string := "manufacturers.destroy_has_items"
  const DestroyedKey: string := "manufacturers.destroyed"

  /** `set_manufacturer`: `policy_scope(Manufacturer).find(params[:id])`;
    * a miss is the framework's RecordNotFound (`None`). */
  function FindManufacturer(u: Account, id: Id, table: map<Id, Manufacturers.Manufacturer>): (r: Option<Manufacturers.Manufacturer>)
    ensures r.Some? <==> id in ManufacturerPolicy.ManufacturerScope(u, table)
    ensures r.Some? ==> r.value == table[id]
  {
    var scope := ManufacturerPolicy.ManufacturerScope(u, table);
    if id in scope then Some(scope[id]) else None
  }

  /** A manufacturer's own user finds no other manufacturer, whatever id is
    * asked for, and an inactive user finds none. */
  lemma LookupStaysInScope(u: Account, id: Id, table: map<Id, Manufacturers.Manufacturer>)
    ensures !ApplicationPolicy.ActiveUser(u) ==> FindManufacturer(u, id, table).None?
    ensures ApplicationPolicy.ActiveUser(u) && UserProfiles.ManufacturerUser(u.profile.value)
              && Some(id) != u.profile.value.manufacturerId
            ==> FindManufacturer(u, id, table).None?
    ensures ApplicationPolicy.ActiveUser(u) && !UserProfiles.ManufacturerUser(u.profile.value) && id in table ==>
              FindManufacturer(u, id, table) == Some(table[id])
  {
  }

  /** The manufacturer has items (`items.any?`). */
  predicate HasItems(id: Id, items: map<Id, Items.Item>)
  {
    exists k :: k in items && items[k].manufacturerId == Some(id)
  }

  /** `dependent: :nullify` on the profiles of a deleted manufacturer. */
  function NullifyProfiles(id: Id, profiles: map<Id, UserProfiles.Profile>): (r: map<Id, UserProfiles.Profile>)
    ensures r.Keys == profiles.Keys
    ensures forall k :: k in r ==> r[k].manufacturerId != Some(id)
    ensures forall k :: k in r && profiles[k].manufacturerId != Some(id) ==> r[k] == profiles[k]
    ensures forall k :: k in r && profiles[k].manufacturerId == Some(id) ==> r[k] == profiles[k].(manufacturerId := None)
  {
    map k | k in profiles :: if profiles[k].manufacturerId == Some(id) then profiles[k].(manufacturerId := None) else profiles[k]
  }

  class ManufacturerRegistry {
    var manufacturers: map<Id, Manufacturers.Manufacturer>
    var items: map<Id, Items.Item>
    var profiles: map<Id, UserProfiles.Profile>

    constructor(ms: map<Id, Manufacturers.Manufacturer>, its: map<Id, Items.Item>, ps: map<Id, UserProfiles.Profile>)
      ensures manufacturers == ms && items == its && profiles == ps
    {
      manufacturers := ms;
      items := its;
      profiles := ps;
    }

    /** `destroy` of a found manufacturer: refused, with nothing deleted, while
      * any item names it; otherwise the row goes and its users' profiles lose
      * the link (no callback can stop it, so the failure branch is never
      * taken). */
    method Destroy(id: Id) returns (resp: Response)
      requires id in manufacturers
      modifies this
      ensures items == old(items)
      ensures HasItems(id, old(items)) ==>
                manufacturers == old(manufacturers) && profiles == old(profiles)
                && resp == RedirectWith(ManufacturersIndex, Alert(DestroyHasItemsKey))
      ensures !HasItems(id, old(items)) ==>
                manufacturers == old(manufacturers) - {id} && profiles == NullifyProfiles(id, old(profiles))
                && resp == RedirectWith(ManufacturersIndex, Notice(DestroyedKey))
    {
      if exists k :: k in items && items[k].manufacturerId == Some(id) {
        resp := RedirectWith(ManufacturersIndex, Alert(DestroyHasItemsKey));
      } else {
        manufacturers := manufacturers - {id};
        profiles := NullifyProfiles(id, profiles);
        resp := RedirectWith(ManufacturersIndex, Notice(DestroyedKey));
      }
    }
  }

  /** After a delete, no item and no profile is left pointing at a missing
    * manufacturer, provided none did before. */
  lemma DestroyKeepsReferences(id: Id, ms: map<Id, Manufacturers.Manufacturer>, items: map<Id, Items.Item>,
                               profiles: map<Id, UserProfiles.Profile>)
    requires !HasItems(id, items)
    requires forall k :: k in items && items[k].manufacturerId.Some? ==> items[k].manufacturerId.value in ms
    requires forall k :: k in profiles && profiles[k].manufacturerId.Some? ==> profiles[k].manufacturerId.value in ms
    ensures forall k :: k in items && items[k].manufacturerId.Some? ==> items[k].manufacturerId.value in ms - {id}
    ensures var ps := NullifyProfiles(id, profiles);
            forall k :: k in ps && ps[k].manufacturerId.Some? ==> ps[k].manufacturerId.value in ms - {id}
  {
  }
}
