// Data migration MoveApproverToReceivingCenters: approvers may now only be
// set on receiving centers, so `up` clears the approver of every billing
// center that has one, in one bulk update over the `customers` table; `down`
// cannot restore the cleared approvers and does nothing.

module MoveApproverMigration {
  import opened Common
  import Customers

  /** One row through the bulk update: a billing center with an approver
    * loses it; every other row is not touched. */
  function Cleared(c: Customers.Customer): (r: Customers.Customer)
    ensures c.isBillingCenter ==> r.approverProfileId.None?
    ensures !c.isBillingCenter || c.approverProfileId.None? ==> r == c
    ensures r.(approverProfileId := c.approverProfileId) == c
  {
    if c.isBillingCenter && c.approverProfileId.Some? then c.(approverProfileId := None) else c
  }

  /** Running the migration again changes nothing. */
  lemma ClearedIdempotent(c: Customers.Customer)
    ensures Cleared(Cleared(c)) == Cleared(c)
  {
  }

  /** `up`: `Customer.where(is_billing_center: true)
    * .where.not(approver_user_profile_id: nil)
    * .update_all(approver_user_profile_id: nil)`, row by row. */
  method Up(customers: array<Customers.Customer>)
    modifies customers
    ensures forall i :: 0 <= i < customers.Length ==> customers[i] == Cleared(old(customers[i]))
    ensures forall i :: 0 <= i < customers.Length && customers[i].isBillingCenter ==>
              customers[i].approverProfileId.None?
    ensures forall i :: 0 <= i < customers.Length && !old(customers[i]).isBillingCenter ==>
              customers[i] == old(customers[i])
  {
    var i := 0;
    while i < customers.Length
      invariant 0 <= i <= customers.Length
      invariant forall j :: 0 <= j < i ==> customers[j] == Cleared(old(customers[j]))
      invariant forall j :: i <= j < customers.Length ==> customers[j] == old(customers[j])
    {
      var c := customers[i];
      if c.isBillingCenter && c.approverProfileId.Some? {
        customers[i] := c.(approverProfileId := None);
      }
      i := i + 1;
    }
  }

  /** `down`: the migration is not reversed; the table stays as it is. */
  method Down(customers: array<Customers.Customer>)
    ensures customers[..] == old(customers[..])
  {
  }
}
