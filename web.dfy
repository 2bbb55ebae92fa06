// How a controller action ends, as far as the modelled decisions go: it goes
// on (renders its page), redirects with an optional flash message (signing
// the user out first where the action does), renders a view with an error
// status, or ends in an exception no handler rescues (`Raised`, the error
// page).  Flash texts are the I18n keys (or literal texts) the
// controllers pass; the translations themselves are not modelled.

module Web {
  import opened Common

  /** The pages the modelled redirects go to. */
  datatype Page =
    | Root
    | Dashboard
    | PendingApproval
    | Login
    | ShippingRequests
    | ShippingRequest(manufacturerId: Id, month: Option<string>)
    | Back(fallback: Page)
    | Stored(location: string)
    | OrdersIndex
    | OrderPage(orderId: Id)
    | CustomersIndex
    | CustomerPage(customerId: Id)
    | ImportCustomersPage
    | ItemsIndex
    | ItemPage(itemId: Id)
    | ManufacturersIndex
    | ManufacturerPage(manufacturerId: Id)
    | AdminUserProfile(profileId: Id)
    | AdminCompanyPage(companyId: Id)
    | AdminCompanyPayments
    | SignUp
    | EditRegistration

  /** A flash message. */
  datatype Flash = NoFlash | Alert(text: string) | Notice(text: string)

  datatype Response =
    | Continue
    | Redirect(to: Page, flash: Flash, signOut: bool)
    | Render(view: string, status: nat)
    | Raised

  /** `redirect_to page, alert: text` (or `notice:`), without signing out. */
  function RedirectWith(to: Page, flash: Flash): (r: Response)
    ensures r.Redirect? && r.to == to && r.flash == flash && !r.signOut
  {
    Redirect(to, flash, false)
  }

  /** A submitted form value: a scalar or an array of scalars. */
  datatype Param = Text(text: string) | List(items: seq<string>)

  /** The keys `permit` keeps: a scalar key with a scalar value, or an array
    * key with an array value. */
  predicate Permitted(k: string, v: Param, scalars: set<string>, lists: set<string>)
  {
    (k in scalars && v.Text?) || (k in lists && v.List?)
  }

  /** `params.require(form).permit(*scalars, list => [])` on the submitted form. */
  function Permit(submitted: map<string, Param>, scalars: set<string>, lists: set<string>): (r: map<string, Param>)
    ensures r.Keys <= submitted.Keys
    ensures forall k :: k in r ==> r[k] == submitted[k] && (k in scalars || k in lists)
  {
    map k | k in submitted && Permitted(k, submitted[k], scalars, lists) :: submitted[k]
  }

  /** Mass-assignment protection: a key outside the permitted lists can be
    * added, changed or dropped without changing what gets through, and
    * permitting twice keeps what permitting once kept. */
  lemma PermitIgnoresOtherKeys(submitted: map<string, Param>, scalars: set<string>, lists: set<string>, k: string, v: Param)
    requires k !in scalars && k !in lists
    ensures Permit(submitted[k := v], scalars, lists) == Permit(submitted, scalars, lists)
    ensures Permit(submitted - {k}, scalars, lists) == Permit(submitted, scalars, lists)
    ensures Permit(Permit(submitted, scalars, lists), scalars, lists) == Permit(submitted, scalars, lists)
  {
    var once := Permit(submitted, scalars, lists);
    assert Permit(submitted[k := v], scalars, lists).Keys == once.Keys;
    assert Permit(submitted - {k}, scalars, lists).Keys == once.Keys;
    assert Permit(once, scalars, lists).Keys == once.Keys;
  }

  /** `render view, status: :unprocessable_entity`. */
  const Unprocessable: nat := 422
}
