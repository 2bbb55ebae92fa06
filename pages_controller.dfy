// PagesController: the public home page, which sends a signed-in member on
// to their own start page, and the page a member waits on until the company
// approves the membership.

module PagesController {
  import opened Common
  import opened Web
  import UserProfiles
  import ApplicationController

  /** `home` (open without signing in): an anonymous visitor sees the page; a
    * signed-in manufacturer user goes to the shipping requests and any other
    * member to the dashboard. */
  function Home(signedIn: bool, profile: Option<UserProfiles.Profile>): (r: Response)
    ensures r == Continue <==> !signedIn
    ensures r != Continue ==> r.Redirect? && r.flash == NoFlash && !r.signOut
    ensures r.Redirect? ==>
              (r.to == ShippingRequests <==> profile.Some? && UserProfiles.ManufacturerUser(profile.value))
    ensures r.Redirect? ==> r.to in {ShippingRequests, Dashboard}
  {
    if !signedIn then Continue
    else if profile.Some? && UserProfiles.ManufacturerUser(profile.value) then RedirectWith(ShippingRequests, NoFlash)
    else RedirectWith(Dashboard, NoFlash)
  }

  /** `pending_approval` (exempt from the member-status gate): shown only to
    * a member whose profile is pending; everyone else goes to the dashboard. */
  function PendingApprovalPage(profile: Option<UserProfiles.Profile>): (r: Response)
    ensures r == Continue <==> profile.Some? && profile.value.memberStatus == UserProfiles.Pending
    ensures r != Continue ==> r == RedirectWith(Dashboard, NoFlash)
  {
    if profile.Some? && profile.value.memberStatus == UserProfiles.Pending then Continue
    else RedirectWith(Dashboard, NoFlash)
  }

  /** The waiting page and the member-status gate fit together without a
    * redirect loop: the gate sends a member to the waiting page exactly when
    * the waiting page shows itself to that member. */
  lemma WaitingPageMatchesGate(p: UserProfiles.Profile)
    ensures (ApplicationController.CheckMemberStatus(true, false, Some(p)) == Redirect(PendingApproval, NoFlash, false))
              == (PendingApprovalPage(Some(p)) == Continue)
  {
  }

  /** The start page `home` sends a manufacturer user to is one the
    * manufacturer restriction lets them open. */
  lemma ManufacturerLandingIsOpen(p: UserProfiles.Profile)
    requires UserProfiles.ManufacturerUser(p)
    ensures Home(true, Some(p)) == RedirectWith(ShippingRequests, NoFlash)
    ensures ApplicationController.RestrictManufacturer(true, "shipping_requests") == Continue
  {
    ApplicationController.ControllerNameOfPlain("shipping_requests");
  }
}
