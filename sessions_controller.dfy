// Users::SessionsController: where the framework sends a member right after
// signing in and right after signing out.  The redirect the framework issues
// after a successful sign-in goes to `after_sign_in_path_for`; the model
// returns that redirect, with the sign-out and the alert the method performs
// on the way.

module SessionsController {
  import opened Common
  import opened Web
  import UserProfiles
  import Users
  import ApplicationController

  /** `after_sign_in_path_for`: a pending member waits on the approval page;
    * a rejected or unassigned member is signed out again and sent to the
    * login page with the matching alert; anyone else (an active member, or
    * an account without a profile) goes to the location stored before the
    * login, or to the dashboard. */
  function AfterSignIn(profile: Option<UserProfiles.Profile>, stored: Option<string>): (r: Response)
    ensures r.Redirect?
    ensures r.signOut <==> profile.Some? && profile.value.memberStatus in {UserProfiles.Rejected, UserProfiles.Unassigned}
    ensures r.to == PendingApproval && !r.signOut <==> profile.Some? && profile.value.memberStatus == UserProfiles.Pending
    ensures r.signOut ==> r.to == Login
    ensures r.flash != NoFlash <==> r.signOut
    ensures (profile.None? || profile.value.memberStatus == UserProfiles.Active) ==>
              r.to == (if stored.Some? then Stored(stored.value) else Dashboard)
  {
    if profile.Some? && profile.value.memberStatus == UserProfiles.Pending then
      Redirect(PendingApproval, NoFlash, false)
    else if profile.Some? && profile.value.memberStatus == UserProfiles.Rejected then
      Redirect(Login, Alert(ApplicationController.RejectedKey), true)
    else if profile.Some? && profile.value.memberStatus == UserProfiles.Unassigned then
      Redirect(Login, Alert(ApplicationController.UnassignedKey), true)
    else
      Redirect(if stored.Some? then Stored(stored.value) else Dashboard, NoFlash, false)
  }

  /** `after_sign_out_path_for`: always the login page. */
  function AfterSignOut(): (r: Page)
    ensures r == Login
  {
    Login
  }

  /** The landing choice agrees with the per-request member-status gate: for
    * every profile the gate stops, signing in ends exactly where the gate
    * would have sent the member (same page, same alert, same sign-out), and
    * for every profile the gate lets through, signing in neither signs out
    * nor lands on the waiting page unless that was the stored location. */
  lemma SignInAgreesWithGate(p: UserProfiles.Profile, stored: Option<string>)
    ensures ApplicationController.CheckMemberStatus(true, false, Some(p)) != Continue ==>
              AfterSignIn(Some(p), stored) == ApplicationController.CheckMemberStatus(true, false, Some(p))
    ensures ApplicationController.CheckMemberStatus(true, false, Some(p)) == Continue ==>
              AfterSignIn(Some(p), stored) == Redirect(if stored.Some? then Stored(stored.value) else Dashboard, NoFlash, false)
  {
  }

  /** A member the framework lets sign in (`active_for_authentication?`) is
    * never signed out again nor sent to the waiting page by the landing
    * choice: the pending, rejected and unassigned branches only run for
    * members whose sign-in the framework already refuses. */
  lemma AuthenticatedMembersLandNormally(frameworkActive: bool, profile: Option<UserProfiles.Profile>, stored: Option<string>)
    requires Users.ActiveForAuthentication(frameworkActive, profile)
    ensures AfterSignIn(profile, stored) == Redirect(if stored.Some? then Stored(stored.value) else Dashboard, NoFlash, false)
  {
  }
}
