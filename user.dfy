// The user account's own rules: the profile created after sign-up from the
// e-mail domain (pending with one approval request when a company matches,
// unassigned otherwise), the authentication gate and its inactive message,
// and the profile-derived company accessors.

module Users {
  import opened Common
  import opened Domains
  import UserProfiles
  import Companies
  import ApprovalRequests

  /** `email.split("@").first`: nil when the split is empty. */
  function LocalName(email: string): (r: Option<string>)
    ensures r.Some? ==> '@' !in r.value
  {
    var parts := RubySplit(email, '@');
    if parts == [] then None else Some(parts[0])
  }

  /** The name of `local@domain` is `local`. */
  lemma LocalNameOf(local: string, domain: string)
    requires '@' !in local && local != ""
    ensures LocalName(local + "@" + domain) == Some(local)
  {
    assert local + "@" + domain == local + ['@'] + domain;
    PiecesFirst(local, domain, '@');
  }

  /** The id of the company `Company.find_by_email_domain(email)` returns, if any. */
  function MatchedCompanyId(email: string, companies: seq<Companies.Company>): (r: Option<Id>)
    reads set c | c in companies
    ensures r.Some? ==> exists c :: c in companies && c.id == r.value && c.isActive
  {
    var found := Companies.FindByEmailDomain(email, companies);
    if found.Some? then Some(found.value.id) else None
  }

  /** The profile `build_user_profile` prepares: named after the e-mail's local
    * part, pending in the matched company or unassigned without one; the other
    * columns take their defaults. */
  function NewProfile(pid: Id, userId: Id, email: string, company: Option<Id>): (p: UserProfiles.Profile)
    ensures p.companyId == company && p.role == UserProfiles.Normal
    ensures p.memberStatus == (if company.Some? then UserProfiles.Pending else UserProfiles.Unassigned)
  {
    UserProfiles.Profile(pid, Some(userId), LocalName(email), None, None, UserProfiles.Normal,
                         if company.Some? then UserProfiles.Pending else UserProfiles.Unassigned,
                         company, None, None, None)
  }

  /** The request `ApprovalRequest.create!` is given. */
  function PendingRequest(pid: Id, companyId: Id): ApprovalRequests.RequestRow
  {
    ApprovalRequests.RequestRow(pid, Some(companyId), ApprovalRequests.Pending, None, None, None)
  }

  /** The new profile never lacks a company it needs, and is valid exactly when its
    * name is present and short enough and its user has no other profile. */
  lemma NewProfileValidity(pid: Id, userId: Id, email: string, company: Option<Id>, rows: map<Id, UserProfiles.Profile>)
    ensures var p := NewProfile(pid, userId, email, company);
            UserProfiles.ProfileValid(p, rows) <==>
              !BlankOpt(p.name) && !LongerThan(p.name, 255) && !UserProfiles.UserIdTakenIn(p, rows)
  {
    var p := NewProfile(pid, userId, email, company);
    assert !UserProfiles.SupervisorMismatch(p, rows);
  }

  /** The `after_create` callback `create_user_profile_from_domain`.  It runs in
    * the sign-up transaction: when saving the profile or creating the request
    * raises, nothing is written. */
  method CreateUserProfileFromDomain(userId: Id, email: string, companies: seq<Companies.Company>,
                                     profiles: UserProfiles.ProfileTable, pid: Id,
                                     requests: ApprovalRequests.RequestTable, rid: Id)
    returns (ok: bool)
    modifies profiles, requests
    ensures var cid := old(MatchedCompanyId(email, companies));
            ok <==> pid !in old(profiles.rows)
                    && UserProfiles.ProfileValid(NewProfile(pid, userId, email, cid), old(profiles.rows))
                    && (cid.Some? ==> rid !in old(requests.rows)
                                      && ApprovalRequests.RequestErrors(rid, PendingRequest(pid, cid.value), None, old(requests.rows)) == {})
    ensures ok ==> profiles.rows == old(profiles.rows)[pid := NewProfile(pid, userId, email, old(MatchedCompanyId(email, companies)))]
    ensures ok && old(MatchedCompanyId(email, companies)).Some? ==>
              requests.rows == old(requests.rows)[rid := PendingRequest(pid, old(MatchedCompanyId(email, companies)).value)]
    ensures !ok || old(MatchedCompanyId(email, companies)).None? ==> requests.rows == old(requests.rows)
    ensures !ok ==> profiles.rows == old(profiles.rows)
  {
    var cid := MatchedCompanyId(email, companies);
    var rows0 := profiles.rows;
    var reqs0 := requests.rows;
    var p := NewProfile(pid, userId, email, cid);
    ok := profiles.Insert(p);
    if !ok || cid.None? {
      return;
    }
    ok := requests.Create(rid, PendingRequest(pid, cid.value), None);
    if !ok {
      profiles.rows := rows0;
    }
  }

  /** After a sign-up that matched a company, the new profile has exactly one
    * request, pending and for that company, provided no request referred to the
    * fresh profile id before. */
  lemma {:induction false} SignupLeavesOnePendingRequest(rows: map<Id, ApprovalRequests.RequestRow>, pid: Id, rid: Id, cid: Id)
    requires forall k :: k in rows ==> rows[k].userProfileId != pid
    ensures var rows' := rows[rid := PendingRequest(pid, cid)];
            (forall k :: k in rows' && rows'[k].userProfileId == pid ==> k == rid)
            && rows'[rid].status == ApprovalRequests.Pending && rows'[rid].companyId == Some(cid)
  {
  }

  /** `active_for_authentication?`: the framework's own checks and an active profile. */
  predicate ActiveForAuthentication(frameworkActive: bool, profile: Option<UserProfiles.Profile>)
  {
    frameworkActive && profile.Some? && UserProfiles.IsActive(profile.value)
  }

  /** The keys `inactive_message` can return. */
  datatype InactiveKey = PendingApprovalKey | AccountRejectedKey | FrameworkKey

  /** `inactive_message`. */
  function InactiveMessage(profile: Option<UserProfiles.Profile>): InactiveKey
  {
    if profile.Some? && profile.value.memberStatus == UserProfiles.Pending then PendingApprovalKey
    else if profile.Some? && profile.value.memberStatus == UserProfiles.Rejected then AccountRejectedKey
    else FrameworkKey
  }

  /** A refused sign-in is explained by the profile's status: pending and
    * rejected members get their own key, and an active member is never refused
    * by the profile check. */
  lemma InactiveMessageExplains(frameworkActive: bool, profile: Option<UserProfiles.Profile>)
    ensures frameworkActive && !ActiveForAuthentication(frameworkActive, profile) ==>
              profile.None? || profile.value.memberStatus != UserProfiles.Active
    ensures InactiveMessage(profile) == PendingApprovalKey <==> profile.Some? && profile.value.memberStatus == UserProfiles.Pending
    ensures InactiveMessage(profile) == AccountRejectedKey <==> profile.Some? && profile.value.memberStatus == UserProfiles.Rejected
    ensures InactiveMessage(profile) != FrameworkKey ==> !ActiveForAuthentication(frameworkActive, profile)
  {
  }

  /** `company_id`: the profile's company id, nil without a profile. */
  function CompanyIdOf(a: UserProfiles.Account): Option<Id>
  {
    if a.profile.Some? then a.profile.value.companyId else None
  }

  /** `current_company`: the profile's company row, nil without a profile or company. */
  function CurrentCompany(a: UserProfiles.Account, companies: map<Id, Companies.Company>): (r: Option<Companies.Company>)
    ensures r.Some? ==> CompanyIdOf(a).Some? && CompanyIdOf(a).value in companies
    ensures a.profile.None? ==> r.None?
  {
    var cid := CompanyIdOf(a);
    if cid.Some? && cid.value in companies then Some(companies[cid.value]) else None
  }

  /** In a table keyed by id, the current company is the one `company_id` names. */
  lemma CurrentCompanyAgrees(a: UserProfiles.Account, companies: map<Id, Companies.Company>)
    requires forall k :: k in companies ==> companies[k].id == k
    ensures CurrentCompany(a, companies).Some? ==> Some(CurrentCompany(a, companies).value.id) == CompanyIdOf(a)
    ensures CompanyIdOf(a).Some? && CompanyIdOf(a).value in companies ==> CurrentCompany(a, companies).Some?
  {
  }
}
