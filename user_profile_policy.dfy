// Who may see and change member profiles: everyone their own, admins the
// profiles of their company; nobody changes their own role.

module UserProfilePolicy {
  import opened Common
  import opened MultiTenant
  import opened ApplicationPolicy
  import UserProfiles

  type Profile = UserProfiles.Profile

  /** The profile belongs to the signed-in user. */
  predicate OwnProfile(u: Account, p: Profile)
  {
    p.userId == Some(u.id)
  }

  predicate CompanyAdminOf(u: Account, p: Profile)
  {
    AdminOrCompanyAdmin(u) && ActiveUser(u) && SameCompany(u, p.companyId)
  }

  function ProfileAllows(u: Account, p: Profile, a: Action): Decision
  {
    match a
    case Index => Some(AdminOrCompanyAdmin(u) && ActiveUser(u))
    case Show => Some(if OwnProfile(u, p) then true else CompanyAdminOf(u, p))
    case Update => Some(if OwnProfile(u, p) then ActiveUser(u) else CompanyAdminOf(u, p))
    case ChangeRole => Some(CompanyAdminOf(u, p) && p.userId != Some(u.id))
    case _ => BaseAllows(a, false, if OwnProfile(u, p) then ActiveUser(u) else CompanyAdminOf(u, p))
  }

  /** The own profile is always visible, whatever the member status, and
    * editable exactly while active; the role is never one's own to change. */
  lemma OwnProfileRules(u: Account, p: Profile)
    requires OwnProfile(u, p)
    ensures ProfileAllows(u, p, Show) == Some(true)
    ensures ProfileAllows(u, p, Update) == Some(ActiveUser(u))
    ensures ProfileAllows(u, p, ChangeRole) == Some(false)
  {
  }

  /** On another user's profile, `change_role?`, `update?` and `show?` coincide:
    * an active admin of the profile's company. */
  lemma OthersProfileRules(u: Account, p: Profile)
    requires !OwnProfile(u, p)
    ensures ProfileAllows(u, p, ChangeRole) == Some(CompanyAdminOf(u, p))
    ensures ProfileAllows(u, p, Update) == ProfileAllows(u, p, ChangeRole)
    ensures ProfileAllows(u, p, Show) == ProfileAllows(u, p, ChangeRole)
  {
  }

  /** `UserProfilePolicy::Scope#resolve`. */
  function ProfileScope(u: Account, table: map<Id, Profile>, companyIds: set<Id>): map<Id, Profile>
  {
    if !ActiveUser(u) then map[]
    else if InternalAdmin(u) then table
    else if CompanyAdmin(u) then ForCompany(table, (p: Profile) => p.companyId, CurrentCompanyId(u, companyIds))
    else map k | k in table && table[k].userId == Some(u.id) :: table[k]
  }

  /** Members outside the admins list only their own profile; every listed
    * profile, for anyone but an internal admin, is their own or one of their
    * company, and each listed profile with a company can be opened. */
  lemma ProfileScopeMatchesShow(u: Account, table: map<Id, Profile>, companyIds: set<Id>)
    ensures !AdminOrCompanyAdmin(u) ==> forall k :: k in ProfileScope(u, table, companyIds) ==> OwnProfile(u, table[k])
    ensures !InternalAdmin(u) ==> forall k :: k in ProfileScope(u, table, companyIds) ==>
              k in table && (OwnProfile(u, table[k]) || table[k].companyId.None? || table[k].companyId == UserCompanyId(u))
    ensures forall k :: k in ProfileScope(u, table, companyIds) && (table[k].companyId.Some? || OwnProfile(u, table[k])) ==>
              ProfileAllows(u, table[k], Show) == Some(true)
  {
  }
}
