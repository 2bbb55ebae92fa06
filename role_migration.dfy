// Data migration AddApproverRoleToUserProfiles: the `role` column of
// `user_profiles` is renumbered to make room for the approver role at 1.
// Before it the codes were normal 0, company_admin 1, internal_admin 2;
// after it they are those of `UserProfiles.RoleCode` (normal 0, approver 1,
// company_admin 2, internal_admin 3).  Each UPDATE statement rewrites the
// whole column in place, one statement after the other.
//
// As written, `up` moves 1 to 2 and then 2 to 3, so the second statement
// also catches the rows the first one just moved: every company admin ends
// up an internal admin.  `Up` below runs the two statements the other way
// round, which gives the renumbering the migration describes; the rest of
// the model uses the codes it produces.

module AddApproverRoleMigration {
  import opened Common
  import UserProfiles

  /** The roles as they were numbered before the migration. */
  datatype OldRole = OldNormal | OldCompanyAdmin | OldInternalAdmin

  function OldRoleCode(r: OldRole): (n: int)
    ensures 0 <= n <= 2
  {
    match r
    case OldNormal => 0
    case OldCompanyAdmin => 1
    case OldInternalAdmin => 2
  }

  /** The same role under the new numbering. */
  function NewRole(r: OldRole): UserProfiles.Role
  {
    match r
    case OldNormal => UserProfiles.Normal
    case OldCompanyAdmin => UserProfiles.CompanyAdmin
    case OldInternalAdmin => UserProfiles.InternalAdmin
  }

  /** What `UPDATE user_profiles SET role = to WHERE role = from` does to one row. */
  function UpdateCode(c: int, from: int, to: int): (r: int)
    ensures c == from ==> r == to
    ensures c != from ==> r == c
  {
    if c == from then to else c
  }

  /** A row through `up` as written. */
  function AsWrittenUpCode(c: int): int
  {
    UpdateCode(UpdateCode(c, 1, 2), 2, 3)
  }

  /** A row through the corrected `up`: 2 to 3 first, then 1 to 2. */
  function UpCode(c: int): int
  {
    UpdateCode(UpdateCode(c, 2, 3), 1, 2)
  }

  /** A row through `down`: 1 to 0, then 2 to 1, then 3 to 2. */
  function DownCode(c: int): int
  {
    UpdateCode(UpdateCode(UpdateCode(c, 1, 0), 2, 1), 3, 2)
  }

  /** As written, `up` turns a company admin (1) into an internal admin (3),
    * the same code it gives the old internal admins, and `down` cannot tell
    * them apart again. */
  lemma AsWrittenUpPromotesCompanyAdmins()
    ensures AsWrittenUpCode(OldRoleCode(OldCompanyAdmin)) == UserProfiles.RoleCode(UserProfiles.InternalAdmin)
    ensures AsWrittenUpCode(OldRoleCode(OldCompanyAdmin)) == AsWrittenUpCode(OldRoleCode(OldInternalAdmin))
    ensures DownCode(AsWrittenUpCode(OldRoleCode(OldCompanyAdmin))) != OldRoleCode(OldCompanyAdmin)
  {
  }

  /** The corrected `up` gives every old role the new code of the same role,
    * leaves code 1 free for the approvers, and `down` undoes it. */
  lemma UpRenumbersEachRole(r: OldRole)
    ensures UpCode(OldRoleCode(r)) == UserProfiles.RoleCode(NewRole(r))
    ensures UpCode(OldRoleCode(r)) != UserProfiles.RoleCode(UserProfiles.Approver)
    ensures DownCode(UpCode(OldRoleCode(r))) == OldRoleCode(r)
  {
  }

  /** `down` sends each new role to the old code of the same role, and an
    * approver back to normal. */
  lemma DownRenumbersEachRole(r: UserProfiles.Role)
    ensures DownCode(UserProfiles.RoleCode(r)) ==
              match r
              case Normal => OldRoleCode(OldNormal)
              case Approver => OldRoleCode(OldNormal)
              case CompanyAdmin => OldRoleCode(OldCompanyAdmin)
              case InternalAdmin => OldRoleCode(OldInternalAdmin)
  {
  }

  /** The column rewritten code by code. */
  function MapCodes(roles: map<Id, int>, f: int -> int): (r: map<Id, int>)
    ensures r.Keys == roles.Keys
    ensures forall k :: k in r ==> r[k] == f(roles[k])
  {
    map k | k in roles :: f(roles[k])
  }

  /** Over a whole table holding only old codes, the corrected `up` followed
    * by `down` gives the table back. */
  lemma UpThenDownRestores(roles: map<Id, int>)
    requires forall k :: k in roles ==> 0 <= roles[k] <= 2
    ensures MapCodes(MapCodes(roles, UpCode), DownCode) == roles
  {
    var back := MapCodes(MapCodes(roles, UpCode), DownCode);
    forall k | k in roles
      ensures back[k] == roles[k]
    {
      var r := if roles[k] == 0 then OldNormal else if roles[k] == 1 then OldCompanyAdmin else OldInternalAdmin;
      UpRenumbersEachRole(r);
    }
  }

  /** The `role` column of `user_profiles`, by profile id. */
  class RoleColumn {
    var roles: map<Id, int>

    constructor (roles: map<Id, int>)
      ensures this.roles == roles
    {
      this.roles := roles;
    }

    /** One `UPDATE user_profiles SET role = to WHERE role = from`. */
    method UpdateWhere(from: int, to: int)
      modifies this
      ensures roles.Keys == old(roles).Keys
      ensures forall k :: k in roles ==> roles[k] == UpdateCode(old(roles)[k], from, to)
    {
      roles := map k | k in roles :: UpdateCode(roles[k], from, to);
    }

    /** `up` as written: 1 to 2, then 2 to 3. */
    method UpAsWritten()
      modifies this
      ensures roles.Keys == old(roles).Keys
      ensures forall k :: k in roles ==> roles[k] == AsWrittenUpCode(old(roles)[k])
    {
      UpdateWhere(1, 2);
      UpdateWhere(2, 3);
    }

    /** `up` corrected: 2 to 3, then 1 to 2. */
    method Up()
      modifies this
      ensures roles.Keys == old(roles).Keys
      ensures forall k :: k in roles ==> roles[k] == UpCode(old(roles)[k])
    {
      UpdateWhere(2, 3);
      UpdateWhere(1, 2);
    }

    /** `down`: 1 to 0, then 2 to 1, then 3 to 2. */
    method Down()
      modifies this
      ensures roles.Keys == old(roles).Keys
      ensures forall k :: k in roles ==> roles[k] == DownCode(old(roles)[k])
    {
      UpdateWhere(1, 0);
      UpdateWhere(2, 1);
      UpdateWhere(3, 2);
    }
  }
}
