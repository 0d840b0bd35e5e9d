/**
 * Data migration 0002 of apps/core: every existing superuser gets the
 * "admin" role; reversing the migration does nothing.
 */
module AdminRoleMigration {
  import opened CoreModels

  /** The user table after `filter(is_superuser=True).update(role="admin")`. */
  function WithAdminRole(users: seq<User>): (r: seq<User>)
    ensures |r| == |users|
    ensures forall i | 0 <= i < |users| :: r[i] == (if users[i].isSuperuser then users[i].(role := Admin) else users[i])
  {
    seq(|users|, i requires 0 <= i < |users| => if users[i].isSuperuser then users[i].(role := Admin) else users[i])
  }

  /** `_set_admin_role`: the bulk update, row by row over the table. */
  method SetAdminRole(users: array<User>)
    modifies users
    ensures users[..] == WithAdminRole(old(users[..]))
  {
    ghost var before := users[..];
    for i := 0 to users.Length
      invariant users[..i] == WithAdminRole(before)[..i]
      invariant users[i..] == before[i..]
    {
      if users[i].isSuperuser {
        users[i] := users[i].(role := Admin);
      }
      assert users[i + 1..] == before[i + 1..];
    }
  }

  /** `RunPython.noop`: reversing the migration leaves the table as it is. */
  method UnsetAdminRole(users: array<User>)
    ensures users[..] == old(users[..])
  {
  }

  /** Afterwards every superuser is an admin. */
  lemma SuperusersAreAdmins(users: seq<User>)
    ensures forall u | u in WithAdminRole(users) && u.isSuperuser :: u.role == Admin
  {
    var r := WithAdminRole(users);
    forall u | u in r && u.isSuperuser ensures u.role == Admin {
      var i :| 0 <= i < |r| && r[i] == u;
      assert users[i].isSuperuser;
    }
  }

  /** Rows of other users keep their role, and no row changes in anything but its role. */
  lemma OnlyRolesOfSuperusersChange(users: seq<User>)
    ensures forall i | 0 <= i < |users| && !users[i].isSuperuser :: WithAdminRole(users)[i] == users[i]
    ensures forall i | 0 <= i < |users| :: WithAdminRole(users)[i].(role := users[i].role) == users[i]
  {
  }

  /** Running the forward step twice is the same as running it once. */
  lemma SetAdminRoleIdempotent(users: seq<User>)
    ensures WithAdminRole(WithAdminRole(users)) == WithAdminRole(users)
  {
  }
}
