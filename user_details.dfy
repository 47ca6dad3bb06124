/** The login lookup: a user found by e-mail becomes a Spring Security
    principal whose authorities are the user's role names followed by the
    names of each role's permissions. */
module UserDetails {
  import opened Wrappers
  import opened Users

  /** `org.springframework.security.core.userdetails.User` as the lookup builds it. */
  datatype Principal = Principal(
    username: string,
    password: Option<string>,
    enabled: bool,
    accountNonExpired: bool,
    credentialsNonExpired: bool,
    accountNonLocked: bool,
    authorities: seq<string>)

  datatype LookupError = UsernameNotFound(correo: string)

  /** The role-name authorities, one per role, in role order. */
  function RoleNames(roles: seq<Role>): (r: seq<string>)
    ensures |r| == |roles|
  {
    if roles == [] then [] else RoleNames(roles[..|roles| - 1]) + [roles[|roles| - 1].name]
  }

  /** The names of a permission list, in order. */
  function PermissionList(permissions: seq<Permission>): (r: seq<string>)
    ensures |r| == |permissions|
  {
    if permissions == [] then [] else PermissionList(permissions[..|permissions| - 1]) + [permissions[|permissions| - 1].name]
  }

  /** A role's own permission names; none when its list is null. */
  function OwnPermissionNames(role: Role): (r: seq<string>)
    ensures role.permissions.None? ==> r == []
    ensures role.permissions.Some? ==> |r| == |role.permissions.value|
  {
    match role.permissions
    case None => []
    case Some(permissions) => PermissionList(permissions)
  }

  /** How many permissions the roles carry, a null list counting none. */
  function PermissionCount(roles: seq<Role>): nat {
    if roles == [] then 0
    else PermissionCount(roles[..|roles| - 1]) + (match roles[|roles| - 1].permissions case None => 0 case Some(ps) => |ps|)
  }

  /** The permission authorities: role by role, each role's permissions in
      order, one authority per permission. */
  function PermissionNames(roles: seq<Role>): (r: seq<string>)
    ensures |r| == PermissionCount(roles)
  {
    if roles == [] then [] else PermissionNames(roles[..|roles| - 1]) + OwnPermissionNames(roles[|roles| - 1])
  }

  /** The authority list of `loadUserByUsername`: every role name first, then
      the permission names, with nothing removed as a duplicate. */
  function Authorities(roles: seq<Role>): (r: seq<string>)
    ensures |r| == |roles| + PermissionCount(roles)
    ensures r[..|roles|] == RoleNames(roles) && r[|roles|..] == PermissionNames(roles)
  {
    RoleNames(roles) + PermissionNames(roles)
  }

  /** Concatenation of authority lists is associative. */
  lemma ConcatAssociates(a: seq<string>, b: seq<string>, c: seq<string>)
    ensures (a + b) + c == a + (b + c)
  {
    assert forall k | 0 <= k < |a| + |b| + |c| :: ((a + b) + c)[k] == (a + (b + c))[k];
  }

  /** The permission names of a concatenation are those of each part, in order. */
  lemma {:induction false} PermissionNamesAppend(a: seq<Role>, b: seq<Role>)
    ensures PermissionNames(a + b) == PermissionNames(a) + PermissionNames(b)
    decreases |b|
  {
    if b == [] {
      assert a + b == a;
    } else {
      var b', last := b[..|b| - 1], b[|b| - 1];
      assert (a + b)[..|a + b| - 1] == a + b' && (a + b)[|a + b| - 1] == last;
      calc {
        PermissionNames(a + b);
        PermissionNames(a + b') + OwnPermissionNames(last);
        { PermissionNamesAppend(a, b'); }
        (PermissionNames(a) + PermissionNames(b')) + OwnPermissionNames(last);
        { ConcatAssociates(PermissionNames(a), PermissionNames(b'), OwnPermissionNames(last)); }
        PermissionNames(a) + (PermissionNames(b') + OwnPermissionNames(last));
        PermissionNames(a) + PermissionNames(b);
      }
    }
  }

  /** The `i`-th role-name authority is the `i`-th role's name. */
  lemma {:induction false} RoleNamesAt(roles: seq<Role>, i: nat)
    requires i < |roles|
    ensures RoleNames(roles)[i] == roles[i].name
    decreases |roles|
  {
    if i < |roles| - 1 {
      RoleNamesAt(roles[..|roles| - 1], i);
    }
  }

  /** The `j`-th name of a permission list is the `j`-th permission's name. */
  lemma {:induction false} PermissionListAt(permissions: seq<Permission>, j: nat)
    requires j < |permissions|
    ensures PermissionList(permissions)[j] == permissions[j].name
    decreases |permissions|
  {
    if j < |permissions| - 1 {
      PermissionListAt(permissions[..|permissions| - 1], j);
    }
  }

  /** The role names of a concatenation are those of each part, in order. */
  lemma {:induction false} RoleNamesAppend(a: seq<Role>, b: seq<Role>)
    ensures RoleNames(a + b) == RoleNames(a) + RoleNames(b)
    decreases |b|
  {
    if b == [] {
      assert a + b == a;
    } else {
      var b', last := b[..|b| - 1], b[|b| - 1];
      assert (a + b)[..|a + b| - 1] == a + b' && (a + b)[|a + b| - 1] == last;
      calc {
        RoleNames(a + b);
        RoleNames(a + b') + [last.name];
        { RoleNamesAppend(a, b'); }
        (RoleNames(a) + RoleNames(b')) + [last.name];
        { ConcatAssociates(RoleNames(a), RoleNames(b'), [last.name]); }
        RoleNames(a) + (RoleNames(b') + [last.name]);
        RoleNames(a) + RoleNames(b);
      }
    }
  }

  /** A role whose permission list is null contributes its name and nothing else. */
  lemma NullPermissionsOnlyName(before: seq<Role>, role: Role, after: seq<Role>)
    requires role.permissions.None?
    ensures Authorities(before + [role] + after)
         == RoleNames(before) + [role.name] + RoleNames(after) + PermissionNames(before) + PermissionNames(after)
  {
    var roles := before + [role] + after;
    var x, y, z, u, v := RoleNames(before), [role.name], RoleNames(after), PermissionNames(before), PermissionNames(after);
    assert RoleNames(roles) == x + y + z by {
      assert RoleNames([role]) == y by { assert [role][..0] == []; }
      RoleNamesAppend(before, [role]);
      RoleNamesAppend(before + [role], after);
    }
    assert PermissionNames(roles) == u + v by {
      assert PermissionNames([role]) == [] by { assert [role][..0] == []; }
      PermissionNamesAppend(before, [role]);
      assert PermissionNames(before + [role]) == u;
      PermissionNamesAppend(before + [role], after);
    }
    assert (x + y + z) + (u + v) == x + y + z + u + v;
  }

  /** A permission name some role holds. */
  predicate GrantsPermission(roles: seq<Role>, name: string) {
    exists i, j | 0 <= i < |roles| && roles[i].permissions.Some? && 0 <= j < |roles[i].permissions.value| ::
      roles[i].permissions.value[j].name == name
  }

  lemma OwnPermissionNamesMembers(role: Role, name: string)
    ensures name in OwnPermissionNames(role) <==>
      role.permissions.Some? && exists j | 0 <= j < |role.permissions.value| :: role.permissions.value[j].name == name
  {
    if role.permissions.Some? {
      var permissions := role.permissions.value;
      forall j | 0 <= j < |permissions| ensures PermissionList(permissions)[j] == permissions[j].name {
        PermissionListAt(permissions, j);
      }
    }
  }

  /** An authority is exactly a role name or a permission name of the user's roles. */
  lemma AuthorityMembers(roles: seq<Role>, name: string)
    ensures name in Authorities(roles) <==>
      (exists i | 0 <= i < |roles| :: roles[i].name == name) || GrantsPermission(roles, name)
  {
    var names := RoleNames(roles);
    forall i | 0 <= i < |roles| ensures names[i] == roles[i].name {
      RoleNamesAt(roles, i);
    }
    assert name in names <==> exists i | 0 <= i < |roles| :: roles[i].name == name;
    PermissionMembers(roles, name);
  }

  /** A permission authority is exactly a permission name of some role. */
  lemma {:induction false} PermissionMembers(roles: seq<Role>, name: string)
    ensures name in PermissionNames(roles) <==> GrantsPermission(roles, name)
    decreases |roles|
  {
    if roles != [] {
      var init, last := roles[..|roles| - 1], roles[|roles| - 1];
      PermissionMembers(init, name);
      OwnPermissionNamesMembers(last, name);
      if GrantsPermission(roles, name) {
        var i, j :| 0 <= i < |roles| && roles[i].permissions.Some? && 0 <= j < |roles[i].permissions.value|
          && roles[i].permissions.value[j].name == name;
        if i < |init| {
          assert roles[i] == init[i];
          assert GrantsPermission(init, name);
        }
      }
      if GrantsPermission(init, name) {
        var i, j :| 0 <= i < |init| && init[i].permissions.Some? && 0 <= j < |init[i].permissions.value|
          && init[i].permissions.value[j].name == name;
        assert roles[i] == init[i];
      }
      if name in OwnPermissionNames(last) {
        var j :| 0 <= j < |last.permissions.value| && last.permissions.value[j].name == name;
        assert roles[|roles| - 1] == last;
      }
    }
  }

  /** A user registered with the admin flag logs in with the ROLE_ADMIN authority. */
  lemma AdminRegistrationGrantsAdmin(repo: map<string, Role>, rol: Option<string>)
    requires RolesByName(repo)
    ensures SavedRoles(repo, rol, true).Ok? ==> ROLE_ADMIN in Authorities(SavedRoles(repo, rol, true).value)
  {
    var r := SavedRoles(repo, rol, true);
    if r.Ok? {
      var k :| 0 <= k < |r.value| && SameRole(r.value[k], repo[ROLE_ADMIN]);
      assert Authorities(r.value)[k] == ROLE_ADMIN;
    }
  }

  /** The inner `forEach` of `loadUserByUsername`: one role's permission
      names appended, in order, to the authorities gathered so far. */
  method AddPermissionNames(authorities: seq<string>, permissions: seq<Permission>) returns (result: seq<string>)
    ensures result == authorities + PermissionList(permissions)
  {
    result := authorities;
    var k := 0;
    while k < |permissions|
      invariant 0 <= k <= |permissions|
      invariant result == authorities + PermissionList(permissions[..k])
    {
      assert permissions[..k + 1][..k] == permissions[..k];
      assert PermissionList(permissions[..k + 1]) == PermissionList(permissions[..k]) + [permissions[k].name];
      result := result + [permissions[k].name];
      k := k + 1;
    }
    assert permissions[..|permissions|] == permissions;
  }

  /** Taking one more role adds that role's own permission names. */
  lemma PermissionNamesStep(roles: seq<Role>, j: nat)
    requires j < |roles|
    ensures PermissionNames(roles[..j + 1]) == PermissionNames(roles[..j]) + OwnPermissionNames(roles[j])
  {
    assert roles[..j + 1][..j] == roles[..j];
  }

  /** The `addAll` of `loadUserByUsername`: every role name, in order. */
  method AddRoleNames(roles: seq<Role>) returns (authorities: seq<string>)
    ensures authorities == RoleNames(roles)
  {
    authorities := [];
    var i := 0;
    while i < |roles|
      invariant 0 <= i <= |roles|
      invariant authorities == RoleNames(roles[..i])
    {
      assert roles[..i + 1][..i] == roles[..i];
      authorities := authorities + [roles[i].name];
      i := i + 1;
    }
    assert roles[..|roles|] == roles;
  }

  /** The outer `forEach` of `loadUserByUsername`: each role with a non-null
      permission list appends that list's names to the authorities so far. */
  method AddRolePermissions(authorities: seq<string>, roles: seq<Role>) returns (result: seq<string>)
    ensures result == authorities + PermissionNames(roles)
  {
    result := authorities;
    var j := 0;
    while j < |roles|
      invariant 0 <= j <= |roles|
      invariant result == authorities + PermissionNames(roles[..j])
    {
      var role := roles[j];
      ghost var done, own := PermissionNames(roles[..j]), OwnPermissionNames(role);
      PermissionNamesStep(roles, j);
      if role.permissions.Some? {
        result := AddPermissionNames(result, role.permissions.value);
      } else {
        assert own == [];
      }
      assert result == (authorities + done) + own;
      ConcatAssociates(authorities, done, own);
      j := j + 1;
    }
    assert roles[..|roles|] == roles;
  }

  /** The accumulation of `loadUserByUsername`: the role names, then the
      permission names. */
  method BuildAuthorities(roles: seq<Role>) returns (authorities: seq<string>)
    ensures authorities == Authorities(roles)
  {
    authorities := AddRoleNames(roles);
    authorities := AddRolePermissions(authorities, roles);
  }

  /** `findByCorreo` finds a stored user: the e-mail is among the stored ones. */
  predicate HasUser(users: map<UserId, User>, correo: string): (found: bool)
    ensures found <==> Some(correo) in (set id | id in users :: users[id].correo)
  {
    exists id | id in users :: users[id].correo == Some(correo)
  }

  /** `loadUserByUsername`: an unknown e-mail is refused; otherwise the stored
      hash and the flattened authorities go into an enabled, unexpired,
      unlocked principal named by the e-mail. */
  method LoadUserByUsername(users: map<UserId, User>, correo: string) returns (r: Result<Principal, LookupError>)
    ensures r.Err? <==> !HasUser(users, correo)
    ensures r.Err? ==> r.error == UsernameNotFound(correo)
    ensures r.Ok? ==> exists id | id in users && users[id].correo == Some(correo) ::
      r.value == Principal(correo, users[id].contrasena, true, true, true, true, Authorities(users[id].roles))
  {
    if !HasUser(users, correo) {
      return Err(UsernameNotFound(correo));
    }
    var id :| id in users && users[id].correo == Some(correo);
    var user := users[id];
    var authorities := BuildAuthorities(user.roles);
    r := Ok(Principal(user.correo.value, user.contrasena, true, true, true, true, authorities));
  }
}
