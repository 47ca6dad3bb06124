/** Users, their roles and the user service: registration with a role
    mapped from the `rol` text and an optional admin flag, and the partial
    ("smart") update that only overwrites fields the request fills in. */
module Users {
  import opened Wrappers
  import opened JavaText

  type UserId = int

  datatype Permission = Permission(id: int, name: string)

  /** A role; `permissions` is `None` where the role's permission list is null. */
  datatype Role = Role(id: int, name: string, permissions: Option<seq<Permission>>)

  /** A user row. Every reference-typed column is an `Option`, `None` standing
      for Java's `null`; `admin` is the transient registration flag. */
  datatype User = User(
    id: Option<UserId>,
    nombre: Option<string>,
    apellido: Option<string>,
    correo: Option<string>,
    contrasena: Option<string>,
    rut: Option<string>,
    direccion: Option<string>,
    telefono: Option<string>,
    region: Option<string>,
    comuna: Option<string>,
    fechaNacimiento: Option<int>,
    rol: Option<string>,
    admin: bool,
    roles: seq<Role>)

  datatype UserError =
    | PasswordRequired
    | RoleMissing(name: string)
    | UserNotFound(id: UserId)

  const ROLE_ADMIN: string := "ROLE_ADMIN"
  const ROLE_VENDEDOR: string := "ROLE_VENDEDOR"
  const ROLE_CLIENTE: string := "ROLE_CLIENTE"

  /** `Role.equals`: two roles are the same when id and name agree; the
      permission lists are not compared. */
  predicate SameRole(a: Role, b: Role) {
    a.id == b.id && a.name == b.name
  }

  /** The three role names the database knows. */
  predicate IsStandardRole(name: string) {
    name == ROLE_ADMIN || name == ROLE_VENDEDOR || name == ROLE_CLIENTE
  }

  /** The role `save` looks up for a `rol` text: a null or empty text counts
      as "CLIENTE"; upper-cased, "ADMIN" and "VENDEDOR" pick their roles and
      anything else picks ROLE_CLIENTE. */
  function SaveRoleKey(rol: Option<string>): (key: string)
    ensures IsStandardRole(key)
    ensures key == ROLE_ADMIN <==> rol.Some? && ToUpper(rol.value) == "ADMIN"
    ensures key == ROLE_VENDEDOR <==> rol.Some? && ToUpper(rol.value) == "VENDEDOR"
  {
    var roleName := if rol.None? || rol.value == [] then "CLIENTE" else rol.value;
    var upper := ToUpper(roleName);
    if upper == "ADMIN" then ROLE_ADMIN
    else if upper == "VENDEDOR" then ROLE_VENDEDOR
    else ROLE_CLIENTE
  }

  /** The role `update` looks up for a changed `rol` text: "ROLE_" followed
      by the upper-cased text when that names a standard role, ROLE_CLIENTE
      otherwise. */
  function UpdateRoleKey(rol: string): (key: string)
    ensures IsStandardRole(key)
    ensures key == "ROLE_" + ToUpper(rol) || key == ROLE_CLIENTE
  {
    var roleKey := "ROLE_" + ToUpper(rol);
    if IsStandardRole(roleKey) then roleKey else ROLE_CLIENTE
  }

  lemma PrefixCancel(p: string, a: string, b: string)
    ensures p + a == p + b <==> a == b
  {
    if p + a == p + b {
      assert a == (p + a)[|p|..] && b == (p + b)[|p|..];
    }
  }

  /** `save` and `update` map every `rol` text to the same role name, though
      one compares the upper-cased text and the other a "ROLE_" key. */
  lemma RoleKeysAgree(rol: string)
    ensures UpdateRoleKey(rol) == SaveRoleKey(Some(rol))
  {
    var upper := ToUpper(rol);
    PrefixCancel("ROLE_", upper, "ADMIN");
    PrefixCancel("ROLE_", upper, "VENDEDOR");
    PrefixCancel("ROLE_", upper, "CLIENTE");
    assert ROLE_ADMIN == "ROLE_" + "ADMIN" && ROLE_VENDEDOR == "ROLE_" + "VENDEDOR" && ROLE_CLIENTE == "ROLE_" + "CLIENTE";
    if rol == [] {
      assert "ROLE_" + upper == "ROLE_";
    }
  }

  /** The role list `save` stores: the mapped role, then ROLE_ADMIN when the
      admin flag asks for it and the list does not hold it yet; the call
      fails with the first role name the repository lacks. */
  function SavedRoles(repo: map<string, Role>, rol: Option<string>, admin: bool): (r: Result<seq<Role>, UserError>)
    ensures r.Err? <==> SaveRoleKey(rol) !in repo || (admin && ROLE_ADMIN !in repo)
    ensures r.Err? ==> r.error == RoleMissing(if SaveRoleKey(rol) !in repo then SaveRoleKey(rol) else ROLE_ADMIN)
    ensures r.Ok? ==> 1 <= |r.value| <= 2 && r.value[0] == repo[SaveRoleKey(rol)]
    ensures r.Ok? ==> forall i, j | 0 <= i < j < |r.value| :: !SameRole(r.value[i], r.value[j])
    ensures r.Ok? && admin ==> exists k | 0 <= k < |r.value| :: SameRole(r.value[k], repo[ROLE_ADMIN])
    ensures r.Ok? && !admin ==> |r.value| == 1
    ensures r.Ok? ==> forall k | 0 <= k < |r.value| :: r.value[k] in repo.Values
  {
    var key := SaveRoleKey(rol);
    if key !in repo then Err(RoleMissing(key))
    else if !admin then Ok([repo[key]])
    else if ROLE_ADMIN !in repo then Err(RoleMissing(ROLE_ADMIN))
    else if SameRole(repo[key], repo[ROLE_ADMIN]) then Ok([repo[key]])
    else
      var roles := [repo[key], repo[ROLE_ADMIN]];
      assert SameRole(roles[1], repo[ROLE_ADMIN]);
      Ok(roles)
  }

  /** Each role is stored under its own name (`findByName`, names unique). */
  predicate RolesByName(repo: map<string, Role>) {
    forall name | name in repo :: repo[name].name == name
  }

  /** With roles stored by name, an admin registration holds two roles
      exactly when the `rol` text did not already map to ROLE_ADMIN. */
  lemma SavedRolesCount(repo: map<string, Role>, rol: Option<string>)
    requires RolesByName(repo)
    ensures var r := SavedRoles(repo, rol, true);
      r.Ok? ==> |r.value| == if SaveRoleKey(rol) == ROLE_ADMIN then 1 else 2
  {
    var key := SaveRoleKey(rol);
    if key in repo && ROLE_ADMIN in repo && key != ROLE_ADMIN {
      assert repo[key].name != repo[ROLE_ADMIN].name;
    }
  }

  /** The role list `update` stores after a role change: the role found for
      the update key, or nothing at all when the lookup finds none. */
  function UpdatedRoles(repo: map<string, Role>, rol: string): (r: seq<Role>)
    ensures |r| <= 1
    ensures r == [] <==> UpdateRoleKey(rol) !in repo
    ensures forall k | 0 <= k < |r| :: r[k] in repo.Values
  {
    var key := UpdateRoleKey(rol);
    if key in repo then [repo[key]] else []
  }

  /** After a role change `update` keeps only the role `save` would have put
      first, and drops any ROLE_ADMIN the admin flag added. */
  lemma UpdatedRolesAsSaved(repo: map<string, Role>, rol: string)
    ensures SavedRoles(repo, Some(rol), false).Ok? ==> UpdatedRoles(repo, rol) == SavedRoles(repo, Some(rol), false).value
    ensures SavedRoles(repo, Some(rol), false).Err? ==> UpdatedRoles(repo, rol) == []
  {
    RoleKeysAgree(rol);
  }

  /** A request field `update` takes: non-null and non-empty. */
  predicate HasText(s: Option<string>) {
    s.Some? && s.value != []
  }

  /** The merge rule for one text field: the incoming value when it has
      text, the current one otherwise; text is never lost. */
  function Patch(current: Option<string>, incoming: Option<string>): (r: Option<string>)
    ensures r == incoming || r == current
    ensures HasText(r) <==> HasText(current) || HasText(incoming)
    ensures HasText(incoming) ==> r == incoming
    ensures !HasText(incoming) ==> r == current
  {
    if HasText(incoming) then incoming else current
  }

  /** `update` changes the role when the request's `rol` has text and differs,
      case-sensitively, from the stored one. */
  predicate RoleChanges(existing: User, incoming: User) {
    HasText(incoming.rol) && incoming.rol != existing.rol
  }

  /** The request's password is taken when it is non-null and not blank. */
  predicate PasswordGiven(incoming: User) {
    incoming.contrasena.Some? && !IsBlank(incoming.contrasena.value)
  }

  /** A patched text column: the request's value when it has text, the
      stored value otherwise. */
  predicate PatchedColumn(stored: Option<string>, requested: Option<string>, r: Option<string>) {
    && (HasText(requested) ==> r == requested)
    && (!HasText(requested) ==> r == stored)
  }

  /** The columns `update` patches one by one: the eight text fields and the
      birth date. Identity, password, role text, roles and the admin flag are
      left as stored, no column that held a value is emptied, and a request
      that fills in nothing changes nothing. */
  function PatchedFields(existing: User, incoming: User): (r: User)
    ensures r.id == existing.id && r.contrasena == existing.contrasena && r.rol == existing.rol
    ensures r.admin == existing.admin && r.roles == existing.roles
    ensures PatchedColumn(existing.nombre, incoming.nombre, r.nombre)
    ensures PatchedColumn(existing.apellido, incoming.apellido, r.apellido)
    ensures PatchedColumn(existing.correo, incoming.correo, r.correo)
    ensures PatchedColumn(existing.rut, incoming.rut, r.rut)
    ensures PatchedColumn(existing.direccion, incoming.direccion, r.direccion)
    ensures PatchedColumn(existing.telefono, incoming.telefono, r.telefono)
    ensures PatchedColumn(existing.region, incoming.region, r.region)
    ensures PatchedColumn(existing.comuna, incoming.comuna, r.comuna)
    ensures incoming.fechaNacimiento.Some? ==> r.fechaNacimiento == incoming.fechaNacimiento
    ensures incoming.fechaNacimiento.None? ==> r.fechaNacimiento == existing.fechaNacimiento
    ensures Complete(existing) ==> Complete(r)
    ensures EmptyRequest(incoming) ==> r == existing
  {
    existing.(
      nombre := Patch(existing.nombre, incoming.nombre),
      apellido := Patch(existing.apellido, incoming.apellido),
      correo := Patch(existing.correo, incoming.correo),
      rut := Patch(existing.rut, incoming.rut),
      direccion := Patch(existing.direccion, incoming.direccion),
      telefono := Patch(existing.telefono, incoming.telefono),
      region := Patch(existing.region, incoming.region),
      comuna := Patch(existing.comuna, incoming.comuna),
      fechaNacimiento := if incoming.fechaNacimiento.Some? then incoming.fechaNacimiento else existing.fechaNacimiento)
  }

  /** The stored user after `update`: the patched fields, the role text and
      roles when the role changes, the password when a new one is given. */
  function Merged(existing: User, incoming: User, repo: map<string, Role>, encode: string -> string): (r: User)
    ensures r.(rol := existing.rol, roles := existing.roles, contrasena := existing.contrasena) == PatchedFields(existing, incoming)
    ensures RoleChanges(existing, incoming) ==>
              r.rol == Some(ToUpper(incoming.rol.value)) && r.roles == UpdatedRoles(repo, incoming.rol.value)
    ensures RoleChanges(existing, incoming) ==> forall i | 0 <= i < |r.rol.value| :: !('a' <= r.rol.value[i] <= 'z')
    ensures !RoleChanges(existing, incoming) ==> r.rol == existing.rol && r.roles == existing.roles
    ensures PasswordGiven(incoming) ==> r.contrasena == Some(encode(incoming.contrasena.value))
    ensures !PasswordGiven(incoming) ==> r.contrasena == existing.contrasena
  {
    var patched := PatchedFields(existing, incoming);
    var withRole := if RoleChanges(existing, incoming)
      then ToUpperChars(incoming.rol.value); patched.(rol := Some(ToUpper(incoming.rol.value)), roles := UpdatedRoles(repo, incoming.rol.value))
      else patched;
    if PasswordGiven(incoming) then withRole.(contrasena := Some(encode(incoming.contrasena.value))) else withRole
  }

  /** The NOT NULL columns the update tries to protect all hold a value. */
  predicate Complete(u: User) {
    && HasText(u.nombre) && HasText(u.apellido) && HasText(u.correo) && HasText(u.rut)
    && HasText(u.direccion) && HasText(u.telefono) && HasText(u.region) && HasText(u.comuna)
    && u.fechaNacimiento.Some? && HasText(u.rol) && u.contrasena.Some?
  }

  /** A request that fills in nothing: no field has text, no birth date, no
      usable password. */
  predicate EmptyRequest(incoming: User) {
    && !HasText(incoming.nombre) && !HasText(incoming.apellido) && !HasText(incoming.correo) && !HasText(incoming.rut)
    && !HasText(incoming.direccion) && !HasText(incoming.telefono) && !HasText(incoming.region) && !HasText(incoming.comuna)
    && incoming.fechaNacimiento.None? && !HasText(incoming.rol) && !PasswordGiven(incoming)
  }

  /** An update never empties a NOT NULL column that held a value. */
  lemma MergedKeepsComplete(existing: User, incoming: User, repo: map<string, Role>, encode: string -> string)
    requires Complete(existing)
    ensures Complete(Merged(existing, incoming, repo, encode))
  {
    if RoleChanges(existing, incoming) {
      assert |ToUpper(incoming.rol.value)| == |incoming.rol.value|;
    }
  }

  /** An update that fills in nothing changes nothing. */
  lemma MergedEmptyRequest(existing: User, incoming: User, repo: map<string, Role>, encode: string -> string)
    requires EmptyRequest(incoming)
    ensures Merged(existing, incoming, repo, encode) == existing
  {
  }

  /** Sending the same update twice stores the same columns and roles as
      sending it once, an upper-casing role change included. Only the
      password hash may differ, since it is encoded again; a request without
      a usable password stores exactly the same user. */
  lemma MergedIdempotent(existing: User, incoming: User, repo: map<string, Role>, encode: string -> string)
    ensures var once := Merged(existing, incoming, repo, encode);
      Merged(once, incoming, repo, encode).(contrasena := once.contrasena) == once
    ensures !PasswordGiven(incoming) ==>
      var once := Merged(existing, incoming, repo, encode);
      Merged(once, incoming, repo, encode) == once
  {
    var once := Merged(existing, incoming, repo, encode);
    if RoleChanges(existing, incoming) {
      assert once.rol == Some(ToUpper(incoming.rol.value));
    } else {
      assert !RoleChanges(once, incoming);
    }
  }

  /** The user tables behind the user service: the users by id, the role
      table looked up by name (read only here), the next identity value, and
      the password encoder, an opaque function. */
  class UserService {
    var users: map<UserId, User>
    var nextUserId: UserId
    const roleRepo: map<string, Role>
    const encode: string -> string

    /** Every stored user carries its own id below the counter, has a
        password hash, and holds only roles from the role table. */
    ghost predicate Valid()
      reads this
    {
      forall id | id in users ::
        && users[id].id == Some(id) && id < nextUserId
        && users[id].contrasena.Some?
        && (forall k | 0 <= k < |users[id].roles| :: users[id].roles[k] in roleRepo.Values)
    }

    constructor (roles: map<string, Role>, encoder: string -> string)
      ensures Valid()
      ensures users == map[] && roleRepo == roles && encode == encoder
    {
      users := map[];
      nextUserId := 1;
      roleRepo := roles;
      encode := encoder;
    }

    /** The role-building part of `save`: the switch on the upper-cased role
        text, then the conditional add of ROLE_ADMIN for the admin flag. */
    method BuildRoles(rol: Option<string>, admin: bool) returns (r: Result<seq<Role>, UserError>)
      ensures r == SavedRoles(roleRepo, rol, admin)
    {
      var roleName := if rol.None? || rol.value == [] then "CLIENTE" else rol.value;
      var roles: seq<Role> := [];
      var upper := ToUpper(roleName);
      ghost var key := SaveRoleKey(rol);
      assert key == if upper == "ADMIN" then ROLE_ADMIN else if upper == "VENDEDOR" then ROLE_VENDEDOR else ROLE_CLIENTE;
      if upper == "ADMIN" {
        if ROLE_ADMIN !in roleRepo {
          return Err(RoleMissing(ROLE_ADMIN));
        }
        roles := roles + [roleRepo[ROLE_ADMIN]];
      } else if upper == "VENDEDOR" {
        if ROLE_VENDEDOR !in roleRepo {
          return Err(RoleMissing(ROLE_VENDEDOR));
        }
        roles := roles + [roleRepo[ROLE_VENDEDOR]];
      } else {
        if ROLE_CLIENTE !in roleRepo {
          return Err(RoleMissing(ROLE_CLIENTE));
        }
        roles := roles + [roleRepo[ROLE_CLIENTE]];
      }
      assert key in roleRepo && roles == [roleRepo[key]];
      if admin {
        if ROLE_ADMIN !in roleRepo {
          return Err(RoleMissing(ROLE_ADMIN));
        }
        var roleAdmin := roleRepo[ROLE_ADMIN];
        // `roles.contains(roleAdmin)`, through `Role.equals`
        if !exists k | 0 <= k < |roles| :: SameRole(roles[k], roleAdmin) {
          assert !SameRole(roles[0], roleAdmin);
          roles := roles + [roleAdmin];
          assert roles == [roleRepo[key], roleRepo[ROLE_ADMIN]];
          assert SavedRoles(roleRepo, rol, admin) == Ok([roleRepo[key], roleRepo[ROLE_ADMIN]]);
        } else {
          assert SameRole(roles[0], roleAdmin);
        }
      }
      r := Ok(roles);
    }

    /** `save`: refuse a missing or blank password, build the role list from
        the `rol` text and the admin flag, encode the password and insert.
        A failed call stores nothing. */
    method Save(user: User) returns (r: Result<User, UserError>)
      requires Valid()
      modifies this
      ensures Valid()
      ensures user.contrasena.None? || IsBlank(user.contrasena.value) ==> r == Err(PasswordRequired)
      ensures r.Err? ==> users == old(users) && nextUserId == old(nextUserId)
      ensures r.Ok? ==> old(nextUserId) !in old(users) && |users| == |old(users)| + 1
      ensures user.contrasena.Some? && !IsBlank(user.contrasena.value) ==>
        match SavedRoles(roleRepo, user.rol, user.admin)
        case Err(e) => r == Err(e)
        case Ok(roles) =>
          && r == Ok(user.(id := Some(old(nextUserId)), contrasena := Some(encode(user.contrasena.value)), roles := roles))
          && users == old(users)[old(nextUserId) := r.value]
          && nextUserId == old(nextUserId) + 1
    {
      if user.contrasena.None? || IsBlank(user.contrasena.value) {
        return Err(PasswordRequired);
      }
      var roles := BuildRoles(user.rol, user.admin);
      if roles.Err? {
        return Err(roles.error);
      }
      var saved := user.(roles := roles.value, contrasena := Some(encode(user.contrasena.value)), id := Some(nextUserId));
      users := users[nextUserId := saved];
      nextUserId := nextUserId + 1;
      r := Ok(saved);
    }

    /** The first setter calls of `update`: each text column is overwritten
        when the request's value has text, the birth date when it is given. */
    method PatchColumns(existing: User, incoming: User) returns (patched: User)
      ensures patched == PatchedFields(existing, incoming)
    {
      // one local per column the setters write
      var nombre, apellido, correo, rut, direccion, telefono, region, comuna := existing.nombre, existing.apellido, existing.correo, existing.rut, existing.direccion, existing.telefono, existing.region, existing.comuna;
      if HasText(incoming.nombre) {
        nombre := incoming.nombre;
      }
      if HasText(incoming.apellido) {
        apellido := incoming.apellido;
      }
      if HasText(incoming.correo) {
        correo := incoming.correo;
      }
      if HasText(incoming.rut) {
        rut := incoming.rut;
      }
      if HasText(incoming.direccion) {
        direccion := incoming.direccion;
      }
      if HasText(incoming.telefono) {
        telefono := incoming.telefono;
      }
      if HasText(incoming.region) {
        region := incoming.region;
      }
      if HasText(incoming.comuna) {
        comuna := incoming.comuna;
      }
      var fechaNacimiento := existing.fechaNacimiento;
      if incoming.fechaNacimiento.Some? {
        fechaNacimiento := incoming.fechaNacimiento;
      }
      patched := existing.(
        nombre := nombre, apellido := apellido, correo := correo, rut := rut,
        direccion := direccion, telefono := telefono, region := region, comuna := comuna,
        fechaNacimiento := fechaNacimiento);
    }

    /** The role lookup of `update` after a role change: the "ROLE_" key when
        it is standard, ROLE_CLIENTE otherwise, and no role when the lookup
        finds nothing. */
    method ReplacementRoles(rol: string) returns (newRoles: seq<Role>)
      ensures newRoles == UpdatedRoles(roleRepo, rol)
    {
      newRoles := [];
      var roleKey := "ROLE_" + ToUpper(rol);
      if roleKey == ROLE_ADMIN || roleKey == ROLE_VENDEDOR || roleKey == ROLE_CLIENTE {
        if roleKey in roleRepo {
          newRoles := newRoles + [roleRepo[roleKey]];
        }
      } else {
        if ROLE_CLIENTE in roleRepo {
          newRoles := newRoles + [roleRepo[ROLE_CLIENTE]];
        }
      }
    }

    /** The setter sequence of `update` applied to the stored user. */
    method ApplyRequest(existing: User, incoming: User) returns (merged: User)
      ensures merged == Merged(existing, incoming, roleRepo, encode)
    {
      merged := PatchColumns(existing, incoming);
      if HasText(incoming.rol) && incoming.rol != existing.rol {
        merged := merged.(rol := Some(ToUpper(incoming.rol.value)));
        var newRoles := ReplacementRoles(incoming.rol.value);
        merged := merged.(roles := newRoles);
      }
      if PasswordGiven(incoming) {
        merged := merged.(contrasena := Some(encode(incoming.contrasena.value)));
      }
    }

    /** `update`: the stored user, field by field overwritten with what the
        request fills in, its roles replaced when the role text changes, its
        password re-encoded when a new one is given. */
    method Update(id: UserId, incoming: User) returns (r: Result<User, UserError>)
      requires Valid()
      modifies this
      ensures Valid()
      ensures id !in old(users) ==> r == Err(UserNotFound(id)) && users == old(users)
      ensures id in old(users) ==>
        && r == Ok(Merged(old(users)[id], incoming, roleRepo, encode))
        && users == old(users)[id := r.value]
      ensures nextUserId == old(nextUserId)
    {
      if id !in users {
        return Err(UserNotFound(id));
      }
      var existing := ApplyRequest(users[id], incoming);
      users := users[id := existing];
      r := Ok(existing);
    }
  }
}
