/** Users, permissions and the account-management routes: the permission
    predicates of `User`, `add_user`, `update_user`, `delete_user` and
    `init_permissions`.  Passwords and TOTP codes are not modelled. */
module Accounts {
  import opened Wrappers

  type UserId = nat
  type PermissionId = nat

  datatype Permission = Permission(name: string, description: string)

  /** A user, with the names of the permissions it was granted. */
  datatype User = User(
    username: string,
    role: string,
    totpSecret: Option<string>,
    totpEnabled: bool,
    permissions: set<string>)

  predicate IsAdmin(u: User) {
    u.role == "admin"
  }

  /** `User.has_permission`: an admin has every permission. */
  predicate HasPermission(u: User, name: string) {
    IsAdmin(u) || name in u.permissions
  }

  /** `User.has_any_permission`. */
  predicate HasAnyPermission(u: User, names: seq<string>) {
    IsAdmin(u) || exists p :: p in u.permissions && p in names
  }

  /** Holding any of a list of permissions is holding one of them. */
  lemma AnyIsOneOf(u: User, names: seq<string>)
    ensures HasAnyPermission(u, names) <==>
      IsAdmin(u) || exists i :: 0 <= i < |names| && HasPermission(u, names[i])
    ensures IsAdmin(u) ==> HasAnyPermission(u, [])
    ensures !IsAdmin(u) ==> !HasAnyPermission(u, [])
  {
    if !IsAdmin(u) && HasAnyPermission(u, names) {
      var p :| p in u.permissions && p in names;
      var i :| 0 <= i < |names| && names[i] == p;
      assert HasPermission(u, names[i]);
    }
  }

  // ---------------------------------------------------------------------
  // The permission table.

  /** Some row of the permission table has this name
      (`Permission.query.filter_by(name=name).first()` finds one). */
  predicate HasName(table: map<PermissionId, Permission>, name: string) {
    exists pid :: pid in table && table[pid].name == name
  }

  /** `Permission.name` is unique. */
  predicate NamesUnique(table: map<PermissionId, Permission>) {
    forall a, b :: a in table && b in table && a != b ==> table[a].name != table[b].name
  }

  /** Adding a permission under a fresh id and a name not yet used keeps
      names unique, and every name present stays present. */
  lemma InsertMissing(table: map<PermissionId, Permission>, next: PermissionId, d: Permission)
    requires forall pid :: pid in table ==> pid < next
    requires NamesUnique(table) && !HasName(table, d.name)
    ensures NamesUnique(table[next := d]) && HasName(table[next := d], d.name)
    ensures forall n :: HasName(table, n) ==> HasName(table[next := d], n)
  {
    var t := table[next := d];
    assert t[next].name == d.name;
    forall n | HasName(table, n) ensures HasName(t, n) {
      var pid :| pid in table && table[pid].name == n;
      assert t[pid].name == n;
    }
  }

  /** Each default whose name is not yet in `table` added under the next
      id, in order. */
  method InsertDefaults(table: map<PermissionId, Permission>, next: PermissionId, defaults: seq<Permission>)
    returns (table': map<PermissionId, Permission>, next': PermissionId)
    requires forall pid :: pid in table ==> pid < next
    requires NamesUnique(table)
    ensures forall pid :: pid in table' ==> pid < next'
    ensures NamesUnique(table')
    ensures forall pid :: pid in table ==> pid in table' && table'[pid] == table[pid]
    ensures forall pid :: pid in table' && pid !in table ==> table'[pid] in defaults
    ensures forall k :: 0 <= k < |defaults| ==> HasName(table', defaults[k].name)
    ensures (forall k :: 0 <= k < |defaults| ==> HasName(table, defaults[k].name)) ==>
      table' == table && next' == next
  {
    table', next' := table, next;
    var i := 0;
    while i < |defaults|
      invariant 0 <= i <= |defaults|
      invariant forall pid :: pid in table' ==> pid < next'
      invariant NamesUnique(table')
      invariant forall pid :: pid in table ==> pid in table' && table'[pid] == table[pid]
      invariant forall pid :: pid in table' && pid !in table ==> table'[pid] in defaults
      invariant forall k :: 0 <= k < i ==> HasName(table', defaults[k].name)
      invariant (forall k :: 0 <= k < |defaults| ==> HasName(table, defaults[k].name)) ==>
        table' == table && next' == next
    {
      var d := defaults[i];
      if !HasName(table', d.name) {
        assert !HasName(table, d.name) && next' !in table';
        InsertMissing(table', next', d);
        table' := table'[next' := d];
        next' := next' + 1;
      }
      i := i + 1;
    }
  }

  /** The names of the requested permission ids that exist
      (`Permission.query.filter(Permission.id.in_(ids))`). */
  function Granted(table: map<PermissionId, Permission>, ids: set<PermissionId>): set<string> {
    set pid | pid in ids && pid in table :: table[pid].name
  }

  const DefaultPermissions: seq<Permission> := [
    Permission("view_customers", "Can view customers list and details"),
    Permission("edit_customers", "Can create, edit and delete customers"),
    Permission("view_invoices", "Can view invoices"),
    Permission("create_invoices", "Can create new invoices"),
    Permission("edit_invoices", "Can edit existing invoices"),
    Permission("delete_invoices", "Can delete invoices"),
    Permission("view_products", "Can view products list"),
    Permission("edit_products", "Can create, edit and delete products"),
    Permission("import_products", "Can import products from Excel/CSV"),
    Permission("export_products", "Can export products to Excel/CSV"),
    Permission("manage_stock", "Can update product stock levels"),
    Permission("delete_products", "Can delete products"),
    Permission("view_product_code", "Can view product item codes"),
    Permission("edit_product_code", "Can edit product item codes"),
    Permission("view_product_description", "Can view product descriptions"),
    Permission("edit_product_description", "Can edit product descriptions"),
    Permission("view_product_tamil", "Can view product Tamil names"),
    Permission("edit_product_tamil", "Can edit product Tamil names"),
    Permission("view_product_uom", "Can view product UOM"),
    Permission("edit_product_uom", "Can edit product UOM"),
    Permission("view_product_price", "Can view product prices"),
    Permission("edit_product_price", "Can edit product prices"),
    Permission("view_product_stock", "Can view product stock levels"),
    Permission("edit_product_stock", "Can edit product stock levels"),
    Permission("view_product_restock", "Can view product restock levels"),
    Permission("edit_product_restock", "Can edit product restock levels"),
    Permission("view_product_locations", "Can view product locations"),
    Permission("edit_product_locations", "Can edit product locations"),
    Permission("view_product_tags", "Can view product tags"),
    Permission("edit_product_tags", "Can edit product tags"),
    Permission("view_product_notes", "Can view product notes"),
    Permission("edit_product_notes", "Can edit product notes"),
    Permission("view_product_suppliers", "Can view product suppliers"),
    Permission("view_reports", "Can view reports"),
    Permission("manage_settings", "Can manage system settings"),
    Permission("manage_users", "Can manage users"),
    Permission("view_suppliers", "Can view suppliers list"),
    Permission("edit_suppliers", "Can create, edit and delete suppliers")
  ]

  // ---------------------------------------------------------------------
  // Requests.

  /** The JSON body of `add_user`; `permissionIds` is `None` when the key
      is absent. */
  datatype NewUser = NewUser(
    username: string,
    role: string,
    totpEnabled: bool,
    permissionIds: Option<set<PermissionId>>)

  /** The JSON body of `update_user`.  `totpSecret` is `None` when the key
      is absent and `Some(None)` when it is sent as null. */
  datatype UserUpdate = UserUpdate(
    username: string,
    role: string,
    permissionIds: set<PermissionId>,
    totpEnabled: bool,
    totpSecret: Option<Option<string>>)

  /** The user `update_user` writes: name and role as sent; an admin's
      permission list is emptied, anyone else's is replaced by the requested
      ones; disabling 2FA drops the secret, enabling it keeps the stored one
      unless a new one is sent. */
  function Updated(u: User, req: UserUpdate, table: map<PermissionId, Permission>): User {
    var secret :=
      if !req.totpEnabled then None
      else if req.totpSecret.Some? then req.totpSecret.value
      else u.totpSecret;
    User(req.username, req.role, secret, req.totpEnabled,
         if req.role == "admin" then {} else Granted(table, req.permissionIds))
  }

  /** After an update, the user holds a permission exactly when it was
      made admin or the permission was among the existing ones requested;
      an admin is left with an empty list yet still holds everything. */
  lemma UpdatedAccess(u: User, req: UserUpdate, table: map<PermissionId, Permission>, name: string)
    ensures HasPermission(Updated(u, req, table), name) <==>
      req.role == "admin" ||
      exists pid :: pid in req.permissionIds && pid in table && table[pid].name == name
    ensures req.role == "admin" ==> Updated(u, req, table).permissions == {}
  {
    var v := Updated(u, req, table);
    if req.role != "admin" && HasPermission(v, name) {
      assert name in Granted(table, req.permissionIds);
    }
    if req.role != "admin" && exists pid :: pid in req.permissionIds && pid in table && table[pid].name == name {
      var pid :| pid in req.permissionIds && pid in table && table[pid].name == name;
      assert table[pid].name in Granted(table, req.permissionIds);
    }
  }

  /** With 2FA disabled no secret is kept; with 2FA enabled the stored
      secret survives an update that does not send one. */
  lemma UpdatedTotp(u: User, req: UserUpdate, table: map<PermissionId, Permission>)
    ensures !req.totpEnabled ==> Updated(u, req, table).totpSecret == None
    ensures req.totpEnabled && req.totpSecret.None? ==> Updated(u, req, table).totpSecret == u.totpSecret
    ensures Updated(u, req, table).totpEnabled == req.totpEnabled
  {
  }

  /** Usernames are unique (`User.username` is `unique=True`). */
  predicate UsernamesUnique(users: map<UserId, User>) {
    forall a, b :: a in users && b in users && a != b ==> users[a].username != users[b].username
  }

  predicate NameTaken(users: map<UserId, User>, name: string) {
    exists id :: id in users && users[id].username == name
  }

  /** The user table and the permission table. */
  class UserDirectory {
    var users: map<UserId, User>
    var permissions: map<PermissionId, Permission>
    var nextUserId: nat
    var nextPermissionId: nat

    ghost predicate Valid()
      reads this
    {
      && (forall id :: id in users ==> id < nextUserId)
      && (forall pid :: pid in permissions ==> pid < nextPermissionId)
      && UsernamesUnique(users)
      && NamesUnique(permissions)
    }

    constructor ()
      ensures Valid()
      ensures users == map[] && permissions == map[]
      ensures nextUserId == 1 && nextPermissionId == 1
    {
      users := map[];
      permissions := map[];
      nextUserId := 1;
      nextPermissionId := 1;
    }

    /** `init_permissions`: every default permission whose name is not in
        the table yet is added; existing rows are left alone, so running it
        again changes nothing. */
    method InitPermissions()
      requires Valid()
      modifies this
      ensures Valid()
      ensures users == old(users) && nextUserId == old(nextUserId)
      ensures forall pid :: pid in old(permissions) ==> pid in permissions && permissions[pid] == old(permissions)[pid]
      ensures forall pid :: pid in permissions && pid !in old(permissions) ==> permissions[pid] in DefaultPermissions
      ensures forall k :: 0 <= k < |DefaultPermissions| ==> HasName(permissions, DefaultPermissions[k].name)
      ensures (forall k :: 0 <= k < |DefaultPermissions| ==> HasName(old(permissions), DefaultPermissions[k].name)) ==>
        permissions == old(permissions) && nextPermissionId == old(nextPermissionId)
    {
      AddMissing(DefaultPermissions);
    }

    /** The loop of `init_permissions` over a list of defaults. */
    method AddMissing(defaults: seq<Permission>)
      requires Valid()
      modifies this
      ensures Valid()
      ensures users == old(users) && nextUserId == old(nextUserId)
      ensures forall pid :: pid in old(permissions) ==> pid in permissions && permissions[pid] == old(permissions)[pid]
      ensures forall pid :: pid in permissions && pid !in old(permissions) ==> permissions[pid] in defaults
      ensures forall k :: 0 <= k < |defaults| ==> HasName(permissions, defaults[k].name)
      ensures (forall k :: 0 <= k < |defaults| ==> HasName(old(permissions), defaults[k].name)) ==>
        permissions == old(permissions) && nextPermissionId == old(nextPermissionId)
    {
      var table, next := InsertDefaults(permissions, nextPermissionId, defaults);
      permissions, nextPermissionId := table, next;
    }

    /** `add_user`: refused when the username is taken; an admin gets no
        permission rows, anyone else the existing ones requested. */
    method AddUser(req: NewUser) returns (r: Result<UserId>)
      requires Valid()
      modifies this
      ensures Valid()
      ensures r.Failure? <==> NameTaken(old(users), req.username)
      ensures r.Failure? ==> r.error == Conflict("Username already exists") && unchanged(this)
      ensures r.Success? ==>
        && r.value == old(nextUserId) && r.value !in old(users)
        && users == old(users)[r.value := User(req.username, req.role, None, req.totpEnabled,
             if req.role != "admin" && req.permissionIds.Some? then Granted(permissions, req.permissionIds.value) else {})]
        && permissions == old(permissions) && nextUserId == old(nextUserId) + 1
        && nextPermissionId == old(nextPermissionId)
    {
      if exists id :: id in users && users[id].username == req.username {
        return Failure(Conflict("Username already exists"));
      }
      var granted := if req.role != "admin" && req.permissionIds.Some? then Granted(permissions, req.permissionIds.value) else {};
      var id := nextUserId;
      users := users[id := User(req.username, req.role, None, req.totpEnabled, granted)];
      nextUserId := nextUserId + 1;
      r := Success(id);
    }

    /** `update_user`: a missing user is not found; a new username that
        another user already has is refused; otherwise the user becomes
        `Updated(...)` and usernames stay unique. */
    method UpdateUser(id: UserId, req: UserUpdate) returns (r: Outcome)
      requires Valid()
      modifies this
      ensures Valid()
      ensures r.Fail? ==> unchanged(this)
      ensures r == Fail(NotFound) <==> id !in old(users)
      ensures r.Ok? <==>
        id in old(users) &&
        forall other :: other in old(users) && other != id ==> old(users)[other].username != req.username
      ensures r.Fail? && id in old(users) ==> r.error == Conflict("Username already exists")
      ensures r.Ok? ==>
        && users == old(users)[id := Updated(old(users)[id], req, permissions)]
        && permissions == old(permissions)
        && nextUserId == old(nextUserId) && nextPermissionId == old(nextPermissionId)
    {
      if id !in users {
        return Fail(NotFound);
      }
      if req.username != users[id].username && exists other :: other in users && users[other].username == req.username {
        return Fail(Conflict("Username already exists"));
      }
      users := users[id := Updated(users[id], req, permissions)];
      r := Ok;
    }

    /** `delete_user`: a user cannot delete the account it is logged in
        with; a missing user is not found; otherwise it is removed. */
    method DeleteUser(sessionUser: Option<UserId>, id: UserId) returns (r: Outcome)
      requires Valid()
      modifies this
      ensures Valid()
      ensures r.Fail? ==> unchanged(this)
      ensures sessionUser == Some(id) ==> r == Fail(Conflict("Cannot delete your own account"))
      ensures sessionUser != Some(id) && id !in old(users) ==> r == Fail(NotFound)
      ensures r.Ok? <==> sessionUser != Some(id) && id in old(users)
      ensures r.Ok? ==>
        && users == old(users) - {id}
        && permissions == old(permissions)
        && nextUserId == old(nextUserId) && nextPermissionId == old(nextPermissionId)
    {
      if sessionUser == Some(id) {
        return Fail(Conflict("Cannot delete your own account"));
      }
      if id !in users {
        return Fail(NotFound);
      }
      users := users - {id};
      r := Ok;
    }
  }
}
