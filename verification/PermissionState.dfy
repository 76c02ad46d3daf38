/**
 Groups, roles and memberships (db/migrations/20260628110000_create_permission_system.up.sql),
 the permission questions asked of them (usecase/permission_usecase.go:39-97), what each
 administrative call checks before it writes (usecase/group_usecase.go,
 usecase/role_usecase.go, usecase/user_usecase.go) and the statements it then issues.
 */
module PermissionState {
  import opened Wrappers

  type GroupId = string
  type RoleId = string
  type UserId = string
  type Key = string
  /** The stored digest of a registration token. */
  type Token = string

  datatype GroupType = Personal | Normal | System
  datatype Scope = NormalScope | SystemScope

  datatype Role = Role(group: Option<GroupId>, name: string, scope: Scope, builtin: bool, keys: set<Key>)

  /** `role` is the personal role the issuer chose, None for the default. */
  datatype Invitation = Invitation(role: Option<RoleId>, used: bool)

  datatype Store = Store(
    groups: map<GroupId, GroupType>,
    roles: map<RoleId, Role>,
    members: map<(GroupId, UserId), RoleId>,
    users: set<UserId>,
    tokens: map<Token, Invitation>)

  const SYSTEM_GROUP: GroupId := "system"
  const SYSTEM_USER: UserId := "system"
  const SEED_ADMIN: RoleId := "seed-admin"
  const SEED_USER: RoleId := "seed-user"
  const SEED_SESSION_OPERATOR: RoleId := "seed-session-operator"
  const SEED_SYSTEM_ADMIN: RoleId := "seed-system-admin"

  const SESSION_OPERATOR_KEYS: set<Key> :=
    {"host:read", "host:use", "session:read", "session:write", "account:read", "account:use"}
  const USER_KEYS: set<Key> := SESSION_OPERATOR_KEYS + {"host:write", "account:write"}
  const ADMIN_KEYS: set<Key> := USER_KEYS + {"group:members.manage", "group:edit"}
  const SYSTEM_KEYS: set<Key> :=
    {"system:user.create", "system:user.delete", "system:user.list", "system:group.list", "system:group.manage",
     "system:role.manage"}

  /** The migrations' seed: four built-in roles and the system user as the system group's only member. */
  function Seeded(): Store {
    Store(map[SYSTEM_GROUP := System],
          map[SEED_ADMIN := Role(None, "admin", NormalScope, true, ADMIN_KEYS),
              SEED_USER := Role(None, "user", NormalScope, true, USER_KEYS),
              SEED_SESSION_OPERATOR := Role(None, "session-operator", NormalScope, true, SESSION_OPERATOR_KEYS),
              SEED_SYSTEM_ADMIN := Role(None, "system-admin", SystemScope, true, SYSTEM_KEYS)],
          map[(SYSTEM_GROUP, SYSTEM_USER) := SEED_SYSTEM_ADMIN],
          {SYSTEM_USER},
          map[])
  }

  // ---------------------------------------------------------------- questions

  predicate IsSystemKey(k: Key) {
    |k| >= 7 && k[..7] == "system:"
  }

  lemma NotSystemKey(k: Key)
    requires |k| >= 2 && k[1] != 'y'
    ensures !IsSystemKey(k)
  {
    if |k| >= 7 {
      assert k[..7][1] == k[1] && "system:"[1] == 'y';
    }
  }

  lemma SystemKey(rest: string)
    ensures IsSystemKey("system:" + rest)
  {
    assert ("system:" + rest)[..7] == "system:";
  }

  /** The prefix test agrees with the two lists of known keys. */
  lemma AdminKeysAreNormal()
    ensures forall k :: k in ADMIN_KEYS ==> !IsSystemKey(k)
  {
    assert forall k :: k in SESSION_OPERATOR_KEYS ==> |k| >= 2 && k[1] != 'y';
    assert forall k :: k in USER_KEYS ==> |k| >= 2 && k[1] != 'y';
    forall k | k in ADMIN_KEYS
      ensures !IsSystemKey(k)
    {
      NotSystemKey(k);
    }
  }

  lemma SystemKeysAreSystem()
    ensures forall k :: k in SYSTEM_KEYS ==> IsSystemKey(k)
  {
    SystemKey("user.create");
    SystemKey("user.delete");
    SystemKey("user.list");
    SystemKey("group.list");
    SystemKey("group.manage");
    SystemKey("role.manage");
  }

  predicate IsKnownKey(k: Key) {
    k in ADMIN_KEYS || k in SYSTEM_KEYS
  }

  function KeysIn(st: Store, user: UserId, g: GroupId): set<Key> {
    if (g, user) in st.members && st.members[(g, user)] in st.roles then st.roles[st.members[(g, user)]].keys else {}
  }

  predicate HasSystemPermission(st: Store, user: UserId, k: Key) {
    k in KeysIn(st, user, SYSTEM_GROUP)
  }

  /** system:group.manage stands in for every key that is not a system key. */
  predicate HasPermission(st: Store, user: UserId, g: GroupId, k: Key) {
    if k == "" then true
    else if IsSystemKey(k) then HasSystemPermission(st, user, k)
    else (g != "" && k in KeysIn(st, user, g)) || HasSystemPermission(st, user, "system:group.manage")
  }

  predicate Assignable(scope: Scope, t: GroupType) {
    match scope
    case NormalScope => t.Normal? || t.Personal?
    case SystemScope => t.System?
  }

  /** Every key is known and of the role's own kind. */
  predicate ValidKeys(scope: Scope, keys: seq<Key>) {
    forall i :: 0 <= i < |keys| ==> IsKnownKey(keys[i]) && (IsSystemKey(keys[i]) <==> scope.SystemScope?)
  }

  predicate MayGrant(st: Store, caller: UserId, g: GroupId, keys: set<Key>) {
    forall k :: k in keys ==> HasPermission(st, caller, g, k)
  }

  /** The system group keeps a member when `user` leaves it. */
  predicate HasOtherMember(st: Store, g: GroupId, user: UserId) {
    exists m :: m in st.members && m.0 == g && m.1 != user
  }

  predicate PersonalAssignable(st: Store, r: RoleId) {
    r in st.roles && st.roles[r].scope.NormalScope? && st.roles[r].group.None?
  }

  predicate MayMutate(st: Store, caller: UserId, role: Role) {
    if role.group.None? then HasSystemPermission(st, caller, "system:role.manage")
    else HasPermission(st, caller, role.group.value, "group:members.manage")
  }

  // ---------------------------------------------------------------- the answers, in terms of members and roles

  /** The user's role in the group has the key. */
  predicate Gives(st: Store, user: UserId, g: GroupId, k: Key) {
    && g != "" && (g, user) in st.members && st.members[(g, user)] in st.roles
    && k in st.roles[st.members[(g, user)]].keys
  }

  /** The role in the group has it, or the role in the system group stands in for it. */
  predicate Holds(st: Store, user: UserId, g: GroupId, k: Key) {
    Gives(st, user, g, k) || Gives(st, user, "system", "system:group.manage")
  }

  /** Every one of the keys is the user's own in the group; system keys can only come from the system group. */
  predicate OwnKeys(st: Store, user: UserId, g: GroupId, keys: set<Key>) {
    forall k :: k in keys && k != "" ==>
      if |k| >= 7 && k[..7] == "system:" then Gives(st, user, "system", k) else Holds(st, user, g, k)
  }

  lemma PermissionMeans(st: Store, user: UserId, g: GroupId, k: Key)
    ensures k != "" && !IsSystemKey(k) ==> (HasPermission(st, user, g, k) <==> Holds(st, user, g, k))
    ensures IsSystemKey(k) ==> (HasPermission(st, user, g, k) <==> Gives(st, user, "system", k))
    ensures HasSystemPermission(st, user, k) <==> Gives(st, user, "system", k)
    ensures HasPermission(st, user, g, "")
  {
  }

  lemma GrantMeans(st: Store, user: UserId, g: GroupId, keys: set<Key>)
    ensures MayGrant(st, user, g, keys) <==> OwnKeys(st, user, g, keys)
  {
    forall k | k in keys
      ensures HasPermission(st, user, g, k)
         <==> (k != "" ==> if IsSystemKey(k) then Gives(st, user, "system", k) else Holds(st, user, g, k))
    {
      PermissionMeans(st, user, g, k);
    }
  }

  /** The check every call on a group's members begins with. */
  lemma ManageMeans(st: Store, user: UserId, g: GroupId)
    ensures HasPermission(st, user, g, "group:members.manage") <==> Holds(st, user, g, "group:members.manage")
  {
    NotSystemKey("group:members.manage");
    PermissionMeans(st, user, g, "group:members.manage");
  }

  // ---------------------------------------------------------------- calls and what they check

  /** New group and role ids are random and passed in; `personalRole` is None where the call leaves it empty. */
  datatype Call =
    | CreateGroup(id: GroupId)
    | DeleteGroup(g: GroupId)
    | AddGroupMember(g: GroupId, user: UserId, role: RoleId)
    | RemoveGroupMember(g: GroupId, user: UserId)
    | UpdateGroupMemberRole(g: GroupId, user: UserId, role: RoleId)
    | CreateRole(roleId: RoleId, group: Option<GroupId>, name: string, scope: Scope, keys: seq<Key>)
    | UpdateRole(roleId: RoleId, newName: Option<string>, newKeys: Option<seq<Key>>)
    | DeleteRole(roleId: RoleId)
    | CreateUser(user: UserId, personalRole: Option<RoleId>)
    | DeleteUser(user: UserId)
    | CreateRegistrationToken(token: Token, personalRole: Option<RoleId>)

  function Elements(keys: seq<Key>): set<Key> {
    set k | k in keys
  }

  predicate Allowed(st: Store, caller: UserId, call: Call) {
    match call
    case CreateGroup(_) => HasSystemPermission(st, caller, "system:group.manage")
    case DeleteGroup(g) => g in st.groups && st.groups[g].Normal? && HasPermission(st, caller, g, "group:edit")
    case AddGroupMember(g, _, r) =>
      && HasPermission(st, caller, g, "group:members.manage")
      && g in st.groups && !st.groups[g].Personal? && r in st.roles
      && Assignable(st.roles[r].scope, st.groups[g])
      && MayGrant(st, caller, g, st.roles[r].keys)
    case RemoveGroupMember(g, user) =>
      && g in st.groups && !st.groups[g].Personal?
      && HasPermission(st, caller, g, "group:members.manage")
      && (st.groups[g].System? ==> HasOtherMember(st, g, user))
    case UpdateGroupMemberRole(g, user, r) =>
      && g in st.groups
      && (if st.groups[g].Personal? then HasSystemPermission(st, caller, "system:group.manage")
          else HasPermission(st, caller, g, "group:members.manage"))
      && r in st.roles && Assignable(st.roles[r].scope, st.groups[g])
      && MayGrant(st, caller, g, st.roles[r].keys)
      && (g, user) in st.members
    case CreateRole(_, group, name, scope, keys) =>
      && name != "" && ValidKeys(scope, keys)
      && (if group.Some? then
            && group.value in st.groups && Assignable(scope, st.groups[group.value])
            && HasPermission(st, caller, group.value, "group:members.manage")
            && MayGrant(st, caller, group.value, Elements(keys))
          else HasSystemPermission(st, caller, "system:role.manage"))
    case UpdateRole(r, _, newKeys) =>
      && r in st.roles && !st.roles[r].builtin
      && (newKeys.Some? ==> ValidKeys(st.roles[r].scope, newKeys.value))
      && MayMutate(st, caller, st.roles[r])
      && (newKeys.Some? && st.roles[r].group.Some? ==>
          MayGrant(st, caller, st.roles[r].group.value, Elements(newKeys.value)))
    case DeleteRole(r) => r in st.roles && !st.roles[r].builtin && MayMutate(st, caller, st.roles[r])
    case CreateUser(user, role) =>
      && HasSystemPermission(st, caller, "system:user.create") && user != SYSTEM_USER
      && (role.Some? ==> PersonalAssignable(st, role.value))
    // The RPC handler refuses to delete the caller.
    case DeleteUser(user) =>
      && caller != user
      && HasSystemPermission(st, caller, "system:user.delete") && user != SYSTEM_USER && user in st.users
    case CreateRegistrationToken(_, role) =>
      HasSystemPermission(st, caller, "system:user.create") && (role.Some? ==> PersonalAssignable(st, role.value))
  }

  /** Every key is one of those the scope knows. */
  predicate KnownIn(scope: Scope, keys: seq<Key>) {
    forall i :: 0 <= i < |keys| ==> keys[i] in (if scope.SystemScope? then SYSTEM_KEYS else ADMIN_KEYS)
  }

  lemma ValidMeans(scope: Scope, keys: seq<Key>)
    ensures ValidKeys(scope, keys) <==> KnownIn(scope, keys)
  {
    AdminKeysAreNormal();
    SystemKeysAreSystem();
  }

  /** Exactly when a caller may add a member, from members and roles alone. */
  predicate MayAddMember(st: Store, caller: UserId, g: GroupId, r: RoleId) {
    && Holds(st, caller, g, "group:members.manage")
    && g in st.groups && st.groups[g] != Personal && r in st.roles
    && (st.roles[r].scope == SystemScope <==> st.groups[g] == System)
    && OwnKeys(st, caller, g, st.roles[r].keys)
  }

  lemma MemberCallsMean(st: Store, caller: UserId, g: GroupId, user: UserId, r: RoleId)
    ensures Allowed(st, caller, AddGroupMember(g, user, r)) <==> MayAddMember(st, caller, g, r)
  {
    ManageMeans(st, caller, g);
    if g in st.groups && r in st.roles {
      AssignableMeans(st.roles[r].scope, st.groups[g]);
      GrantMeans(st, caller, g, st.roles[r].keys);
    }
  }

  /** Exactly when a caller may change a member's role. */
  predicate MayChangeMember(st: Store, caller: UserId, g: GroupId, user: UserId, r: RoleId) {
    && g in st.groups
    && (if st.groups[g] == Personal then Gives(st, caller, "system", "system:group.manage")
        else Holds(st, caller, g, "group:members.manage"))
    && r in st.roles && (st.roles[r].scope == SystemScope <==> st.groups[g] == System)
    && OwnKeys(st, caller, g, st.roles[r].keys) && (g, user) in st.members
  }

  lemma AssignableMeans(scope: Scope, t: GroupType)
    ensures Assignable(scope, t) <==> (scope == SystemScope <==> t == System)
  {
  }

  lemma MemberChangesMean(st: Store, caller: UserId, g: GroupId, user: UserId, r: RoleId)
    ensures Allowed(st, caller, UpdateGroupMemberRole(g, user, r)) <==> MayChangeMember(st, caller, g, user, r)
  {
    ManageMeans(st, caller, g);
    PermissionMeans(st, caller, g, "system:group.manage");
    if g in st.groups && r in st.roles {
      AssignableMeans(st.roles[r].scope, st.groups[g]);
      GrantMeans(st, caller, g, st.roles[r].keys);
    }
  }

  /** A role of a group is for those who manage its members, a role of none for those who manage roles. */
  predicate MayManageRoles(st: Store, caller: UserId, group: Option<GroupId>) {
    match group
    case Some(g) => Holds(st, caller, g, "group:members.manage")
    case None => Gives(st, caller, "system", "system:role.manage")
  }

  /** In a group nobody puts keys into a role that are not their own. */
  predicate MayPutIn(st: Store, caller: UserId, group: Option<GroupId>, keys: set<Key>) {
    group.Some? ==> OwnKeys(st, caller, group.value, keys)
  }

  /** Exactly when a caller may create a role. */
  predicate MayCreateRole(st: Store, caller: UserId, group: Option<GroupId>, name: string, scope: Scope,
                          keys: seq<Key>) {
    && name != "" && KnownIn(scope, keys)
    && (group.Some? ==> group.value in st.groups && (st.groups[group.value] == System <==> scope == SystemScope))
    && MayManageRoles(st, caller, group) && MayPutIn(st, caller, group, Elements(keys))
  }

  /** Exactly when a caller may change a role's name and, if given, its keys. */
  predicate MayChangeRole(st: Store, caller: UserId, r: RoleId, newKeys: Option<seq<Key>>) {
    && r in st.roles && !st.roles[r].builtin
    && MayManageRoles(st, caller, st.roles[r].group)
    && (newKeys.Some? ==>
          KnownIn(st.roles[r].scope, newKeys.value) && MayPutIn(st, caller, st.roles[r].group, Elements(newKeys.value)))
  }

  lemma ManageRolesMeans(st: Store, caller: UserId, role: Role)
    ensures MayMutate(st, caller, role) <==> MayManageRoles(st, caller, role.group)
  {
    match role.group {
      case Some(g) => ManageMeans(st, caller, g);
      case None => PermissionMeans(st, caller, "", "system:role.manage");
    }
  }

  lemma PutInMeans(st: Store, caller: UserId, group: Option<GroupId>, keys: set<Key>)
    ensures MayPutIn(st, caller, group, keys) <==> (group.Some? ==> MayGrant(st, caller, group.value, keys))
  {
    if group.Some? {
      GrantMeans(st, caller, group.value, keys);
    }
  }

  lemma RoleCallsMean(st: Store, caller: UserId, r: RoleId, group: Option<GroupId>, name: string, scope: Scope,
                      keys: seq<Key>)
    ensures Allowed(st, caller, CreateRole(r, group, name, scope, keys))
            <==> MayCreateRole(st, caller, group, name, scope, keys)
  {
    ValidMeans(scope, keys);
    if group.Some? && group.value in st.groups {
      AssignableMeans(scope, st.groups[group.value]);
    }
    ManageRolesMeans(st, caller, Role(group, name, scope, false, {}));
    PutInMeans(st, caller, group, Elements(keys));
  }

  lemma RoleChangesMean(st: Store, caller: UserId, r: RoleId, newName: Option<string>, newKeys: Option<seq<Key>>)
    ensures Allowed(st, caller, UpdateRole(r, newName, newKeys)) <==> MayChangeRole(st, caller, r, newKeys)
    ensures Allowed(st, caller, DeleteRole(r)) <==> MayChangeRole(st, caller, r, None)
  {
    if r in st.roles {
      ManageRolesMeans(st, caller, st.roles[r]);
      if newKeys.Some? {
        ValidMeans(st.roles[r].scope, newKeys.value);
        PutInMeans(st, caller, st.roles[r].group, Elements(newKeys.value));
      }
    }
  }

  /** The role a new user may be given in the personal group: the default, or a global one for normal groups. */
  predicate FitsNewUser(st: Store, role: Option<RoleId>) {
    role.Some? ==>
      role.value in st.roles && st.roles[role.value].scope == NormalScope && st.roles[role.value].group == None
  }

  /** Exactly who may create users, and issue invitations to register. */
  lemma UserCallsMean(st: Store, caller: UserId, user: UserId, token: Token, role: Option<RoleId>)
    ensures Allowed(st, caller, CreateUser(user, role))
       <==> Gives(st, caller, "system", "system:user.create") && user != "system" && FitsNewUser(st, role)
    ensures Allowed(st, caller, CreateRegistrationToken(token, role))
       <==> Gives(st, caller, "system", "system:user.create") && FitsNewUser(st, role)
    ensures Allowed(st, caller, DeleteUser(user))
       <==> Gives(st, caller, "system", "system:user.delete") && user != caller && user != "system" && user in st.users
  {
    PermissionMeans(st, caller, "", "system:user.create");
    PermissionMeans(st, caller, "", "system:user.delete");
  }

  /** Exactly who may found a group, dissolve one and take a member out of one. */
  lemma GroupCallsMean(st: Store, caller: UserId, g: GroupId, user: UserId)
    ensures Allowed(st, caller, CreateGroup(g)) <==> Gives(st, caller, "system", "system:group.manage")
    ensures Allowed(st, caller, DeleteGroup(g))
            <==> g in st.groups && st.groups[g] == Normal && Holds(st, caller, g, "group:edit")
    ensures Allowed(st, caller, RemoveGroupMember(g, user)) <==>
              && g in st.groups && st.groups[g] != Personal && Holds(st, caller, g, "group:members.manage")
              && (st.groups[g] == System ==> exists m :: m in st.members && m.0 == g && m.1 != user)
  {
    NotSystemKey("group:edit");
    PermissionMeans(st, caller, g, "system:group.manage");
    PermissionMeans(st, caller, g, "group:edit");
    ManageMeans(st, caller, g);
  }

  // ---------------------------------------------------------------- statements

  /** `ReplaceKeys` stands for reading a role's keys and then removing and adding them one by one. */
  datatype Statement =
    | InsertUser(user: UserId)
    | InsertGroup(g: GroupId, kind: GroupType)
    | InsertMember(g: GroupId, user: UserId, role: RoleId)
    | SetMemberRole(g: GroupId, user: UserId, role: RoleId)
    | DeleteMember(g: GroupId, user: UserId)
    | InsertRole(role: RoleId, group: Option<GroupId>, name: string, scope: Scope)
    | RenameRole(role: RoleId, name: string)
    | ReplaceKeys(role: RoleId, keys: set<Key>)
    | RemoveKey(role: RoleId, key: Key)
    | AddKey(role: RoleId, key: Key)
    | DropRole(role: RoleId)
    | DropGroup(g: GroupId)
    | DropUser(user: UserId)
    | InsertToken(token: Token, personal: Option<RoleId>)
    | UseToken(token: Token)

  function PersonalGroup(user: UserId): GroupId {
    user + "-personal"
  }

  /** The user, the personal group and the membership in it, each after what it refers to. */
  function NewUser(user: UserId, role: Option<RoleId>): seq<Statement> {
    [InsertUser(user), InsertGroup(PersonalGroup(user), Personal),
     InsertMember(PersonalGroup(user), user, if role.Some? then role.value else SEED_ADMIN)]
  }

  /** A registration does the same and uses up its token. */
  function Registration(user: UserId, token: Token, role: Option<RoleId>): seq<Statement> {
    NewUser(user, role) + [UseToken(token)]
  }

  /** The statements of a call that passed its checks in `st`, in order. */
  function Plan(st: Store, caller: UserId, call: Call): seq<Statement> {
    match call
    case CreateGroup(id) => [InsertGroup(id, Normal), InsertMember(id, caller, SEED_ADMIN)]
    case DeleteGroup(g) => [DropGroup(g)]
    case AddGroupMember(g, user, r) => [InsertMember(g, user, r)]
    case RemoveGroupMember(g, user) => [DeleteMember(g, user)]
    case UpdateGroupMemberRole(g, user, r) => [SetMemberRole(g, user, r)]
    case CreateRole(r, group, name, scope, keys) =>
      [InsertRole(r, group, name, scope)] + if keys == [] then [] else [ReplaceKeys(r, Elements(keys))]
    case UpdateRole(r, newName, newKeys) =>
      (if newName.Some? && r in st.roles && newName.value != st.roles[r].name then [RenameRole(r, newName.value)]
       else [])
      + if newKeys.None? then [] else [ReplaceKeys(r, Elements(newKeys.value))]
    case DeleteRole(r) => [DropRole(r)]
    case CreateUser(user, role) => NewUser(user, role)
    case DeleteUser(user) => [DropUser(user)]
    case CreateRegistrationToken(token, role) => [InsertToken(token, role)]
  }

  /** The role is still some member's, outside the group that is going away. */
  predicate InUse(st: Store, r: RoleId, leaving: Option<GroupId>) {
    exists m :: m in st.members && st.members[m] == r && Some(m.0) != leaving
  }

  /** Role names are unique within a group and among the global roles. */
  predicate NameTaken(st: Store, group: Option<GroupId>, name: string, except: Option<RoleId>) {
    exists r :: r in st.roles && st.roles[r].group == group && st.roles[r].name == name && Some(r) != except
  }

  /** Constraints and triggers let the statement through. */
  predicate Accepted(st: Store, s: Statement) {
    match s
    case InsertUser(user) => user !in st.users
    case InsertGroup(g, _) => g !in st.groups
    case InsertMember(g, user, r) => g in st.groups && user in st.users && r in st.roles && (g, user) !in st.members
    case SetMemberRole(g, user, r) => (g, user) in st.members ==> r in st.roles
    case DeleteMember(_, _) => true
    case InsertRole(r, group, name, _) => r !in st.roles && (group.Some? ==> group.value in st.groups)
      && !NameTaken(st, group, name, None)
    case RenameRole(r, name) => r in st.roles ==>
        !st.roles[r].builtin && !NameTaken(st, st.roles[r].group, name, Some(r))
    case ReplaceKeys(r, _) => r in st.roles && !st.roles[r].builtin
    case RemoveKey(r, k) => r in st.roles && k in st.roles[r].keys ==> !st.roles[r].builtin
    case AddKey(r, _) => r in st.roles && !st.roles[r].builtin
    case DropRole(r) => r in st.roles ==> !st.roles[r].builtin && !InUse(st, r, None)
    case DropGroup(g) => forall r :: r in st.roles && st.roles[r].group == Some(g) ==> !InUse(st, r, Some(g))
    case DropUser(_) => true
    case InsertToken(token, r) => token !in st.tokens && (r.Some? ==> r.value in st.roles)
    case UseToken(token) => token in st.tokens && !st.tokens[token].used
  }

  /** Tokens whose role goes away fall back to the default. */
  function ForgetRoles(tokens: map<Token, Invitation>, gone: set<RoleId>): map<Token, Invitation> {
    map t | t in tokens :: if tokens[t].role.Some? && tokens[t].role.value in gone then tokens[t].(role := None)
      else tokens[t]
  }

  /** The roles a group takes along. */
  function RolesOf(st: Store, g: GroupId): set<RoleId> {
    set r | r in st.roles && st.roles[r].group == Some(g)
  }

  function WithKeys(st: Store, r: RoleId, keys: set<Key>): Store
    requires r in st.roles
  {
    st.(roles := st.roles[r := st.roles[r].(keys := keys)])
  }

  /** Deleting a group or a user takes its memberships along, deleting a group its own roles too. */
  function Write(st: Store, s: Statement): Store {
    if !Accepted(st, s) then st
    else match s
      case InsertUser(user) => st.(users := st.users + {user})
      case InsertGroup(g, kind) => st.(groups := st.groups[g := kind])
      case InsertMember(g, user, r) => st.(members := st.members[(g, user) := r])
      case SetMemberRole(g, user, r) => if (g, user) in st.members then st.(members := st.members[(g, user) := r])
        else st
      case DeleteMember(g, user) => st.(members := st.members - {(g, user)})
      case InsertRole(r, group, name, scope) => st.(roles := st.roles[r := Role(group, name, scope, false, {})])
      case RenameRole(r, name) => if r in st.roles then st.(roles := st.roles[r := st.roles[r].(name := name)]) else st
      case ReplaceKeys(r, keys) => WithKeys(st, r, keys)
      case RemoveKey(r, k) => if r in st.roles then WithKeys(st, r, st.roles[r].keys - {k}) else st
      case AddKey(r, k) => WithKeys(st, r, st.roles[r].keys + {k})
      case DropRole(r) => st.(roles := st.roles - {r}, tokens := ForgetRoles(st.tokens, {r}))
      case DropGroup(g) =>
        st.(groups := st.groups - {g},
            roles := st.roles - RolesOf(st, g),
            members := map m | m in st.members && m.0 != g :: st.members[m],
            tokens := ForgetRoles(st.tokens, RolesOf(st, g)))
      case DropUser(user) =>
        st.(users := st.users - {user}, members := map m | m in st.members && m.1 != user :: st.members[m])
      case InsertToken(token, r) => st.(tokens := st.tokens[token := Invitation(r, false)])
      case UseToken(token) => st.(tokens := st.tokens[token := st.tokens[token].(used := true)])
  }

  /** Statements in order, up to the first that a constraint rejects. */
  function WriteAll(st: Store, plan: seq<Statement>): Store
    decreases |plan|
  {
    if plan == [] || !Accepted(st, plan[0]) then st else WriteAll(Write(st, plan[0]), plan[1..])
  }

  /** A role is inserted when its id is new, its group is there and its name is new in the group. */
  lemma InsertRoleMeans(st: Store, r: RoleId, group: Option<GroupId>, name: string, scope: Scope)
    ensures Accepted(st, InsertRole(r, group, name, scope))
       <==> r !in st.roles && (group.Some? ==> group.value in st.groups)
            && forall x :: x in st.roles && st.roles[x].group == group ==> st.roles[x].name != name
  {
  }

  /** All statements of one transaction, or none. */
  predicate AllAccepted(st: Store, plan: seq<Statement>)
    decreases |plan|
  {
    plan == [] || (Accepted(st, plan[0]) && AllAccepted(Write(st, plan[0]), plan[1..]))
  }

  function WriteTx(st: Store, plan: seq<Statement>): Store {
    if AllAccepted(st, plan) then WriteAll(st, plan) else st
  }

  lemma {:induction false} Unroll(st: Store, plan: seq<Statement>, i: nat)
    requires i < |plan| && AllAccepted(st, plan[..i])
    ensures AllAccepted(st, plan[..i + 1]) <==> Accepted(WriteAll(st, plan[..i]), plan[i])
    ensures !AllAccepted(st, plan[..i + 1]) ==> !AllAccepted(st, plan)
    ensures AllAccepted(st, plan[..i + 1]) ==> WriteAll(st, plan[..i + 1]) == Write(WriteAll(st, plan[..i]), plan[i])
    decreases i
  {
    assert plan[..i + 1][1..] == plan[1..][..i];
    if i > 0 {
      assert plan[..i][1..] == plan[1..][..i - 1];
      Unroll(Write(st, plan[0]), plan[1..], i - 1);
    }
  }

  /** The statements that replace keys, in some order of the keys to remove and to add. */
  function KeyChanges(r: RoleId, removed: seq<Key>, added: seq<Key>): (plan: seq<Statement>)
    ensures forall i :: 0 <= i < |plan| ==> (plan[i].RemoveKey? || plan[i].AddKey?) && plan[i].role == r
    ensures forall i :: 0 <= i < |plan| && plan[i].AddKey? ==> plan[i].key in added
    decreases |removed| + |added|
  {
    if removed != [] then [RemoveKey(r, removed[0])] + KeyChanges(r, removed[1..], added)
    else if added != [] then [AddKey(r, added[0])] + KeyChanges(r, [], added[1..])
    else []
  }

  /** Exactly the superfluous keys are removed and exactly the missing ones added. */
  predicate Turns(existing: set<Key>, removed: seq<Key>, added: seq<Key>, wanted: set<Key>) {
    Elements(removed) == existing - wanted && Elements(added) == wanted - existing
  }

  /** One statement first, then the others. */
  lemma FirstChange(st: Store, x: Statement, rest: seq<Statement>)
    requires Accepted(st, x)
    ensures AllAccepted(st, [x] + rest) <==> AllAccepted(Write(st, x), rest)
    ensures WriteAll(st, [x] + rest) == WriteAll(Write(st, x), rest)
  {
    assert ([x] + rest)[1..] == rest;
  }

  lemma TailElements(keys: seq<Key>)
    requires keys != []
    ensures Elements(keys) == {keys[0]} + Elements(keys[1..])
  {
  }

  lemma {:induction false} AddOneByOne(st: Store, r: RoleId, added: seq<Key>)
    requires r in st.roles && !st.roles[r].builtin
    ensures AllAccepted(st, KeyChanges(r, [], added))
    ensures WriteAll(st, KeyChanges(r, [], added)) == WithKeys(st, r, st.roles[r].keys + Elements(added))
    decreases |added|
  {
    var keys := st.roles[r].keys;
    if added == [] {
      assert keys + Elements([]) == keys;
    } else {
      AddOneByOne(Write(st, AddKey(r, added[0])), r, added[1..]);
      FirstChange(st, AddKey(r, added[0]), KeyChanges(r, [], added[1..]));
      TailElements(added);
      assert keys + {added[0]} + Elements(added[1..]) == keys + Elements(added);
    }
  }

  /** Left uninterrupted, the statements leave everything but the keys of the role alone. */
  lemma {:induction false} KeyByKey(st: Store, r: RoleId, removed: seq<Key>, added: seq<Key>)
    requires r in st.roles && !st.roles[r].builtin
    ensures AllAccepted(st, KeyChanges(r, removed, added))
    ensures WriteAll(st, KeyChanges(r, removed, added))
            == WithKeys(st, r, st.roles[r].keys - Elements(removed) + Elements(added))
    decreases |removed|
  {
    var keys := st.roles[r].keys;
    if removed == [] {
      AddOneByOne(st, r, added);
      assert keys - Elements([]) == keys;
    } else {
      KeyByKey(Write(st, RemoveKey(r, removed[0])), r, removed[1..], added);
      FirstChange(st, RemoveKey(r, removed[0]), KeyChanges(r, removed[1..], added));
      TailElements(removed);
      assert keys - {removed[0]} - Elements(removed[1..]) == keys - Elements(removed);
    }
  }

  /** So they replace the keys. */
  lemma KeyByKeyReplaces(st: Store, r: RoleId, removed: seq<Key>, added: seq<Key>, wanted: set<Key>)
    requires Accepted(st, ReplaceKeys(r, wanted)) && Turns(st.roles[r].keys, removed, added, wanted)
    ensures AllAccepted(st, KeyChanges(r, removed, added))
    ensures WriteAll(st, KeyChanges(r, removed, added)) == Write(st, ReplaceKeys(r, wanted))
  {
    KeyByKey(st, r, removed, added);
    assert st.roles[r].keys - Elements(removed) + Elements(added) == wanted;
  }

  /** What a registration that goes through leaves behind. */
  lemma RegistrationWrites(st: Store, user: UserId, token: Token, role: Option<RoleId>)
    requires AllAccepted(st, Registration(user, token, role))
    ensures var g := PersonalGroup(user);
            var r := if role.Some? then role.value else SEED_ADMIN;
            && user !in st.users && g !in st.groups && token in st.tokens && !st.tokens[token].used
            && WriteAll(st, Registration(user, token, role))
               == Store(st.groups[g := Personal], st.roles, st.members[(g, user) := r], st.users + {user},
                        st.tokens[token := st.tokens[token].(used := true)])
  {
    var g, r := PersonalGroup(user), if role.Some? then role.value else SEED_ADMIN;
    var plan := Registration(user, token, role);
    var st1 := Write(st, InsertUser(user));
    var st2 := Write(st1, InsertGroup(g, Personal));
    var st3 := Write(st2, InsertMember(g, user, r));
    assert plan[1..] == [InsertGroup(g, Personal), InsertMember(g, user, r), UseToken(token)];
    assert plan[1..][1..] == [InsertMember(g, user, r), UseToken(token)];
    assert plan[1..][1..][1..] == [UseToken(token)];
    var rest1, rest2, rest3 := plan[1..], plan[1..][1..], plan[1..][1..][1..];
    assert AllAccepted(st1, rest1) && AllAccepted(st2, rest2) && AllAccepted(st3, rest3);
    assert WriteAll(st, plan) == WriteAll(st1, rest1);
    assert WriteAll(st1, rest1) == WriteAll(st2, rest2);
    assert WriteAll(st2, rest2) == WriteAll(st3, rest3);
    assert WriteAll(st3, rest3) == Write(st3, UseToken(token));
  }
}
