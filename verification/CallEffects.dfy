/**
 What each administrative call does when no other call's statement comes in between: the
 whole store it leaves, from its checks to its last statement
 (usecase/group_usecase.go:40-250, usecase/role_usecase.go:65-210,
 usecase/user_usecase.go:50-142, usecase/user_usecase.go:196-228).
 */
module CallEffects {
  import opened Wrappers
  import opened PermissionState

  /** The statements of an uninterrupted call, up to the first that is rejected. */
  function Result(st: Store, caller: UserId, call: Call): Store {
    WriteAll(st, Plan(st, caller, call))
  }

  lemma WriteOne(st: Store, x: Statement)
    ensures WriteAll(st, [x]) == Write(st, x)
  {
    assert [x][1..] == [];
  }

  lemma WriteTwo(st: Store, x: Statement, y: Statement)
    requires Accepted(st, x)
    ensures WriteAll(st, [x, y]) == Write(Write(st, x), y)
  {
    assert [x, y][1..] == [y];
    WriteOne(Write(st, x), y);
  }

  lemma MembershipCalls(st: Store, caller: UserId, g: GroupId, user: UserId, r: RoleId)
    ensures Result(st, caller, AddGroupMember(g, user, r)) ==
            if g in st.groups && user in st.users && r in st.roles && (g, user) !in st.members
            then st.(members := st.members[(g, user) := r]) else st
    ensures Result(st, caller, RemoveGroupMember(g, user)) == st.(members := st.members - {(g, user)})
    ensures (g, user) in st.members && r in st.roles ==>
              Result(st, caller, UpdateGroupMemberRole(g, user, r)) == st.(members := st.members[(g, user) := r])
  {
    WriteOne(st, InsertMember(g, user, r));
    WriteOne(st, DeleteMember(g, user));
    WriteOne(st, SetMemberRole(g, user, r));
  }

  /** A founder becomes the administrator of the new group. */
  lemma FoundingCall(st: Store, caller: UserId, g: GroupId)
    requires g !in st.groups && caller in st.users && SEED_ADMIN in st.roles && (g, caller) !in st.members
    ensures Result(st, caller, CreateGroup(g)) ==
            st.(groups := st.groups[g := Normal], members := st.members[(g, caller) := "seed-admin"])
  {
    WriteTwo(st, InsertGroup(g, Normal), InsertMember(g, caller, SEED_ADMIN));
  }

  /** Nothing of a dissolved group remains, neither memberships nor its own roles; nobody else's role is touched. */
  lemma DissolvingCall(st: Store, caller: UserId, g: GroupId)
    requires forall m :: m in st.members && st.members[m] in st.roles && st.roles[st.members[m]].group == Some(g) ==>
               m.0 == g
    ensures var st' := Result(st, caller, DeleteGroup(g));
            && g !in st'.groups && (forall x :: x in st.groups && x != g ==>
                                    x in st'.groups && st'.groups[x] == st.groups[x])
            && (forall m :: m in st'.members <==> m in st.members && m.0 != g)
            && (forall m :: m in st'.members ==> st'.members[m] == st.members[m])
            && (forall r :: r in st'.roles <==> r in st.roles && st.roles[r].group != Some(g))
            && (forall r :: r in st'.roles ==> st'.roles[r] == st.roles[r]) && st'.users == st.users
  {
    WriteOne(st, DropGroup(g));
    forall r | r in st.roles && st.roles[r].group == Some(g)
      ensures !InUse(st, r, Some(g))
    {
    }
  }

  lemma CreatingRole(st: Store, caller: UserId, r: RoleId, group: Option<GroupId>, name: string, scope: Scope,
                     keys: seq<Key>)
    requires r !in st.roles && (group.Some? ==> group.value in st.groups)
    requires forall x :: x in st.roles && st.roles[x].group == group ==> st.roles[x].name != name
    ensures Result(st, caller, CreateRole(r, group, name, scope, keys)) ==
            st.(roles := st.roles[r := Role(group, name, scope, false, Elements(keys))])
  {
    var insert := InsertRole(r, group, name, scope);
    InsertRoleMeans(st, r, group, name, scope);
    if keys == [] {
      assert Elements(keys) == {};
      WriteOne(st, insert);
    } else {
      WriteTwo(st, insert, ReplaceKeys(r, Elements(keys)));
    }
  }

  /** What a change asks for, on a role that may be changed. */
  function Changed(role: Role, newName: Option<string>, newKeys: Option<seq<Key>>): Role {
    role.(name := if newName.Some? then newName.value else role.name,
          keys := if newKeys.Some? then Elements(newKeys.value) else role.keys)
  }

  lemma ChangingRole(st: Store, caller: UserId, r: RoleId, newName: Option<string>, newKeys: Option<seq<Key>>)
    requires r in st.roles && !st.roles[r].builtin
    requires newName.Some? ==>
               forall x :: x in st.roles && x != r && st.roles[x].group == st.roles[r].group ==>
                   st.roles[x].name != newName.value
    ensures Result(st, caller, UpdateRole(r, newName, newKeys))
            == st.(roles := st.roles[r := Changed(st.roles[r], newName, newKeys)])
  {
    var role := st.roles[r];
    var renames := newName.Some? && newName.value != role.name;
    var plan := Plan(st, caller, UpdateRole(r, newName, newKeys));
    if renames && newKeys.Some? {
      WriteTwo(st, RenameRole(r, newName.value), ReplaceKeys(r, Elements(newKeys.value)));
      assert plan == [RenameRole(r, newName.value), ReplaceKeys(r, Elements(newKeys.value))];
    } else if renames {
      WriteOne(st, RenameRole(r, newName.value));
      assert plan == [RenameRole(r, newName.value)];
    } else if newKeys.Some? {
      WriteOne(st, ReplaceKeys(r, Elements(newKeys.value)));
      assert plan == [ReplaceKeys(r, Elements(newKeys.value))];
    } else {
      assert plan == [];
    }
    assert st.roles[r := role] == st.roles;
  }

  /** A taken name leaves the role as it was, keys included. */
  lemma RefusedName(st: Store, caller: UserId, r: RoleId, name: string, x: RoleId, newKeys: Option<seq<Key>>)
    requires r in st.roles && x in st.roles && x != r && st.roles[x].group == st.roles[r].group
             && st.roles[x].name == name
    requires name != st.roles[r].name
    ensures Result(st, caller, UpdateRole(r, Some(name), newKeys)) == st
  {
    assert NameTaken(st, st.roles[r].group, name, Some(r));
    assert Plan(st, caller, UpdateRole(r, Some(name), newKeys))[0] == RenameRole(r, name);
  }

  lemma DroppingRole(st: Store, caller: UserId, r: RoleId)
    requires r in st.roles && !st.roles[r].builtin && forall m :: m in st.members ==> st.members[m] != r
    ensures var st' := Result(st, caller, DeleteRole(r));
            st'.roles == st.roles - {r} && st'.members == st.members && st'.groups == st.groups && st'.users == st.users
  {
    WriteOne(st, DropRole(r));
  }

  /** A new user administers its personal group, unless another role was chosen for it. */
  lemma CreatingUser(st: Store, caller: UserId, user: UserId, role: Option<RoleId>)
    requires user !in st.users && PersonalGroup(user) !in st.groups && (PersonalGroup(user), user) !in st.members
    requires (if role.Some? then role.value else "seed-admin") in st.roles
    ensures var g := PersonalGroup(user);
            Result(st, caller, CreateUser(user, role)) ==
            st.(users := st.users + {user}, groups := st.groups[g := Personal],
                members := st.members[(g, user) := if role.Some? then role.value else "seed-admin"])
  {
    var g, r := PersonalGroup(user), if role.Some? then role.value else SEED_ADMIN;
    var plan := Plan(st, caller, CreateUser(user, role));
    assert plan[1..] == [InsertGroup(g, Personal), InsertMember(g, user, r)];
    WriteTwo(Write(st, InsertUser(user)), InsertGroup(g, Personal), InsertMember(g, user, r));
  }

  lemma DroppingUser(st: Store, caller: UserId, user: UserId)
    ensures var st' := Result(st, caller, DeleteUser(user));
            && st'.users == st.users - {user} && st'.groups == st.groups && st'.roles == st.roles
            && (forall m :: m in st'.members <==> m in st.members && m.1 != user)
            && (forall m :: m in st'.members ==> st'.members[m] == st.members[m])
  {
    WriteOne(st, DropUser(user));
  }

  lemma Inviting(st: Store, caller: UserId, token: Token, role: Option<RoleId>)
    requires token !in st.tokens && (role.Some? ==> role.value in st.roles)
    ensures Result(st, caller, CreateRegistrationToken(token, role))
            == st.(tokens := st.tokens[token := Invitation(role, false)])
  {
    WriteOne(st, InsertToken(token, role));
  }

  /** An invitation whose role goes away falls back to the default; all others stay as they are. */
  lemma InvitationsForget(st: Store, caller: UserId, r: RoleId, token: Token)
    requires r in st.roles && !st.roles[r].builtin && (forall m :: m in st.members ==> st.members[m] != r)
             && token in st.tokens
    ensures var st' := Result(st, caller, DeleteRole(r));
            token in st'.tokens && st'.tokens[token].used == st.tokens[token].used
            && st'.tokens[token].role == if st.tokens[token].role == Some(r) then None else st.tokens[token].role
  {
    WriteOne(st, DropRole(r));
  }
}
