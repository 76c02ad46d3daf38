/**
 The administrative use cases run one call at a time: their checks in order, with the
 loops over keys and members, and then their statements (usecase/group_usecase.go:126-291,
 usecase/role_usecase.go:65-251, usecase/user_usecase.go:118-142,
 usecase/user_usecase.go:271-349).
 */
module PermissionUsecases {
  import opened Wrappers
  import opened PermissionState

  datatype Outcome = Done | Refused

  class Usecases {
    var st: Store

    constructor ()
      ensures st == Seeded()
    {
      st := Seeded();
    }

    /** Each key is looked up and matched with the scope, up to the first that does not fit. */
    method ValidatePermissionKeys(scope: Scope, keys: seq<Key>) returns (ok: bool)
      ensures ok <==> ValidKeys(scope, keys)
      ensures ok <==> forall i :: 0 <= i < |keys| ==>
                        keys[i] in (if scope.SystemScope? then SYSTEM_KEYS else ADMIN_KEYS)
    {
      AdminKeysAreNormal();
      SystemKeysAreSystem();
      for i := 0 to |keys|
        invariant forall j :: 0 <= j < i ==> IsKnownKey(keys[j]) && (IsSystemKey(keys[j]) <==> scope.SystemScope?)
      {
        if !IsKnownKey(keys[i]) {
          return false;
        }
        var isSystemKey := IsSystemKey(keys[i]);
        match scope {
          case NormalScope =>
            if isSystemKey {
              return false;
            }
          case SystemScope =>
            if !isSystemKey {
              return false;
            }
        }
      }
      ok := true;
    }

    /** No key may be granted that the caller lacks. */
    method RequireSubsetOfCaller(caller: UserId, g: GroupId, keys: set<Key>) returns (ok: bool)
      ensures ok <==> MayGrant(st, caller, g, keys)
    {
      var todo := keys;
      while todo != {}
        invariant todo <= keys
        invariant forall k :: k in keys && k !in todo ==> HasPermission(st, caller, g, k)
        decreases todo
      {
        var k :| k in todo;
        if !HasPermission(st, caller, g, k) {
          return false;
        }
        todo := todo - {k};
      }
      ok := true;
    }

    method AddGroupMember(caller: UserId, g: GroupId, user: UserId, r: RoleId) returns (out: Outcome)
      modifies this
      ensures out.Done? <==>
                Allowed(old(st), caller, Call.AddGroupMember(g, user, r)) && Accepted(old(st), InsertMember(g, user, r))
      ensures out.Done? <==>
                && Holds(old(st), caller, g, "group:members.manage")
                && g in old(st).groups && old(st).groups[g] != Personal && r in old(st).roles
                && (old(st).roles[r].scope == SystemScope <==> old(st).groups[g] == System)
                && OwnKeys(old(st), caller, g, old(st).roles[r].keys)
                && user in old(st).users && (g, user) !in old(st).members
      ensures st == if out.Done? then old(st).(members := old(st).members[(g, user) := r]) else old(st)
    {
      ManageMeans(st, caller, g);
      if !HasPermission(st, caller, g, "group:members.manage") {
        return Refused;
      }
      if g !in st.groups || st.groups[g] == Personal || r !in st.roles {
        return Refused;
      }
      if !Assignable(st.roles[r].scope, st.groups[g]) {
        return Refused;
      }
      GrantMeans(st, caller, g, st.roles[r].keys);
      var ok := RequireSubsetOfCaller(caller, g, st.roles[r].keys);
      if !ok {
        return Refused;
      }
      out := Run(InsertMember(g, user, r));
    }

    /** The system group's members are gone through for one who stays. */
    method RemoveGroupMember(caller: UserId, g: GroupId, user: UserId) returns (out: Outcome)
      modifies this
      ensures out.Done? <==> Allowed(old(st), caller, Call.RemoveGroupMember(g, user))
      ensures out.Done? <==>
                && g in old(st).groups && old(st).groups[g] != Personal
                && Holds(old(st), caller, g, "group:members.manage")
                && (old(st).groups[g] == System ==> exists m :: m in old(st).members && m.0 == g && m.1 != user)
      ensures st == if out.Done? then old(st).(members := old(st).members - {(g, user)}) else old(st)
    {
      if g !in st.groups || st.groups[g] == Personal {
        return Refused;
      }
      ManageMeans(st, caller, g);
      if !HasPermission(st, caller, g, "group:members.manage") {
        return Refused;
      }
      if st.groups[g] == System {
        var hasOther := false;
        var todo := set m | m in st.members && m.0 == g;
        while todo != {} && !hasOther
          invariant forall m :: m in todo ==> m in st.members && m.0 == g
          invariant hasOther ==> HasOtherMember(st, g, user)
          invariant !hasOther ==> forall m :: m in st.members && m.0 == g && m.1 != user ==> m in todo
          decreases |todo|
        {
          var m :| m in todo;
          if m.1 != user {
            hasOther := true;
          }
          todo := todo - {m};
        }
        if !hasOther {
          return Refused;
        }
      }
      out := Run(DeleteMember(g, user));
    }

    /** The checks of a change of role, in order. */
    method CheckMemberRole(caller: UserId, g: GroupId, user: UserId, r: RoleId) returns (ok: bool)
      ensures ok <==> Allowed(st, caller, Call.UpdateGroupMemberRole(g, user, r))
    {
      if g !in st.groups {
        return false;
      }
      if st.groups[g] == Personal {
        if !HasSystemPermission(st, caller, "system:group.manage") {
          return false;
        }
      } else if !HasPermission(st, caller, g, "group:members.manage") {
        return false;
      }
      if r !in st.roles || !Assignable(st.roles[r].scope, st.groups[g]) {
        return false;
      }
      ok := RequireSubsetOfCaller(caller, g, st.roles[r].keys);
      ok := ok && (g, user) in st.members;
    }

    method UpdateGroupMemberRole(caller: UserId, g: GroupId, user: UserId, r: RoleId) returns (out: Outcome)
      modifies this
      ensures out.Done? <==> Allowed(old(st), caller, Call.UpdateGroupMemberRole(g, user, r))
      ensures out.Done? <==> MayChangeMember(old(st), caller, g, user, r)
      ensures st == if out.Done? then old(st).(members := old(st).members[(g, user) := r]) else old(st)
    {
      MemberChangesMean(st, caller, g, user, r);
      var ok := CheckMemberRole(caller, g, user, r);
      if !ok {
        return Refused;
      }
      out := Run(SetMemberRole(g, user, r));
    }

    /** The checks of a creation, all made before anything is written. */
    method CheckCreate(caller: UserId, r: RoleId, group: Option<GroupId>, name: string, scope: Scope, keys: seq<Key>)
        returns (ok: bool)
      ensures ok <==> Allowed(st, caller, Call.CreateRole(r, group, name, scope, keys))
    {
      if name == "" {
        return false;
      }
      var valid := ValidatePermissionKeys(scope, keys);
      if !valid {
        return false;
      }
      if group.Some? {
        var g := group.value;
        if g !in st.groups || !Assignable(scope, st.groups[g])
          || !HasPermission(st, caller, g, "group:members.manage") {
          return false;
        }
        ok := RequireSubsetOfCaller(caller, g, Elements(keys));
      } else {
        ok := HasSystemPermission(st, caller, "system:role.manage");
      }
    }

    method CreateRole(caller: UserId, r: RoleId, group: Option<GroupId>, name: string, scope: Scope, keys: seq<Key>)
        returns (out: Outcome)
      modifies this
      ensures out.Done? <==> Allowed(old(st), caller, Call.CreateRole(r, group, name, scope, keys))
                             && Accepted(old(st), InsertRole(r, group, name, scope))
      ensures st == if out.Done? then
                old(st).(roles := old(st).roles[r := Role(group, name, scope, false, Elements(keys))]) else old(st)
    {
      var ok := CheckCreate(caller, r, group, name, scope, keys);
      if !ok {
        return Refused;
      }
      out := Run(InsertRole(r, group, name, scope));
      if out.Done? && keys != [] {
        ReplacePermissions(r, Elements(keys));
      }
      assert keys == [] ==> Elements(keys) == {};
      assert out.Done? ==> st.roles == old(st).roles[r := Role(group, name, scope, false, Elements(keys))];
    }

    /**
     The role's keys are read, the superfluous ones removed and the missing ones added, each by a
     statement of its own.
     */
    method ReplacePermissions(r: RoleId, wanted: set<Key>)
      requires r in st.roles && !st.roles[r].builtin
      modifies this
      ensures st == Write(old(st), ReplaceKeys(r, wanted))
    {
      var existing := st.roles[r].keys;
      var todo := existing - wanted;
      assert existing - (existing - wanted - todo) == existing && st == WithKeys(st, r, existing);
      while todo != {}
        invariant todo <= existing - wanted && st == WithKeys(old(st), r, existing - (existing - wanted - todo))
        decreases todo
      {
        var k :| k in todo;
        var done := Run(RemoveKey(r, k));
        assert existing - (existing - wanted - todo) - {k} == existing - (existing - wanted - (todo - {k}));
        todo := todo - {k};
      }
      todo := wanted - existing;
      assert existing - (existing - wanted - {}) == wanted - todo;
      while todo != {}
        invariant todo <= wanted - existing && st == WithKeys(old(st), r, wanted - todo)
        decreases todo
      {
        var k :| k in todo;
        var done := Run(AddKey(r, k));
        assert wanted - todo + {k} == wanted - (todo - {k});
        todo := todo - {k};
      }
      assert wanted - {} == wanted;
    }

    /** The checks of an update, all made before anything is written. */
    method CheckUpdate(caller: UserId, r: RoleId, newKeys: Option<seq<Key>>) returns (ok: bool)
      ensures ok <==> Allowed(st, caller, Call.UpdateRole(r, None, newKeys))
    {
      if r !in st.roles || st.roles[r].builtin {
        return false;
      }
      var role := st.roles[r];
      if newKeys.Some? {
        var valid := ValidatePermissionKeys(role.scope, newKeys.value);
        if !valid {
          return false;
        }
      }
      if !MayMutate(st, caller, role) {
        return false;
      }
      if newKeys.Some? && role.group.Some? {
        ok := RequireSubsetOfCaller(caller, role.group.value, Elements(newKeys.value));
      } else {
        ok := true;
      }
    }

    /** A name that is taken stops the update before the keys are touched. */
    method UpdateRole(caller: UserId, r: RoleId, newName: Option<string>, newKeys: Option<seq<Key>>)
        returns (out: Outcome)
      modifies this
      ensures out.Done? <==> Allowed(old(st), caller, Call.UpdateRole(r, newName, newKeys))
                             && !(newName.Some? && newName.value != old(st).roles[r].name
                                  && NameTaken(old(st), old(st).roles[r].group, newName.value, Some(r)))
      ensures out.Done? <==>
                && MayChangeRole(old(st), caller, r, newKeys)
                && !(newName.Some? && newName.value != old(st).roles[r].name
                     && NameTaken(old(st), old(st).roles[r].group, newName.value, Some(r)))
      ensures st == if out.Done? then
                      old(st).(roles := old(st).roles[r := old(st).roles[r].(
                                  name := if newName.Some? then newName.value else old(st).roles[r].name,
                                  keys := if newKeys.Some? then Elements(newKeys.value) else old(st).roles[r].keys)])
                    else old(st)
    {
      RoleChangesMean(st, caller, r, newName, newKeys);
      var ok := CheckUpdate(caller, r, newKeys);
      if !ok {
        return Refused;
      }
      ghost var was := st.roles[r];
      out := Done;
      if newName.Some? && newName.value != st.roles[r].name {
        out := Run(RenameRole(r, newName.value));
      }
      if out.Done? && newKeys.Some? {
        ReplacePermissions(r, Elements(newKeys.value));
      }
      assert out.Done? ==>
          st.roles == old(st).roles[r := was.(name := if newName.Some? then newName.value else was.name,
                                              keys := if newKeys.Some? then Elements(newKeys.value) else was.keys)];
    }

    method DeleteUser(caller: UserId, user: UserId) returns (out: Outcome)
      modifies this
      ensures out.Done? <==> Allowed(old(st), caller, Call.DeleteUser(user))
      ensures out.Done? <==>
                && caller != user && Gives(old(st), caller, "system", "system:user.delete")
                && user != "system" && user in old(st).users
      ensures out.Done? ==> user !in st.users && (forall g :: (g, user) !in st.members)
                            && st.groups == old(st).groups && st.roles == old(st).roles
                            && (forall m :: m in old(st).members && m.1 != user ==>
                                m in st.members && st.members[m] == old(st).members[m])
      ensures out.Refused? ==> st == old(st)
    {
      PermissionMeans(st, caller, "system", "system:user.delete");
      if caller == user {
        return Refused;
      }
      if !HasSystemPermission(st, caller, "system:user.delete") {
        return Refused;
      }
      if user == SYSTEM_USER || user !in st.users {
        return Refused;
      }
      out := Run(DropUser(user));
    }

    /**
     `valid` says that the token is found unexpired.  Everything or nothing: a refused registration
     leaves no user, no group, no membership and an unused token.
     */
    method RegisterWithToken(token: Token, user: UserId, valid: bool) returns (out: Outcome)
      modifies this
      ensures out.Done? <==> valid && token in old(st).tokens
                             && AllAccepted(old(st), Registration(user, token, old(st).tokens[token].role))
      ensures out.Refused? ==> st == old(st)
      ensures out.Done? ==>
                var g := PersonalGroup(user);
                var role := if old(st).tokens[token].role.Some? then old(st).tokens[token].role.value else SEED_ADMIN;
                && user !in old(st).users && g !in old(st).groups && !old(st).tokens[token].used
                && st == Store(old(st).groups[g := Personal], old(st).roles, old(st).members[(g, user) := role],
                               old(st).users + {user}, old(st).tokens[token := old(st).tokens[token].(used := true)])
    {
      if !valid || token !in st.tokens {
        return Refused;
      }
      var plan := Registration(user, token, st.tokens[token].role);
      ghost var before := st;
      var snapshot := st;
      for i := 0 to |plan|
        invariant st == WriteAll(before, plan[..i]) && AllAccepted(before, plan[..i])
      {
        Unroll(before, plan, i);
        if !Accepted(st, plan[i]) {
          st := snapshot;
          return Refused;
        }
        st := Write(st, plan[i]);
      }
      assert plan[..|plan|] == plan;
      RegistrationWrites(before, user, token, before.tokens[token].role);
      out := Done;
    }

    method Run(s: Statement) returns (out: Outcome)
      modifies this
      ensures out.Done? <==> Accepted(old(st), s)
      ensures st == Write(old(st), s)
    {
      if !Accepted(st, s) {
        return Refused;
      }
      st := Write(st, s);
      out := Done;
    }
  }
}
