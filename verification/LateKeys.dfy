/**
 A key that joins a role between the check and the write: a run from the seeded store in
 which a member gets a key in a group although the caller of the call that gives it did not hold the
 key when the call was checked (usecase/group_usecase.go:228-243).
 */
module LateKeys {
  import opened Wrappers
  import opened PermissionState
  import opened PermissionRuns
  import opened KeyGrants

  const TEAM: GroupId := "team"
  const MANAGER: RoleId := "m"
  const GUEST: RoleId := "r"
  const MANAGE: Key := "group:members.manage"
  const LATE: Key := "host:write"

  /** A group that the system user founded. */
  function WithTeam(): Store {
    WithSecondUser().(groups := WithSecondUser().groups[TEAM := Normal],
                      members := WithSecondUser().members[(TEAM, SYSTEM_USER) := SEED_ADMIN])
  }

  function TeamRole(name: string, keys: set<Key>): Role {
    Role(Some(TEAM), name, NormalScope, false, keys)
  }

  function WithManagerRole(keys: set<Key>): Store {
    WithTeam().(roles := WithTeam().roles[MANAGER := TeamRole("m", keys)])
  }

  function WithGuestRole(keys: set<Key>): Store {
    WithManagerRole({MANAGE}).(roles := WithManagerRole({MANAGE}).roles[GUEST := TeamRole("r", keys)])
  }

  /** The second user is in the team, with the one or the other role. */
  function WithMember(role: RoleId, keys: set<Key>): Store {
    WithGuestRole(keys).(members := WithTeam().members[(TEAM, SECOND) := role])
  }

  // ---------------------------------------------------------------- who may do what

  ghost predicate SystemUserRules(st: Store) {
    && SEED_SYSTEM_ADMIN in st.roles && st.roles[SEED_SYSTEM_ADMIN].keys == SYSTEM_KEYS
    && (SYSTEM_GROUP, SYSTEM_USER) in st.members && st.members[(SYSTEM_GROUP, SYSTEM_USER)] == SEED_SYSTEM_ADMIN
  }

  lemma SystemUserManages(st: Store)
    requires SystemUserRules(st)
    ensures Gives(st, SYSTEM_USER, "system", "system:group.manage")
    ensures forall g, k :: Holds(st, SYSTEM_USER, g, k)
  {
    assert "system:group.manage" in SYSTEM_KEYS;
  }

  lemma SystemUserMayFound(st: Store, g: GroupId)
    requires SystemUserRules(st)
    ensures Allowed(st, SYSTEM_USER, CreateGroup(g))
  {
    SystemUserManages(st);
    PermissionMeans(st, SYSTEM_USER, g, "system:group.manage");
  }

  lemma SystemUserMayCreate(st: Store, r: RoleId, name: string, keys: seq<Key>)
    requires SystemUserRules(st) && TEAM in st.groups && st.groups[TEAM] == Normal && name != ""
    requires forall i :: 0 <= i < |keys| ==> keys[i] in ADMIN_KEYS
    ensures Allowed(st, SYSTEM_USER, CreateRole(r, Some(TEAM), name, NormalScope, keys))
  {
    SystemUserManages(st);
    AdminKeysAreNormal();
    RoleCallsMean(st, SYSTEM_USER, r, Some(TEAM), name, NormalScope, keys);
  }

  lemma SystemUserMayChange(st: Store, r: RoleId, keys: seq<Key>)
    requires SystemUserRules(st) && r in st.roles && !st.roles[r].builtin && st.roles[r].scope == NormalScope
    requires st.roles[r].group == Some(TEAM) && forall i :: 0 <= i < |keys| ==> keys[i] in ADMIN_KEYS
    ensures Allowed(st, SYSTEM_USER, UpdateRole(r, None, Some(keys)))
  {
    SystemUserManages(st);
    AdminKeysAreNormal();
    RoleChangesMean(st, SYSTEM_USER, r, None, Some(keys));
  }

  lemma SystemUserMayAdd(st: Store, user: UserId, r: RoleId)
    requires SystemUserRules(st) && TEAM in st.groups && st.groups[TEAM] == Normal
    requires r in st.roles && st.roles[r].scope == NormalScope && forall k :: k in st.roles[r].keys ==> k in ADMIN_KEYS
    ensures Allowed(st, SYSTEM_USER, AddGroupMember(TEAM, user, r))
  {
    SystemUserManages(st);
    AdminKeysAreNormal();
    MemberCallsMean(st, SYSTEM_USER, TEAM, user, r);
  }

  lemma KeysAreKnown()
    ensures MANAGE in ADMIN_KEYS && LATE in ADMIN_KEYS && NormalKey(LATE)
  {
    NotSystemKey(LATE);
  }

  /** A member whose role manages members may move to any role of the team that has no keys. */
  lemma ManagerMayMove(st: Store, user: UserId, r: RoleId)
    requires TEAM in st.groups && st.groups[TEAM] == Normal && Gives(st, user, TEAM, MANAGE)
    requires r in st.roles && st.roles[r].scope == NormalScope && st.roles[r].keys == {}
    ensures Allowed(st, user, UpdateGroupMemberRole(TEAM, user, r))
  {
    MemberChangesMean(st, user, TEAM, user, r);
  }

  // ---------------------------------------------------------------- the run

  lemma ReadKeysReached(s: State, id: CallId, r: RoleId, k: Key) returns (s': State)
    requires Reached(s) && id in s.calls && s.calls[id].left == [ReplaceKeys(r, {k})]
    requires r in s.st.roles && s.st.roles[r].keys == {}
    ensures Reached(s') && s' == s.(calls := s.calls[id := s.calls[id].(left := [AddKey(r, k)])])
    ensures s' == Step(s, ReadKeys(id, [], [k]))
  {
    ReachStep(s, ReadKeys(id, [], [k]));
    s' := Step(s, ReadKeys(id, [], [k]));
    assert Elements([k]) == {k} && Elements([]) == {};
    assert [k][1..] == [] && KeyChanges(r, [], []) == [];
    assert KeyChanges(r, [], [k]) == [AddKey(r, k)];
    assert s'.calls[id].left == [AddKey(r, k)];
  }

  /** The other calls stand where they stood. */
  ghost predicate OneMoreCall(s: State, s': State, id: CallId) {
    s'.calls.Keys == s.calls.Keys + {id} && forall c :: c in s.calls && c != id ==> s'.calls[c] == s.calls[c]
  }

  ghost predicate TeamIsThere(st: Store) {
    SystemUserRules(st) && TEAM in st.groups && st.groups[TEAM] == Normal
  }

  /** The system user creates a role without keys in the team. */
  lemma EmptyRoleAdded(s: State, id: CallId, r: RoleId, name: string) returns (s': State)
    requires Reached(s) && id !in s.calls && TeamIsThere(s.st) && r !in s.st.roles && r !in s.scopes && name != ""
    requires forall x :: x in s.st.roles && s.st.roles[x].group == Some(TEAM) ==> s.st.roles[x].name != name
    ensures Reached(s') && OneMoreCall(s, s', id) && s'.scopes == s.scopes[r := NormalScope]
    ensures s'.st == s.st.(roles := s.st.roles[r := TeamRole(name, {})])
  {
    var insert := InsertRole(r, Some(TEAM), name, NormalScope);
    SystemUserMayCreate(s.st, r, name, []);
    s' := RequestReached(s, id, SYSTEM_USER, CreateRole(r, Some(TEAM), name, NormalScope, []));
    assert s'.calls[id].left == [insert] + [];
    InsertRoleMeans(s.st, r, Some(TEAM), name, NormalScope);
    s' := PerformReached(s', id, insert, []);
  }

  /** The system user gives such a role a key. */
  lemma KeyAdded(s: State, id: CallId, r: RoleId, k: Key) returns (s': State)
    requires Reached(s) && id !in s.calls && SystemUserRules(s.st) && k in ADMIN_KEYS
    requires r in s.st.roles && s.st.roles[r].group == Some(TEAM) && s.st.roles[r].keys == {}
    requires !s.st.roles[r].builtin && s.st.roles[r].scope == NormalScope
    ensures Reached(s') && OneMoreCall(s, s', id) && s'.scopes == s.scopes
    ensures s'.st == WithKeys(s.st, r, {k})
    ensures s' == Step(Step(Step(s, Request(id, SYSTEM_USER, UpdateRole(r, None, Some([k])))), ReadKeys(id, [], [k])),
                       Perform(id))
  {
    SystemUserMayChange(s.st, r, [k]);
    assert Elements([k]) == {k};
    s' := RequestReached(s, id, SYSTEM_USER, UpdateRole(r, None, Some([k])));
    assert s'.calls[id].left == [ReplaceKeys(r, {k})];
    s' := ReadKeysReached(s', id, r, k);
    assert s'.calls[id].left == [AddKey(r, k)] + [];
    assert {} + {k} == {k};
    s' := PerformReached(s', id, AddKey(r, k), []);
  }

  lemma TeamReached() returns (s: State)
    ensures Reached(s) && s.st == WithTeam() && s.calls.Keys == {10, 20} && s.scopes == Init().scopes
  {
    s := SecondUserReached();
    var insert, join := InsertGroup(TEAM, Normal), InsertMember(TEAM, SYSTEM_USER, SEED_ADMIN);
    PersonalIsNotSystem(SECOND);
    SystemUserMayFound(s.st, TEAM);
    s := RequestReached(s, 20, SYSTEM_USER, CreateGroup(TEAM));
    assert s.calls[20].left == [insert] + [join];
    assert TEAM !in s.st.groups && (TEAM, SYSTEM_USER) !in s.st.members;
    s := PerformReached(s, 20, insert, [join]);
    assert [join] == [join] + [];
    s := PerformReached(s, 20, join, []);
  }

  lemma ManagerRoleReached() returns (s: State)
    ensures Reached(s) && s.st == WithManagerRole({}) && s.calls.Keys == {10, 20, 21}
    ensures s.scopes == Init().scopes[MANAGER := NormalScope]
  {
    s := TeamReached();
    SeededRolesAreGlobal();
    s := EmptyRoleAdded(s, 21, MANAGER, "m");
  }

  lemma ManagerRoleFacts()
    ensures var st := WithManagerRole({});
            && TeamIsThere(st) && MANAGER in st.roles && st.roles[MANAGER] == TeamRole("m", {})
            && WithKeys(st, MANAGER, {MANAGE}) == WithManagerRole({MANAGE})
  {
    SeededRolesAreGlobal();
    assert WithKeys(WithManagerRole({}), MANAGER, {MANAGE}).roles == WithManagerRole({MANAGE}).roles;
  }

  lemma ManagerKeyReached() returns (s: State)
    ensures Reached(s) && s.st == WithManagerRole({MANAGE}) && s.calls.Keys == {10, 20, 21, 22}
    ensures s.scopes == Init().scopes[MANAGER := NormalScope]
  {
    s := ManagerRoleReached();
    KeysAreKnown();
    ManagerRoleFacts();
    s := KeyAdded(s, 22, MANAGER, MANAGE);
  }

  lemma RolesReached() returns (s: State)
    ensures Reached(s) && s.st == WithGuestRole({}) && s.calls.Keys == {10, 20, 21, 22, 23}
  {
    s := ManagerKeyReached();
    SeededRolesAreGlobal();
    s := EmptyRoleAdded(s, 23, GUEST, "r");
  }

  lemma SeededRolesAreGlobal()
    ensures MANAGER !in Seeded().roles && GUEST !in Seeded().roles && MANAGER != GUEST
    ensures forall x :: x in Seeded().roles ==> Seeded().roles[x].group == None
    ensures Init().scopes.Keys == Seeded().roles.Keys && WithTeam().roles == Seeded().roles && TeamIsThere(WithTeam())
  {
    PersonalIsNotSystem(SECOND);
  }

  /** The team's second member manages it and holds nothing else in it. */
  lemma MemberReached() returns (s: State)
    ensures Reached(s) && s.st == WithMember(MANAGER, {}) && s.calls.Keys == {10, 20, 21, 22, 23, 24}
  {
    s := RolesReached();
    var join := InsertMember(TEAM, SECOND, MANAGER);
    KeysAreKnown();
    GuestRoleFacts({});
    SystemUserMayAdd(s.st, SECOND, MANAGER);
    s := RequestReached(s, 24, SYSTEM_USER, AddGroupMember(TEAM, SECOND, MANAGER));
    assert s.calls[24].left == [join] + [];
    s := PerformReached(s, 24, join, []);
  }

  lemma GuestRoleFacts(keys: set<Key>)
    ensures var st := WithGuestRole(keys);
            && TeamIsThere(st) && MANAGER in st.roles && st.roles[MANAGER] == TeamRole("m", {MANAGE})
            && GUEST in st.roles && st.roles[GUEST] == TeamRole("r", keys)
            && SECOND in st.users && (TEAM, SECOND) !in st.members && (SYSTEM_GROUP, SECOND) !in st.members
  {
    PersonalIsNotSystem(SECOND);
    SeededRolesAreGlobal();
  }

  lemma MemberFacts()
    ensures var st := WithMember(MANAGER, {});
            && TeamIsThere(st) && GUEST in st.roles && st.roles[GUEST] == TeamRole("r", {})
            && Gives(st, SECOND, TEAM, MANAGE) && !Holds(st, SECOND, TEAM, LATE)
  {
    GuestRoleFacts({});
  }

  lemma Then(acts: seq<Action>, a: Action, id: CallId)
    ensures Exec(Init(), acts + [a]) == Step(Exec(Init(), acts), a)
    ensures CheckOf(acts + [a], id) == if Starts(Exec(Init(), acts), a, id) then
              Some(Check(a.caller, a.call, Exec(Init(), acts).st))
                                       else CheckOf(acts, id)
  {
    assert (acts + [a])[..|acts + [a]| - 1] == acts;
  }

  lemma ThenKey(acts: seq<Action>, s: State)
    requires Exec(Init(), acts) == s
    ensures var more := acts + [Request(26, SYSTEM_USER, UpdateRole(GUEST, None, Some([LATE])))]
            + [ReadKeys(26, [], [LATE])]
                        + [Perform(26)];
            && Exec(Init(), more) == Step(Step(Step(s, Request(26, SYSTEM_USER, UpdateRole(GUEST, None, Some([LATE])))),
                                               ReadKeys(26, [], [LATE])), Perform(26))
            && CheckOf(more, 25) == CheckOf(acts, 25)
  {
    var a1 := acts + [Request(26, SYSTEM_USER, UpdateRole(GUEST, None, Some([LATE])))];
    Then(acts, Request(26, SYSTEM_USER, UpdateRole(GUEST, None, Some([LATE]))), 25);
    Then(a1, ReadKeys(26, [], [LATE]), 25);
    Then(a1 + [ReadKeys(26, [], [LATE])], Perform(26), 25);
  }

  /** The second user asks to move to the role while it has no keys; ... */
  lemma MoveRequested() returns (acts: seq<Action>)
    ensures var s := Exec(Init(), acts);
            && Reached(s) && s.st == WithMember(MANAGER, {}) && 26 !in s.calls
            && 25 in s.calls && s.calls[25].left == [SetMemberRole(TEAM, SECOND, GUEST)]
    ensures CheckOf(acts, 25)
            == Some(Check(SECOND, UpdateGroupMemberRole(TEAM, SECOND, GUEST), WithMember(MANAGER, {})))
  {
    var s0 := MemberReached();
    MemberFacts();
    ManagerMayMove(s0.st, SECOND, GUEST);
    var move := UpdateGroupMemberRole(TEAM, SECOND, GUEST);
    var s1 := RequestReached(s0, 25, SECOND, move);
    var before :| Exec(Init(), before) == s0;
    Then(before, Request(25, SECOND, move), 25);
    acts := before + [Request(25, SECOND, move)];
  }

  /** ... then the system user adds one; then the move is written. */
  lemma LateKeyIsGiven() returns (acts: seq<Action>)
    ensures NormalKey(LATE) && Gains(Exec(Init(), acts), Perform(25), SECOND, TEAM, LATE)
    ensures var c := CheckOf(acts, 25);
            c.Some? && c.value.caller == SECOND && c.value.call.UpdateGroupMemberRole? && !Backed(c.value, TEAM, LATE)
  {
    var before := MoveRequested();
    var s1 := Exec(Init(), before);
    KeysAreKnown();
    MemberFacts();
    var s2 := KeyAdded(s1, 26, GUEST, LATE);
    LateMove(s2);
    ThenKey(before, s1);
    acts := before + [Request(26, SYSTEM_USER, UpdateRole(GUEST, None, Some([LATE])))] + [ReadKeys(26, [], [LATE])]
            + [Perform(26)];
  }

  lemma LateMove(s: State)
    requires 25 in s.calls && s.calls[25].left == [SetMemberRole(TEAM, SECOND, GUEST)]
    requires s.st == WithKeys(WithMember(MANAGER, {}), GUEST, {LATE})
    ensures Gains(s, Perform(25), SECOND, TEAM, LATE)
  {
    GuestRoleFacts({});
    assert LATE != MANAGE;
    assert Step(s, Perform(25)).st == s.st.(members := s.st.members[(TEAM, SECOND) := GUEST]);
  }
}
