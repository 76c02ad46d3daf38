/**
 Who holds the system keys.  RemoveGroupMember protects the last member of the system
 group so that the system:* permissions keep a holder (usecase/group_usecase.go:178-199).
 A member need not hold a key, though: for every statement and every key, this module
 says exactly when someone still holds it afterwards, and so for every run of
 interleaved calls.
 */
module SystemKeyHolders {
  import opened Wrappers
  import opened PermissionState
  import opened PermissionRuns

  /** Someone holds the key. */
  ghost predicate Held(st: Store, k: Key) {
    exists user :: HasSystemPermission(st, user, k)
  }

  predicate HasSystemRole(st: Store, user: UserId, r: RoleId) {
    (SYSTEM_GROUP, user) in st.members && st.members[(SYSTEM_GROUP, user)] == r
  }

  /** The statement leaves the user's membership of the system group, and whether the role there has the key, alone. */
  predicate Spares(st: Store, x: Statement, user: UserId, k: Key) {
    match x
    case DeleteMember(g, user') => !(g == SYSTEM_GROUP && user' == user)
    case SetMemberRole(g, user', _) => !(g == SYSTEM_GROUP && user' == user)
    case DropUser(user') => user' != user
    case ReplaceKeys(r, _) => !HasSystemRole(st, user, r)
    case RemoveKey(r, k') => k' != k || !HasSystemRole(st, user, r)
    case AddKey(r, k') => k' != k || !HasSystemRole(st, user, r)
    case _ => true
  }

  /** The statement gives the key to a member of the system group: with a role, or with the role's new keys. */
  ghost predicate Grants(st: Store, x: Statement, k: Key) {
    match x
    case InsertMember(g, _, r) => g == SYSTEM_GROUP && r in st.roles && k in st.roles[r].keys
    case SetMemberRole(g, user, r) => g == SYSTEM_GROUP && (g, user) in st.members && r in st.roles
      && k in st.roles[r].keys
    case ReplaceKeys(r, keys) => k in keys && exists user :: HasSystemRole(st, user, r)
    case AddKey(r, k') => k' == k && exists user :: HasSystemRole(st, user, r)
    case _ => false
  }

  /** Someone whom the statement spares holds the key, or the statement grants it. */
  ghost predicate Keeps(st: Store, x: Statement, k: Key) {
    (exists user :: HasSystemPermission(st, user, k) && Spares(st, x, user, k)) || Grants(st, x, k)
  }

  /** A user the statement spares holds what it held. */
  lemma SparedHoldsTheSame(scopes: map<RoleId, Scope>, st: Store, x: Statement, user: UserId, k: Key)
    requires StoreOk(scopes, st) && Safe(scopes, x) && Accepted(st, x) && Spares(st, x, user, k)
    requires !(x.InsertMember? && x.g == SYSTEM_GROUP && x.user == user)
    ensures HasSystemPermission(Write(st, x), user, k) <==> HasSystemPermission(st, user, k)
  {
    if x.DropGroup? || x.DropRole? {
      DropSparesUsedRoles(scopes, st, x, user, k);
    }
  }

  /** A role that goes away is nobody's in the system group. */
  lemma DropSparesUsedRoles(scopes: map<RoleId, Scope>, st: Store, x: Statement, user: UserId, k: Key)
    requires StoreOk(scopes, st) && Safe(scopes, x) && Accepted(st, x) && (x.DropGroup? || x.DropRole?)
    ensures HasSystemPermission(Write(st, x), user, k) <==> HasSystemPermission(st, user, k)
  {
    if (SYSTEM_GROUP, user) in st.members {
      var r := st.members[(SYSTEM_GROUP, user)];
      if x.DropGroup? {
        assert r in RolesOf(st, x.g) ==> InUse(st, r, Some(x.g));
      } else {
        assert r == x.role ==> InUse(st, r, None);
      }
    }
  }

  /** A user it does not spare, or lets in, holds exactly what it grants. */
  lemma ChangedHoldsTheGrant(st: Store, x: Statement, user: UserId, k: Key)
    requires Accepted(st, x) && (!Spares(st, x, user, k) || (x.InsertMember? && x.g == SYSTEM_GROUP && x.user == user))
    ensures HasSystemPermission(Write(st, x), user, k) ==> Grants(st, x, k)
  {
  }

  lemma GrantIsHeld(st: Store, x: Statement, k: Key)
    requires Accepted(st, x) && Grants(st, x, k)
    ensures Held(Write(st, x), k)
  {
    var user := if x.ReplaceKeys? || x.AddKey? then var u :| HasSystemRole(st, u, x.role); u else x.user;
    assert HasSystemPermission(Write(st, x), user, k);
  }

  /** For every statement and every key: someone holds the key afterwards exactly when it is kept. */
  lemma HeldIffKept(scopes: map<RoleId, Scope>, st: Store, x: Statement, k: Key)
    requires StoreOk(scopes, st) && Safe(scopes, x) && Accepted(st, x)
    ensures Held(Write(st, x), k) <==> Keeps(st, x, k)
  {
    if Held(Write(st, x), k) {
      var user :| HasSystemPermission(Write(st, x), user, k);
      if !Spares(st, x, user, k) || (x.InsertMember? && x.g == SYSTEM_GROUP && x.user == user) {
        ChangedHoldsTheGrant(st, x, user, k);
      } else {
        SparedHoldsTheSame(scopes, st, x, user, k);
      }
    }
    if Keeps(st, x, k) {
      if Grants(st, x, k) {
        GrantIsHeld(st, x, k);
      } else {
        var user :| HasSystemPermission(st, user, k) && Spares(st, x, user, k);
        SparedHoldsTheSame(scopes, st, x, user, k);
        assert HasSystemPermission(Write(st, x), user, k);
      }
    }
  }

  // ---------------------------------------------------------------- over whole runs

  /** The step writes a statement that neither spares a holder of the key nor grants it. */
  ghost predicate Loses(s: State, a: Action, k: Key) {
    a.Perform? && MayPerform(s, a.id) &&
    Accepted(s.st, s.calls[a.id].left[0]) && !Keeps(s.st, s.calls[a.id].left[0], k)
  }

  lemma {:induction false} RegistrationKeepsHolder(scopes: map<RoleId, Scope>, st: Store, plan: seq<Statement>,
                                                   user: UserId, k: Key)
    requires StoreOk(scopes, st) && AllSafe(scopes, plan) && HasSystemPermission(st, user, k)
    requires forall i :: 0 <= i < |plan| ==>
               plan[i].InsertUser? || plan[i].InsertGroup? || plan[i].InsertMember? || plan[i].UseToken?
    ensures HasSystemPermission(WriteAll(st, plan), user, k)
    decreases |plan|
  {
    if plan != [] && Accepted(st, plan[0]) {
      SparedHoldsTheSame(scopes, st, plan[0], user, k);
      WriteKeepsOk(scopes, st, plan[0]);
      RegistrationKeepsHolder(scopes, Write(st, plan[0]), plan[1..], user, k);
    }
  }

  lemma StepHeldIff(s: State, a: Action, k: Key)
    requires Inv(s) && Held(s.st, k)
    ensures Held(Step(s, a).st, k) <==> !Loses(s, a, k)
  {
    match a
    case Perform(id) =>
      if MayPerform(s, id) {
        assert Safe(s.scopes, s.calls[id].left[0]);
        if Accepted(s.st, s.calls[id].left[0]) {
          HeldIffKept(s.scopes, s.st, s.calls[id].left[0], k);
        }
      }
    case Register(id) =>
      if id in s.registering {
        RegisterKeepsHolder(s, s.registering[id], k);
      }
    case _ =>
  }

  lemma RegisterKeepsHolder(s: State, r: Registering, k: Key)
    requires Inv(s) && NormalRole(s.scopes, r.role) && Held(s.st, k)
    ensures Held(WriteTx(s.st, Registration(r.user, r.token, r.role)), k)
  {
    var user :| HasSystemPermission(s.st, user, k);
    PersonalIsNotSystem(r.user);
    var plan := Registration(r.user, r.token, r.role);
    assert AllSafe(s.scopes, plan);
    RegistrationKeepsHolder(s.scopes, s.st, plan, user, k);
  }

  /** After every step of the run, from its beginning on. */
  ghost predicate AlwaysHeld(acts: seq<Action>, k: Key)
    decreases |acts|
  {
    Held(Exec(Init(), acts).st, k) && (acts != [] ==> AlwaysHeld(acts[..|acts| - 1], k))
  }

  /** At every step of the run. */
  ghost predicate NeverLoses(acts: seq<Action>, k: Key)
    decreases |acts|
  {
    acts != [] ==> NeverLoses(acts[..|acts| - 1], k) && !Loses(Exec(Init(), acts[..|acts| - 1]), acts[|acts| - 1], k)
  }

  /**
   In every run, a system key has a holder all the time exactly when every statement
   that takes it from a member spares another holder or grants it anew.
   */
  lemma {:induction false} AlwaysHeldIff(acts: seq<Action>, k: Key)
    requires k in SYSTEM_KEYS
    ensures AlwaysHeld(acts, k) <==> NeverLoses(acts, k)
    decreases |acts|
  {
    if acts == [] {
      SystemUserHolds(Init().st, k);
    } else {
      var before := acts[..|acts| - 1];
      AlwaysHeldIff(before, k);
      RunInv(before);
      if Held(Exec(Init(), before).st, k) {
        StepHeldIff(Exec(Init(), before), acts[|acts| - 1], k);
      }
    }
  }

  // ---------------------------------------------------------------- the checks do not see to that

  /** The store with one more global role, which has no keys. */
  function WithEmptyRole(st: Store, r: RoleId, name: string): Store {
    st.(roles := st.roles[r := Role(None, name, SystemScope, false, {})])
  }

  /** And with the system group's member moved to it. */
  function WithKeyless(st: Store, user: UserId, r: RoleId, name: string): Store {
    WithEmptyRole(st, r, name).(members := st.members[(SYSTEM_GROUP, user) := r])
  }

  /** One manager, who is the system group's only member. */
  ghost predicate SoleManager(st: Store, user: UserId) {
    && SYSTEM_GROUP in st.groups && st.groups[SYSTEM_GROUP].System?
    && (forall m :: m in st.members && m.0 == SYSTEM_GROUP <==> m == (SYSTEM_GROUP, user))
    && HasSystemPermission(st, user, "system:role.manage") && HasSystemPermission(st, user, "system:group.manage")
  }

  lemma MayCreateEmptyRole(st: Store, user: UserId, r: RoleId, name: string)
    requires SoleManager(st, user) && r !in st.roles && name != "" && !NameTaken(st, None, name, None)
    ensures var insert := InsertRole(r, None, name, SystemScope);
            && Allowed(st, user, CreateRole(r, None, name, SystemScope, []))
            && Plan(st, user, CreateRole(r, None, name, SystemScope, [])) == [insert]
            && Accepted(st, insert) && Write(st, insert) == WithEmptyRole(st, r, name)
  {
  }

  lemma MayMoveToIt(st: Store, user: UserId, r: RoleId, name: string)
    requires SoleManager(st, user) && r !in st.roles
    ensures var st1, assign := WithEmptyRole(st, r, name), SetMemberRole(SYSTEM_GROUP, user, r);
            && Allowed(st1, user, UpdateGroupMemberRole(SYSTEM_GROUP, user, r))
            && Plan(st1, user, UpdateGroupMemberRole(SYSTEM_GROUP, user, r)) == [assign]
            && Accepted(st1, assign) && Write(st1, assign) == WithKeyless(st, user, r, name)
  {
    NotSystemKey("group:members.manage");
    assert (SYSTEM_GROUP, user) in st.members;
  }

  lemma KeylessHoldsNothing(st: Store, user: UserId, r: RoleId, name: string)
    requires SoleManager(st, user) && r !in st.roles
    ensures var st2 := WithKeyless(st, user, r, name); SystemGroupHasMember(st2) && forall k :: !Held(st2, k)
  {
    var st2 := WithKeyless(st, user, r, name);
    assert (SYSTEM_GROUP, user) in st2.members;
    forall u, k
      ensures !HasSystemPermission(st2, u, k)
    {
      assert (SYSTEM_GROUP, u) in st2.members ==> (SYSTEM_GROUP, u) in st.members;
    }
  }

  lemma WriteOne(st: Store, x: Statement)
    requires Accepted(st, x)
    ensures WriteAll(st, [x]) == Write(st, x)
  {
  }

  /** The seeded system user may create a role without keys and move to it. */
  lemma SoleMemberCanLoseItsKeys(st: Store, user: UserId, r: RoleId, name: string)
    requires SYSTEM_GROUP in st.groups && st.groups[SYSTEM_GROUP].System?
    requires r !in st.roles && name != "" && !NameTaken(st, None, name, None)
    requires forall m :: m in st.members && m.0 == SYSTEM_GROUP <==> m == (SYSTEM_GROUP, user)
    requires HasSystemPermission(st, user, "system:role.manage") && HasSystemPermission(st, user, "system:group.manage")
    ensures var role, move := CreateRole(r, None, name, SystemScope, []), UpdateGroupMemberRole(SYSTEM_GROUP, user, r);
            var st1 := WriteAll(st, Plan(st, user, role));
            var st2 := WriteAll(st1, Plan(st1, user, move));
            && Allowed(st, user, role) && Allowed(st1, user, move)
            && SystemGroupHasMember(st2) && forall k :: !Held(st2, k)
  {
    MayCreateEmptyRole(st, user, r, name);
    WriteOne(st, InsertRole(r, None, name, SystemScope));
    MayMoveToIt(st, user, r, name);
    WriteOne(WithEmptyRole(st, r, name), SetMemberRole(SYSTEM_GROUP, user, r));
    KeylessHoldsNothing(st, user, r, name);
  }

  lemma SeededManager()
    ensures SoleManager(Seeded(), SYSTEM_USER)
  {
    SystemUserHolds(Seeded(), "system:role.manage");
    SystemUserHolds(Seeded(), "system:group.manage");
  }

  lemma EmptyRoleReached(r: RoleId, name: string) returns (s: State)
    requires r !in Seeded().roles && name != "" && !NameTaken(Seeded(), None, name, None)
    ensures Reached(s) && s.st == WithEmptyRole(Seeded(), r, name) && 2 !in s.calls
  {
    var role, insert := CreateRole(r, None, name, SystemScope, []), InsertRole(r, None, name, SystemScope);
    SeededManager();
    MayCreateEmptyRole(Seeded(), SYSTEM_USER, r, name);
    assert Exec(Init(), []) == Init();
    s := RequestReached(Init(), 1, SYSTEM_USER, role);
    assert s.calls[1].left == [insert] + [];
    s := PerformReached(s, 1, insert, []);
  }

  /** So in some run of the seeded controller nobody holds any system key. */
  lemma KeysCanBeLost() returns (acts: seq<Action>)
    ensures SystemGroupHasMember(Exec(Init(), acts).st) && forall k :: !Held(Exec(Init(), acts).st, k)
  {
    var r, name := "r", "empty";
    var move, assign := UpdateGroupMemberRole(SYSTEM_GROUP, SYSTEM_USER, r),
      SetMemberRole(SYSTEM_GROUP, SYSTEM_USER, r);
    var s := EmptyRoleReached(r, name);
    SeededManager();
    MayMoveToIt(Seeded(), SYSTEM_USER, r, name);
    s := RequestReached(s, 2, SYSTEM_USER, move);
    assert s.calls[2].left == [assign] + [];
    s := PerformReached(s, 2, assign, []);
    KeylessHoldsNothing(Seeded(), SYSTEM_USER, r, name);
    acts :| Exec(Init(), acts) == s;
  }

  /** A holder may leave while a member without keys stays, and may empty the role that gives the keys. */
  lemma HolderCanLeaveOrEmptyItsRole(st: Store, user: UserId, other: UserId)
    requires SYSTEM_GROUP in st.groups && st.groups[SYSTEM_GROUP].System? && user != other
    requires (SYSTEM_GROUP, user) in st.members && (SYSTEM_GROUP, other) in st.members
    requires HasSystemPermission(st, user, "system:group.manage") && HasSystemPermission(st, user, "system:role.manage")
    requires forall u, k :: HasSystemPermission(st, u, k) ==> u == user
    ensures var leave := RemoveGroupMember(SYSTEM_GROUP, user);
            Allowed(st, user, leave) && forall k :: !Held(WriteAll(st, Plan(st, user, leave)), k)
    ensures var r := st.members[(SYSTEM_GROUP, user)];
            var empty := UpdateRole(r, None, Some([]));
            st.roles[r].group.None? && !st.roles[r].builtin ==>
              Allowed(st, user, empty) && forall k :: !Held(WriteAll(st, Plan(st, user, empty)), k)
  {
    NotSystemKey("group:members.manage");
    var r := st.members[(SYSTEM_GROUP, user)];
    assert Elements([]) == {};
    var st1 := Write(st, DeleteMember(SYSTEM_GROUP, user));
    forall u, k
      ensures !HasSystemPermission(st1, u, k)
    {
      assert HasSystemPermission(st1, u, k) ==> HasSystemPermission(st, u, k);
    }
    if st.roles[r].group.None? && !st.roles[r].builtin {
      var st2 := Write(st, ReplaceKeys(r, {}));
      forall u, k
        ensures !HasSystemPermission(st2, u, k)
      {
        assert HasSystemPermission(st2, u, k) ==> HasSystemPermission(st, u, k);
      }
    }
  }
}
