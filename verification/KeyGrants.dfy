/**
 Where keys come from.  A call may hand out no key that its caller lacks
 (usecase/group_usecase.go:149-154, usecase/role_usecase.go:94-101,
 usecase/role_usecase.go:163-167), but it checks that before it writes.  For every step of
 every run of interleaved calls, this module says which call gives a user a key in a
 group, and what its caller held when that call was checked.
 */
module KeyGrants {
  import opened Wrappers
  import opened PermissionState
  import opened PermissionRuns

  // ---------------------------------------------------------------- what a call saw

  /** A call and the store it was checked in. */
  datatype Check = Check(caller: UserId, call: Call, st: Store)

  predicate Starts(s: State, a: Action, id: CallId) {
    a.Request? && a.id == id && id !in s.calls && Allowed(s.st, a.caller, a.call) && FreshId(s, a.call)
  }

  /** The check behind the call with this number. */
  function CheckOf(acts: seq<Action>, id: CallId): Option<Check>
    decreases |acts|
  {
    if acts == [] then None
    else
      var s, a := Exec(Init(), acts[..|acts| - 1]), acts[|acts| - 1];
      if Starts(s, a, id) then Some(Check(a.caller, a.call, s.st)) else CheckOf(acts[..|acts| - 1], id)
  }

  /** The statement is one the call issues. */
  predicate FromCall(c: Check, x: Statement) {
    match x
    case InsertMember(g, u, r) =>
      || c.call == AddGroupMember(g, u, r)
      || (c.call == CreateGroup(g) && u == c.caller)
      || (c.call.CreateUser? && c.call.user == u && g == PersonalGroup(u))
    case SetMemberRole(g, u, r) => c.call == UpdateGroupMemberRole(g, u, r)
    case ReplaceKeys(r, keys) => ChangesKeys(c.call, r) && keys == WantedKeys(c.call)
    case AddKey(r, k) => ChangesKeys(c.call, r) && k in WantedKeys(c.call)
    case _ => true
  }

  predicate ChangesKeys(call: Call, r: RoleId) {
    (call.CreateRole? && call.roleId == r) || (call.UpdateRole? && call.roleId == r && call.newKeys.Some?)
  }

  function WantedKeys(call: Call): set<Key> {
    if call.CreateRole? then Elements(call.keys)
    else if call.UpdateRole? && call.newKeys.Some? then Elements(call.newKeys.value) else {}
  }

  lemma PlanIsFromCall(st: Store, caller: UserId, call: Call)
    ensures forall x :: x in Plan(st, caller, call) ==> FromCall(Check(caller, call, st), x)
  {
  }

  lemma ChangesAreFromCall(c: Check, r: RoleId, removed: seq<Key>, added: seq<Key>)
    requires ChangesKeys(c.call, r) && Elements(added) <= WantedKeys(c.call)
    ensures forall x :: x in KeyChanges(r, removed, added) ==> FromCall(c, x)
  {
    assert forall k :: k in added ==> k in Elements(added);
  }

  ghost predicate Traced(s: State, acts: seq<Action>, id: CallId)
    requires id in s.calls
  {
    && CheckOf(acts, id).Some?
    && Allowed(CheckOf(acts, id).value.st, CheckOf(acts, id).value.caller, CheckOf(acts, id).value.call)
    && forall x :: x in s.calls[id].left ==> FromCall(CheckOf(acts, id).value, x)
  }

  lemma TracedStep(acts: seq<Action>, id: CallId)
    requires acts != [] && id in Exec(Init(), acts).calls
    requires var before := acts[..|acts| - 1];
             id in Exec(Init(), before).calls ==> Traced(Exec(Init(), before), before, id)
    ensures Traced(Exec(Init(), acts), acts, id)
  {
    var before, a := acts[..|acts| - 1], acts[|acts| - 1];
    var s, s' := Exec(Init(), before), Exec(Init(), acts);
    if id !in s.calls {
      assert Starts(s, a, id);
      PlanIsFromCall(s.st, a.caller, a.call);
    } else if a.Perform? && a.id == id && MayPerform(s, id) {
      assert forall x :: x in s'.calls[id].left ==> x in s.calls[id].left;
    } else if a.ReadKeys? && a.id == id && MayReadKeys(s, id, a.removed, a.added) {
      var x := s.calls[id].left[0];
      assert x in s.calls[id].left;
      ChangesAreFromCall(CheckOf(before, id).value, x.role, a.removed, a.added);
    }
  }

  /** In every run, what a call has still to issue comes from the call as it was checked. */
  lemma {:induction false} CallsAreTraced(acts: seq<Action>, id: CallId)
    requires id in Exec(Init(), acts).calls
    ensures Traced(Exec(Init(), acts), acts, id)
    decreases |acts|
  {
    if acts != [] {
      if id in Exec(Init(), acts[..|acts| - 1]).calls {
        CallsAreTraced(acts[..|acts| - 1], id);
      }
      TracedStep(acts, id);
    }
  }

  // ---------------------------------------------------------------- which step gives a key

  /** The step gives the user the key in the group. */
  predicate Gains(s: State, a: Action, u: UserId, g: GroupId, k: Key) {
    !Gives(s.st, u, g, k) && Gives(Step(s, a).st, u, g, k)
  }

  /**
   A statement gives the key by making the user a member or moving it to a role that has the key,
   or by adding it to the role.
   */
  lemma GainingStatement(st: Store, x: Statement, u: UserId, g: GroupId, k: Key)
    requires !Gives(st, u, g, k) && Gives(Write(st, x), u, g, k) && !x.ReplaceKeys?
    ensures || (x.InsertMember? && x.g == g && x.user == u && x.role in st.roles && k in st.roles[x.role].keys)
            || (x.SetMemberRole? && x.g == g && x.user == u && x.role in st.roles && k in st.roles[x.role].keys)
            || (x.AddKey? && x.key == k && (g, u) in st.members && st.members[(g, u)] == x.role)
            || x.InsertRole?
  {
  }

  /** A new role is nobody's and has no keys. */
  lemma NewRoleGivesNothing(st: Store, x: Statement, u: UserId, g: GroupId, k: Key)
    requires x.InsertRole? && !Gives(st, u, g, k)
    ensures !Gives(Write(st, x), u, g, k)
  {
  }

  /** What the check found of the caller: the key is its own in the group. */
  predicate Backed(c: Check, g: GroupId, k: Key) {
    Holds(c.st, c.caller, g, k)
  }

  /** The role had the key when the call was checked. */
  predicate HadKey(c: Check, r: RoleId, k: Key) {
    r in c.st.roles && k in c.st.roles[r].keys
  }

  predicate NormalKey(k: Key) {
    k != "" && !IsSystemKey(k)
  }

  /** A membership was given: each key the role had at the check is the caller's own. */
  lemma MembershipIsBacked(c: Check, g: GroupId, r: RoleId, u: UserId, k: Key)
    requires Allowed(c.st, c.caller, c.call) && NormalKey(k) && HadKey(c, r, k)
    requires c.call == AddGroupMember(g, u, r) || c.call == UpdateGroupMemberRole(g, u, r)
    ensures Backed(c, g, k)
  {
    GrantMeans(c.st, c.caller, g, c.st.roles[r].keys);
  }

  /** The group of the role the call changes, None for a global role. */
  function GroupOf(c: Check): Option<GroupId> {
    if c.call.CreateRole? then c.call.group
    else if c.call.UpdateRole? && c.call.roleId in c.st.roles then c.st.roles[c.call.roleId].group else None
  }

  /** A key was put into a role: it is the caller's own in the role's group, or the caller manages the global roles. */
  lemma KeyIsBacked(c: Check, r: RoleId, k: Key)
    requires Allowed(c.st, c.caller, c.call) && NormalKey(k) && ChangesKeys(c.call, r) && k in WantedKeys(c.call)
    ensures match GroupOf(c)
            case Some(g) => Backed(c, g, k)
            case None => Gives(c.st, c.caller, "system", "system:role.manage")
  {
    if c.call.CreateRole? {
      RoleCallsMean(c.st, c.caller, c.call.roleId, c.call.group, c.call.name, c.call.scope, c.call.keys);
    } else {
      RoleChangesMean(c.st, c.caller, c.call.roleId, c.call.newName, c.call.newKeys);
    }
  }

  /**
   The user got the key by being given the role, and either the caller backed it or the role has
   got it since the check.
   */
  predicate ByMembership(c: Check, st: Store, u: UserId, g: GroupId, k: Key) {
    (c.call.AddGroupMember? || c.call.UpdateGroupMemberRole?) && c.call.g == g && c.call.user == u
    && HadKey(c.(st := st), c.call.role, k)
    && (Backed(c, g, k) || !HadKey(c, c.call.role, k))
  }

  /** The user's role was given the key. */
  predicate ByRole(c: Check, st: Store, u: UserId, g: GroupId, k: Key) {
    && (g, u) in st.members && ChangesKeys(c.call, st.members[(g, u)]) && k in WantedKeys(c.call)
    && match GroupOf(c)
       case Some(of) => Backed(c, of, k)
       case None => Gives(c.st, c.caller, "system", "system:role.manage")
  }

  /** The user founded the group, or was created with it. */
  predicate ByFounding(c: Check, u: UserId, g: GroupId) {
    || (c.call == CreateGroup(g) && u == c.caller && Gives(c.st, c.caller, "system", "system:group.manage"))
    || (c.call.CreateUser? && c.call.user == u && g == PersonalGroup(u)
        && Gives(c.st, c.caller, "system", "system:user.create"))
  }

  lemma FoundingIsBacked(c: Check, u: UserId, g: GroupId)
    requires Allowed(c.st, c.caller, c.call)
    requires (c.call == CreateGroup(g) && u == c.caller)
             || (c.call.CreateUser? && c.call.user == u && g == PersonalGroup(u))
    ensures ByFounding(c, u, g)
  {
    PermissionMeans(c.st, c.caller, g, "system:group.manage");
    PermissionMeans(c.st, c.caller, g, "system:user.create");
  }

  /**
   Every step of every run that gives a user a normal key in a group: it performs a
   statement of a call whose caller, when the call was checked, held that key in the group,
   or gave a role that has got the key since, or changed the user's role itself, or founded the group;
   or it is the user's own registration.
   */
  lemma KeysAreBacked(acts: seq<Action>, a: Action, u: UserId, g: GroupId, k: Key)
    requires NormalKey(k) && Gains(Exec(Init(), acts), a, u, g, k)
    ensures var s := Exec(Init(), acts);
            || (a.Perform? && CheckOf(acts, a.id).Some? &&
                var c := CheckOf(acts, a.id).value;
                ByMembership(c, s.st, u, g, k) || ByRole(c, s.st, u, g, k) || ByFounding(c, u, g))
            || (a.Register? && a.id in s.registering && s.registering[a.id].user == u && g == PersonalGroup(u))
  {
    var s := Exec(Init(), acts);
    match a
    case Perform(id) =>
      if MayPerform(s, id) {
        CallsAreTraced(acts, id);
        StatementIsBacked(s, CheckOf(acts, id).value, s.calls[id].left[0], u, g, k);
      }
    case Register(id) =>
      if id in s.registering {
        RegistrationGives(s.st, s.registering[id], u, g, k);
      }
    case _ =>
  }

  lemma StatementIsBacked(s: State, c: Check, x: Statement, u: UserId, g: GroupId, k: Key)
    requires Allowed(c.st, c.caller, c.call) && FromCall(c, x) && NormalKey(k) && !x.ReplaceKeys?
    requires !Gives(s.st, u, g, k) && Gives(Write(s.st, x), u, g, k)
    ensures ByMembership(c, s.st, u, g, k) || ByRole(c, s.st, u, g, k) || ByFounding(c, u, g)
  {
    GainingStatement(s.st, x, u, g, k);
    match x
    case InsertMember(_, _, r) =>
      if c.call == AddGroupMember(g, u, r) {
        if HadKey(c, r, k) {
          MembershipIsBacked(c, g, r, u, k);
        }
      } else {
        FoundingIsBacked(c, u, g);
      }
    case SetMemberRole(_, _, r) =>
      if HadKey(c, r, k) {
        MembershipIsBacked(c, g, r, u, k);
      }
    case AddKey(r, _) => KeyIsBacked(c, r, k);
    case _ => NewRoleGivesNothing(s.st, x, u, g, k);
  }

  lemma RegistrationGives(st: Store, r: Registering, u: UserId, g: GroupId, k: Key)
    requires !Gives(st, u, g, k) && Gives(WriteTx(st, Registration(r.user, r.token, r.role)), u, g, k)
    ensures r.user == u && g == PersonalGroup(u)
  {
    RegistrationWrites(st, r.user, r.token, r.role);
  }

  /**
   Exactly when a membership gives nothing its caller lacked: when every key the role has
   got since the check is the caller's own, so in particular when the role is as it was.
   */
  lemma BackedIffNothingNew(c: Check, st: Store, g: GroupId, u: UserId, r: RoleId)
    requires Allowed(c.st, c.caller, c.call) && r in st.roles
    requires c.call == AddGroupMember(g, u, r) || c.call == UpdateGroupMemberRole(g, u, r)
    ensures (forall k :: k in st.roles[r].keys && NormalKey(k) ==> Backed(c, g, k))
       <==> forall k :: k in st.roles[r].keys && NormalKey(k) && !HadKey(c, r, k) ==> Backed(c, g, k)
  {
    forall k | k in st.roles[r].keys && NormalKey(k) && HadKey(c, r, k)
      ensures Backed(c, g, k)
    {
      MembershipIsBacked(c, g, r, u, k);
    }
  }

  // ---------------------------------------------------------------- the table of roles

  predicate SameName(a: Role, b: Role) {
    a.group == b.group && a.name == b.name
  }

  /** No two roles of a group, and no two global ones, share a name; every key is one its role's scope knows. */
  ghost predicate RolesInOrder(st: Store) {
    && (forall r, x :: r in st.roles && x in st.roles && SameName(st.roles[r], st.roles[x]) ==> r == x)
    && (forall r, k :: r in st.roles && k in st.roles[r].keys ==> k in ADMIN_KEYS || k in SYSTEM_KEYS)
  }

  predicate OnlyKnown(x: Statement) {
    match x
    case ReplaceKeys(_, keys) => forall k :: k in keys ==> IsKnownKey(k)
    case AddKey(_, k) => IsKnownKey(k)
    case _ => true
  }

  ghost predicate PendingKnown(s: State) {
    forall id, i :: id in s.calls && 0 <= i < |s.calls[id].left| ==> OnlyKnown(s.calls[id].left[i])
  }

  lemma WriteKeepsOrder(st: Store, x: Statement)
    requires RolesInOrder(st) && OnlyKnown(x)
    ensures RolesInOrder(Write(st, x))
  {
  }

  lemma {:induction false} WriteAllKeepsOrder(st: Store, plan: seq<Statement>)
    requires RolesInOrder(st) && forall i :: 0 <= i < |plan| ==> OnlyKnown(plan[i])
    ensures RolesInOrder(WriteAll(st, plan))
    decreases |plan|
  {
    if plan != [] && Accepted(st, plan[0]) {
      WriteKeepsOrder(st, plan[0]);
      WriteAllKeepsOrder(Write(st, plan[0]), plan[1..]);
    }
  }

  lemma PlanIsKnown(st: Store, caller: UserId, call: Call)
    requires Allowed(st, caller, call)
    ensures forall x :: x in Plan(st, caller, call) ==> OnlyKnown(x)
  {
  }

  lemma ChangesAreKnown(r: RoleId, removed: seq<Key>, added: seq<Key>, wanted: set<Key>)
    requires OnlyKnown(ReplaceKeys(r, wanted)) && Elements(added) <= wanted
    ensures forall x :: x in KeyChanges(r, removed, added) ==> OnlyKnown(x)
  {
    assert forall k :: k in added ==> k in Elements(added);
  }

  lemma OrderStep(s: State, a: Action)
    requires RolesInOrder(s.st) && PendingKnown(s)
    ensures RolesInOrder(Step(s, a).st) && PendingKnown(Step(s, a))
  {
    match a
    case Request(_, caller, call) =>
      if Starts(s, a, a.id) {
        PlanIsKnown(s.st, caller, call);
      }
    case Perform(id) =>
      if MayPerform(s, id) {
        assert OnlyKnown(s.calls[id].left[0]);
        WriteKeepsOrder(s.st, s.calls[id].left[0]);
      }
    case ReadKeys(id, removed, added) =>
      if MayReadKeys(s, id, removed, added) {
        assert OnlyKnown(s.calls[id].left[0]);
        ChangesAreKnown(s.calls[id].left[0].role, removed, added, s.calls[id].left[0].keys);
      }
    case Register(id) =>
      if id in s.registering {
        WriteAllKeepsOrder(s.st, Registration(s.registering[id].user, s.registering[id].token, s.registering[id].role));
      }
    case _ =>
  }

  lemma SeededRolesInOrder()
    ensures RolesInOrder(Seeded())
  {
    var roles := Seeded().roles;
    assert roles.Keys == {SEED_ADMIN, SEED_USER, SEED_SESSION_OPERATOR, SEED_SYSTEM_ADMIN};
    forall r, k | r in roles && k in roles[r].keys
      ensures k in ADMIN_KEYS || k in SYSTEM_KEYS
    {
      assert roles[r].keys in {ADMIN_KEYS, USER_KEYS, SESSION_OPERATOR_KEYS, SYSTEM_KEYS};
      assert USER_KEYS <= ADMIN_KEYS && SESSION_OPERATOR_KEYS <= ADMIN_KEYS;
    }
    forall r, x | r in roles && x in roles && SameName(roles[r], roles[x])
      ensures r == x
    {
    }
  }

  /** However calls interleave: role names stay unique in each group, and roles hold known keys only. */
  lemma {:induction false} RolesStayInOrder(acts: seq<Action>)
    ensures RolesInOrder(Exec(Init(), acts).st) && PendingKnown(Exec(Init(), acts))
    decreases |acts|
  {
    if acts == [] {
      SeededRolesInOrder();
    } else {
      RolesStayInOrder(acts[..|acts| - 1]);
      OrderStep(Exec(Init(), acts[..|acts| - 1]), acts[|acts| - 1]);
    }
  }
}
