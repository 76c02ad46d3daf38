/**
 Administrative calls interleaved.  A call first checks and later writes, statement by
 statement, while other calls' statements run in between; only a registration is one
 transaction (usecase/group_usecase.go:48-291, usecase/role_usecase.go:65-200,
 usecase/user_usecase.go:50-142, usecase/user_usecase.go:284-345).
 */
module PermissionRuns {
  import opened Wrappers
  import opened PermissionState

  type CallId = nat

  /** The statements a call has still to issue, and how many removals there had been when it made its checks. */
  datatype Pending = Pending(left: seq<Statement>, seen: nat)

  /** A registration between reading its token and its transaction. */
  datatype Registering = Registering(token: Token, user: UserId, role: Option<RoleId>)

  /** `scopes` remembers the scope of every role id ever handed out: ids are random and never come back. */
  datatype State = State(
    st: Store,
    scopes: map<RoleId, Scope>,
    calls: map<CallId, Pending>,
    registering: map<CallId, Registering>,
    removals: nat)

  datatype Action =
    | Request(id: CallId, caller: UserId, call: Call)
    | Perform(id: CallId)
    | ReadKeys(id: CallId, removed: seq<Key>, added: seq<Key>)
    | ReadToken(id: CallId, token: Token, user: UserId)
    | Register(id: CallId)

  /** Random ids collide with nothing. */
  predicate FreshId(s: State, call: Call) {
    (call.CreateGroup? ==> call.id != SYSTEM_GROUP) && (call.CreateRole? ==> call.roleId !in s.scopes)
  }

  /** The statement may take a member out of the system group. */
  predicate Removes(x: Statement) {
    x.DropUser? || (x.DeleteMember? && x.g == SYSTEM_GROUP)
  }

  /** The keys of the role as they are now tell which to remove and which to add; one that is gone has none. */
  function KeysOf(st: Store, r: RoleId): set<Key> {
    if r in st.roles then st.roles[r].keys else {}
  }

  predicate MayReadKeys(s: State, id: CallId, removed: seq<Key>, added: seq<Key>) {
    id in s.calls && s.calls[id].left != [] && s.calls[id].left[0].ReplaceKeys? &&
    Turns(KeysOf(s.st, s.calls[id].left[0].role), removed, added, s.calls[id].left[0].keys)
  }

  /** From here on the changes stand as single statements, in an order of the program's choosing. */
  function StepReadKeys(s: State, id: CallId, removed: seq<Key>, added: seq<Key>): State
    requires id in s.calls && s.calls[id].left != [] && s.calls[id].left[0].ReplaceKeys?
  {
    var p := s.calls[id];
    s.(calls := s.calls[id := p.(left := KeyChanges(p.left[0].role, removed, added) + p.left[1..])])
  }

  /** The next statement is one for the database. */
  predicate MayPerform(s: State, id: CallId) {
    id in s.calls && s.calls[id].left != [] && !s.calls[id].left[0].ReplaceKeys?
  }

  function StepPerform(s: State, id: CallId, p: Pending): State
    requires p.left != []
  {
    if Accepted(s.st, p.left[0]) then
      s.(st := Write(s.st, p.left[0]), calls := s.calls[id := p.(left := p.left[1..])],
         removals := s.removals + if Removes(p.left[0]) then 1 else 0)
    else s.(calls := s.calls[id := p.(left := [])])
  }

  function Step(s: State, a: Action): State {
    match a
    case Request(id, caller, call) =>
      if id !in s.calls && Allowed(s.st, caller, call) && FreshId(s, call) then
        s.(calls := s.calls[id := Pending(Plan(s.st, caller, call), s.removals)], scopes := ScopesWith(s, call))
      else s
    case Perform(id) => if MayPerform(s, id) then StepPerform(s, id, s.calls[id]) else s
    case ReadKeys(id, removed, added) => if MayReadKeys(s, id, removed, added) then
        StepReadKeys(s, id, removed, added) else s
    case ReadToken(id, token, user) =>
      if id !in s.registering && token in s.st.tokens && !s.st.tokens[token].used then
        s.(registering := s.registering[id := Registering(token, user, s.st.tokens[token].role)])
      else s
    case Register(id) =>
      if id in s.registering then
        var r := s.registering[id];
        s.(st := WriteTx(s.st, Registration(r.user, r.token, r.role)), registering := s.registering - {id})
      else s
  }

  function ScopesWith(s: State, call: Call): map<RoleId, Scope> {
    if call.CreateRole? then s.scopes[call.roleId := call.scope] else s.scopes
  }

  function Exec(s: State, acts: seq<Action>): State
    decreases |acts|
  {
    if acts == [] then s else Step(Exec(s, acts[..|acts| - 1]), acts[|acts| - 1])
  }

  function Init(): State {
    State(Seeded(), map r | r in Seeded().roles :: Seeded().roles[r].scope, map[], map[], 0)
  }

  // ---------------------------------------------------------------- scopes, groups and keys stay in step

  predicate Matches(scope: Scope, g: GroupId) {
    scope.SystemScope? <==> g == SYSTEM_GROUP
  }

  predicate KeysFit(scope: Scope, keys: set<Key>) {
    forall k :: k in keys ==> (IsSystemKey(k) <==> scope.SystemScope?)
  }

  /** What a statement must respect so that it can run at any later time. */
  predicate Safe(scopes: map<RoleId, Scope>, x: Statement) {
    match x
    case InsertGroup(g, kind) => kind != System && g != SYSTEM_GROUP
    case InsertMember(g, _, r) => r in scopes && Matches(scopes[r], g)
    case SetMemberRole(g, _, r) => r in scopes && Matches(scopes[r], g)
    case InsertRole(r, _, _, scope) => r in scopes && scopes[r] == scope
    case InsertToken(_, r) => NormalRole(scopes, r)
    case ReplaceKeys(r, keys) => r in scopes && KeysFit(scopes[r], keys)
    case AddKey(r, k) => r in scopes && KeysFit(scopes[r], {k})
    case DropGroup(g) => g != SYSTEM_GROUP
    case _ => true
  }

  /** A personal role, if one is named, is a normal one. */
  predicate NormalRole(scopes: map<RoleId, Scope>, r: Option<RoleId>) {
    r.Some? ==> r.value in scopes && scopes[r.value] == NormalScope
  }

  ghost predicate StoreOk(scopes: map<RoleId, Scope>, st: Store) {
    && SYSTEM_GROUP in st.groups
    && (forall g :: g in st.groups ==> (st.groups[g] == System <==> g == SYSTEM_GROUP))
    && (forall r :: r in st.roles ==>
        r in scopes && st.roles[r].scope == scopes[r] && KeysFit(scopes[r], st.roles[r].keys))
    && (forall m :: m in st.members ==>
          m.0 in st.groups && m.1 in st.users && st.members[m] in st.roles
            && Matches(st.roles[st.members[m]].scope, m.0))
    && (forall t :: t in st.tokens ==> NormalRole(scopes, st.tokens[t].role))
  }

  ghost predicate Inv(s: State) {
    && SEED_ADMIN in s.scopes && s.scopes[SEED_ADMIN] == NormalScope
    && StoreOk(s.scopes, s.st)
    && (forall id :: id in s.registering ==> NormalRole(s.scopes, s.registering[id].role))
    && (forall id, i :: id in s.calls && 0 <= i < |s.calls[id].left| ==> Safe(s.scopes, s.calls[id].left[i]))
  }

  lemma DropGroupKeepsOk(scopes: map<RoleId, Scope>, st: Store, g: GroupId)
    requires StoreOk(scopes, st) && g != SYSTEM_GROUP && Accepted(st, DropGroup(g))
    ensures StoreOk(scopes, Write(st, DropGroup(g)))
  {
    var t := Write(st, DropGroup(g));
    forall m | m in t.members
      ensures t.members[m] in t.roles
    {
      assert Some(m.0) != Some(g);
      assert st.roles[st.members[m]].group == Some(g) ==> InUse(st, st.members[m], Some(g));
    }
  }

  lemma DropRoleKeepsOk(scopes: map<RoleId, Scope>, st: Store, r: RoleId)
    requires StoreOk(scopes, st) && Accepted(st, DropRole(r))
    ensures StoreOk(scopes, Write(st, DropRole(r)))
  {
    if r in st.roles {
      assert !InUse(st, r, None);
    }
  }

  lemma WriteKeepsOk(scopes: map<RoleId, Scope>, st: Store, x: Statement)
    requires StoreOk(scopes, st) && Safe(scopes, x)
    ensures StoreOk(scopes, Write(st, x))
  {
    if Accepted(st, x) {
      match x
      case DropRole(r) => DropRoleKeepsOk(scopes, st, r);
      case DropGroup(g) => DropGroupKeepsOk(scopes, st, g);
      case _ => OtherKeepsOk(scopes, st, x);
    }
  }

  lemma OtherKeepsOk(scopes: map<RoleId, Scope>, st: Store, x: Statement)
    requires StoreOk(scopes, st) && Safe(scopes, x) && !x.DropRole? && !x.DropGroup?
    ensures StoreOk(scopes, Write(st, x))
  {
  }

  lemma {:induction false} WriteAllKeepsOk(scopes: map<RoleId, Scope>, st: Store, plan: seq<Statement>)
    requires StoreOk(scopes, st) && forall i :: 0 <= i < |plan| ==> Safe(scopes, plan[i])
    ensures StoreOk(scopes, WriteAll(st, plan))
    decreases |plan|
  {
    if plan != [] && Accepted(st, plan[0]) {
      WriteKeepsOk(scopes, st, plan[0]);
      WriteAllKeepsOk(scopes, Write(st, plan[0]), plan[1..]);
    }
  }

  lemma PersonalIsNotSystem(user: UserId)
    ensures PersonalGroup(user) != SYSTEM_GROUP
  {
    assert |PersonalGroup(user)| >= 9 && |SYSTEM_GROUP| == 6;
  }

  lemma KnownKeysFit(scope: Scope, keys: seq<Key>)
    requires ValidKeys(scope, keys)
    ensures KeysFit(scope, Elements(keys))
  {
  }

  predicate AllSafe(scopes: map<RoleId, Scope>, plan: seq<Statement>) {
    forall i :: 0 <= i < |plan| ==> Safe(scopes, plan[i])
  }

  /** What a call checked stays true of its statements: scopes and group types never change. */
  lemma AllowedPlanIsSafe(s: State, caller: UserId, call: Call)
    requires Inv(s) && Allowed(s.st, caller, call) && FreshId(s, call)
    ensures AllSafe(ScopesWith(s, call), Plan(s.st, caller, call))
  {
    match call
    case CreateRole(_, _, _, _, _) => CreateRolePlanIsSafe(s, caller, call);
    case UpdateRole(_, _, _) => UpdatePlanIsSafe(s, caller, call);
    case CreateUser(_, _) => CreateUserPlanIsSafe(s, caller, call);
    case AddGroupMember(_, _, _) => MemberPlanIsSafe(s, caller, call);
    case UpdateGroupMemberRole(_, _, _) => MemberPlanIsSafe(s, caller, call);
    case CreateGroup(_) => GroupPlanIsSafe(s, caller, call);
    case DeleteGroup(_) => GroupPlanIsSafe(s, caller, call);
    case _ => SinglePlanIsSafe(s, caller, call);
  }

  lemma SinglePlanIsSafe(s: State, caller: UserId, call: Call)
    requires Inv(s) && Allowed(s.st, caller, call)
    requires call.RemoveGroupMember? || call.DeleteRole? || call.DeleteUser? || call.CreateRegistrationToken?
    ensures AllSafe(s.scopes, Plan(s.st, caller, call))
  {
  }

  lemma GroupPlanIsSafe(s: State, caller: UserId, call: Call)
    requires Inv(s) && (call.CreateGroup? || call.DeleteGroup?) && Allowed(s.st, caller, call) && FreshId(s, call)
    ensures AllSafe(s.scopes, Plan(s.st, caller, call))
  {
  }

  lemma CreateRolePlanIsSafe(s: State, caller: UserId, call: Call)
    requires call.CreateRole? && Allowed(s.st, caller, call)
    ensures AllSafe(ScopesWith(s, call), Plan(s.st, caller, call))
  {
    KnownKeysFit(call.scope, call.keys);
  }

  lemma UpdatePlanIsSafe(s: State, caller: UserId, call: Call)
    requires Inv(s) && call.UpdateRole? && Allowed(s.st, caller, call)
    ensures AllSafe(s.scopes, Plan(s.st, caller, call))
  {
    if call.newKeys.Some? {
      KnownKeysFit(s.st.roles[call.roleId].scope, call.newKeys.value);
    }
  }

  lemma CreateUserPlanIsSafe(s: State, caller: UserId, call: Call)
    requires Inv(s) && call.CreateUser? && Allowed(s.st, caller, call)
    ensures AllSafe(s.scopes, Plan(s.st, caller, call))
  {
    PersonalIsNotSystem(call.user);
  }

  lemma MemberPlanIsSafe(s: State, caller: UserId, call: Call)
    requires Inv(s) && (call.AddGroupMember? || call.UpdateGroupMemberRole?) && Allowed(s.st, caller, call)
    ensures AllSafe(s.scopes, Plan(s.st, caller, call))
  {
  }

  lemma RegistrationIsSafe(s: State, r: Registering)
    requires Inv(s) && NormalRole(s.scopes, r.role)
    ensures StoreOk(s.scopes, WriteTx(s.st, Registration(r.user, r.token, r.role)))
  {
    PersonalIsNotSystem(r.user);
    var plan := Registration(r.user, r.token, r.role);
    assert AllSafe(s.scopes, plan);
    WriteAllKeepsOk(s.scopes, s.st, plan);
  }

  lemma ChangesAreSafe(scopes: map<RoleId, Scope>, r: RoleId, removed: seq<Key>, added: seq<Key>, wanted: set<Key>)
    requires Safe(scopes, ReplaceKeys(r, wanted)) && Elements(added) <= wanted
    ensures AllSafe(scopes, KeyChanges(r, removed, added))
  {
    assert forall k :: k in added ==> k in Elements(added);
  }

  lemma RequestKeepsInv(s: State, id: CallId, caller: UserId, call: Call)
    requires Inv(s) && Allowed(s.st, caller, call) && FreshId(s, call) && id !in s.calls
    ensures Inv(Step(s, Request(id, caller, call)))
  {
    AllowedPlanIsSafe(s, caller, call);
    var s' := Step(s, Request(id, caller, call));
    assert s'.calls == s.calls[id := Pending(Plan(s.st, caller, call), s.removals)] && s'.st == s.st;
    MoreScopes(s, call);
  }

  /** A fresh role id changes nothing for the roles there are and the statements that wait. */
  lemma MoreScopes(s: State, call: Call)
    requires Inv(s) && FreshId(s, call)
    ensures StoreOk(ScopesWith(s, call), s.st)
    ensures forall id :: id in s.calls ==> AllSafe(ScopesWith(s, call), s.calls[id].left)
    ensures forall id :: id in s.registering ==> NormalRole(ScopesWith(s, call), s.registering[id].role)
  {
  }

  lemma StepKeepsInv(s: State, a: Action)
    requires Inv(s)
    ensures Inv(Step(s, a))
  {
    match a
    case Request(id, caller, call) =>
      if id !in s.calls && Allowed(s.st, caller, call) && FreshId(s, call) {
        RequestKeepsInv(s, id, caller, call);
      }
    case Perform(id) =>
      if MayPerform(s, id) {
        WriteKeepsOk(s.scopes, s.st, s.calls[id].left[0]);
      }
    case ReadKeys(id, removed, added) =>
      if MayReadKeys(s, id, removed, added) {
        ChangesAreSafe(s.scopes, s.calls[id].left[0].role, removed, added, s.calls[id].left[0].keys);
      }
    case ReadToken(_, _, _) =>
    case Register(id) =>
      if id in s.registering {
        RegistrationIsSafe(s, s.registering[id]);
      }
  }

  lemma {:induction false} RunInv(acts: seq<Action>)
    ensures Inv(Exec(Init(), acts))
    decreases |acts|
  {
    if acts == [] {
      SeededIsOk();
    } else {
      RunInv(acts[..|acts| - 1]);
      StepKeepsInv(Exec(Init(), acts[..|acts| - 1]), acts[|acts| - 1]);
    }
  }

  lemma SeededIsOk()
    ensures Inv(Init())
  {
    var roles := Seeded().roles;
    SeededKeysFit();
    assert roles.Keys == {SEED_ADMIN, SEED_USER, SEED_SESSION_OPERATOR, SEED_SYSTEM_ADMIN};
    forall r | r in roles
      ensures KeysFit(roles[r].scope, roles[r].keys)
    {
    }
  }

  lemma SeededKeysFit()
    ensures KeysFit(NormalScope, ADMIN_KEYS) && KeysFit(NormalScope, USER_KEYS)
            && KeysFit(NormalScope, SESSION_OPERATOR_KEYS)
    ensures KeysFit(SystemScope, SYSTEM_KEYS)
  {
    AdminKeysAreNormal();
    SystemKeysAreSystem();
    assert USER_KEYS <= ADMIN_KEYS && SESSION_OPERATOR_KEYS <= ADMIN_KEYS;
  }

  /**
   However calls interleave: every member's role has the scope of its group's type and
   holds keys of its own scope only, so a system key can come from the system group alone.
   */
  lemma OnlySystemGroupYieldsSystemKeys(acts: seq<Action>, g: GroupId, user: UserId, k: Key)
    requires k in KeysIn(Exec(Init(), acts).st, user, g)
    ensures IsSystemKey(k) <==> g == SYSTEM_GROUP
    ensures var st := Exec(Init(), acts).st;
            g in st.groups && (g, user) in st.members && st.members[(g, user)] in st.roles
            && Assignable(st.roles[st.members[(g, user)]].scope, st.groups[g])
  {
    RunInv(acts);
  }

  // ---------------------------------------------------------------- the system group keeps a member

  predicate SystemGroupHasMember(st: Store) {
    exists m :: m in st.members && m.0 == SYSTEM_GROUP
  }

  /** A removal that is still up to date with all others leaves someone behind. */
  ghost predicate LeavesSomeone(s: State, p: Pending) {
    && p.seen <= s.removals
    && forall i :: 0 <= i < |p.left| && Removes(p.left[i]) && p.seen == s.removals ==>
         HasOtherMember(s.st, SYSTEM_GROUP, p.left[i].user)
  }

  ghost predicate MemberInv(s: State) {
    && Inv(s) && SystemGroupHasMember(s.st)
    && forall id :: id in s.calls ==> LeavesSomeone(s, s.calls[id])
  }

  /** No removal is performed on the strength of a check that another removal has outdated. */
  ghost predicate UpToDate(s: State, a: Action) {
    a.Perform? && MayPerform(s, a.id) && Removes(s.calls[a.id].left[0]) ==> s.calls[a.id].seen == s.removals
  }

  ghost predicate RemovalsUpToDate(acts: seq<Action>)
    decreases |acts|
  {
    acts != [] ==> RemovalsUpToDate(acts[..|acts| - 1]) && UpToDate(Exec(Init(), acts[..|acts| - 1]), acts[|acts| - 1])
  }

  lemma WriteKeepsMembers(st: Store, x: Statement)
    requires !Removes(x) && (x.DropGroup? ==> x.g != SYSTEM_GROUP)
    ensures forall m :: m in st.members && m.0 == SYSTEM_GROUP ==> m in Write(st, x).members
  {
  }

  lemma {:induction false} WriteAllKeepsMembers(st: Store, plan: seq<Statement>)
    requires forall i :: 0 <= i < |plan| ==> !Removes(plan[i]) && !plan[i].DropGroup?
    ensures forall m :: m in st.members && m.0 == SYSTEM_GROUP ==> m in WriteAll(st, plan).members
    decreases |plan|
  {
    if plan != [] && Accepted(st, plan[0]) {
      WriteKeepsMembers(st, plan[0]);
      WriteAllKeepsMembers(Write(st, plan[0]), plan[1..]);
    }
  }

  /** The checks behind a removal: a member other than the target stays. */
  lemma AllowedLeavesSomeone(s: State, caller: UserId, call: Call, i: nat)
    requires Inv(s) && Allowed(s.st, caller, call) && i < |Plan(s.st, caller, call)|
             && Removes(Plan(s.st, caller, call)[i])
    ensures HasOtherMember(s.st, SYSTEM_GROUP, Plan(s.st, caller, call)[i].user)
  {
    if call.DeleteUser? {
      assert (SYSTEM_GROUP, caller) in s.st.members;
    }
  }

  /** Members of the system group only join: pending removals stay as good as they were. */
  lemma MembersStay(s: State, s': State)
    requires MemberInv(s) && Inv(s') && s'.removals == s.removals
    requires forall m :: m in s.st.members && m.0 == SYSTEM_GROUP ==> m in s'.st.members
    requires forall id :: id in s'.calls ==> LeavesSomeone(s, s'.calls[id])
    ensures MemberInv(s')
  {
    var m :| m in s.st.members && m.0 == SYSTEM_GROUP;
    assert m in s'.st.members;
    forall id | id in s'.calls
      ensures LeavesSomeone(s', s'.calls[id])
    {
      assert LeavesSomeone(s, s'.calls[id]);
    }
  }

  lemma PerformKeepsMember(s: State, id: CallId)
    requires MemberInv(s) && UpToDate(s, Perform(id)) && MayPerform(s, id)
    ensures MemberInv(Step(s, Perform(id)))
  {
    var s', p, x := Step(s, Perform(id)), s.calls[id], s.calls[id].left[0];
    StepKeepsInv(s, Perform(id));
    assert LeavesSomeone(s, p) && Safe(s.scopes, x);
    OthersLeave(s, id);
    if !Accepted(s.st, x) || !Removes(x) {
      WriteKeepsMembers(s.st, x);
      MembersStay(s, s');
    } else {
      var m :| m in s.st.members && m.0 == SYSTEM_GROUP && m.1 != x.user;
      assert m in s'.st.members;
    }
  }

  /** What is left of the calls is no worse a threat than before, and outdated once someone was removed. */
  lemma OthersLeave(s: State, id: CallId)
    requires MemberInv(s) && MayPerform(s, id)
    ensures var s' := Step(s, Perform(id));
            forall c :: c in s'.calls ==>
                LeavesSomeone(s, s'.calls[c]) && (s'.removals > s.removals ==> LeavesSomeone(s', s'.calls[c]))
  {
    var s' := Step(s, Perform(id));
    forall c | c in s'.calls
      ensures LeavesSomeone(s, s'.calls[c]) && (s'.removals > s.removals ==> LeavesSomeone(s', s'.calls[c]))
    {
      assert LeavesSomeone(s, s.calls[c]);
    }
  }

  lemma RequestKeepsMember(s: State, id: CallId, caller: UserId, call: Call)
    requires MemberInv(s) && id !in s.calls && Allowed(s.st, caller, call) && FreshId(s, call)
    ensures MemberInv(Step(s, Request(id, caller, call)))
  {
    var s', p := Step(s, Request(id, caller, call)), Pending(Plan(s.st, caller, call), s.removals);
    StepKeepsInv(s, Request(id, caller, call));
    assert s'.calls == s.calls[id := p] && s'.st == s.st;
    forall i | 0 <= i < |p.left| && Removes(p.left[i])
      ensures HasOtherMember(s.st, SYSTEM_GROUP, p.left[i].user)
    {
      AllowedLeavesSomeone(s, caller, call, i);
    }
    assert LeavesSomeone(s, p);
    MembersStay(s, s');
  }

  lemma ReadKeysLeaves(s: State, id: CallId, removed: seq<Key>, added: seq<Key>)
    requires MemberInv(s)
    ensures var s' := Step(s, ReadKeys(id, removed, added)); forall c :: c in s'.calls ==> LeavesSomeone(s, s'.calls[c])
  {
    var s' := Step(s, ReadKeys(id, removed, added));
    forall c | c in s'.calls
      ensures LeavesSomeone(s, s'.calls[c])
    {
      assert LeavesSomeone(s, s.calls[c]);
      if c == id && MayReadKeys(s, id, removed, added) {
        MoreChangesLeave(s, s.calls[id], KeyChanges(s.calls[id].left[0].role, removed, added));
      }
    }
  }

  lemma MoreChangesLeave(s: State, p: Pending, changes: seq<Statement>)
    requires LeavesSomeone(s, p) && p.left != [] && forall i :: 0 <= i < |changes| ==> !Removes(changes[i])
    ensures LeavesSomeone(s, p.(left := changes + p.left[1..]))
  {
    var left := changes + p.left[1..];
    forall i | 0 <= i < |left| && Removes(left[i]) && p.seen == s.removals
      ensures HasOtherMember(s.st, SYSTEM_GROUP, left[i].user)
    {
      assert left[i] == p.left[i - |changes| + 1];
    }
  }

  lemma StepKeepsMember(s: State, a: Action)
    requires MemberInv(s) && UpToDate(s, a)
    ensures MemberInv(Step(s, a))
  {
    match a
    case Perform(id) =>
      if MayPerform(s, id) {
        PerformKeepsMember(s, id);
      }
    case ReadKeys(id, removed, added) =>
      StepKeepsInv(s, a);
      ReadKeysLeaves(s, id, removed, added);
      MembersStay(s, Step(s, a));
    case Request(id, caller, call) =>
      if id !in s.calls && Allowed(s.st, caller, call) && FreshId(s, call) {
        RequestKeepsMember(s, id, caller, call);
      }
    case ReadToken(_, _, _) =>
      StepKeepsInv(s, a);
      MembersStay(s, Step(s, a));
    case Register(id) =>
      StepKeepsInv(s, a);
      RegistrationsKeepMembers(s, id);
      MembersStay(s, Step(s, a));
  }

  lemma RegistrationsKeepMembers(s: State, id: CallId)
    ensures forall m :: m in s.st.members && m.0 == SYSTEM_GROUP ==> m in Step(s, Register(id)).st.members
  {
    if id in s.registering {
      var r := s.registering[id];
      WriteAllKeepsMembers(s.st, Registration(r.user, r.token, r.role));
    }
  }

  /** As long as every removal's check is still current when it writes, the system group never becomes empty. */
  lemma {:induction false} SystemGroupNeverEmpty(acts: seq<Action>)
    requires RemovalsUpToDate(acts)
    ensures MemberInv(Exec(Init(), acts))
    decreases |acts|
  {
    if acts == [] {
      SeededIsOk();
      assert (SYSTEM_GROUP, SYSTEM_USER) in Init().st.members;
    } else {
      SystemGroupNeverEmpty(acts[..|acts| - 1]);
      StepKeepsMember(Exec(Init(), acts[..|acts| - 1]), acts[|acts| - 1]);
    }
  }

  // ---------------------------------------------------------------- exactly when it does

  /** The check behind a removal fails when it is made again at the moment of writing. */
  predicate TakesLastMember(s: State, a: Action) {
    a.Perform? && MayPerform(s, a.id) &&
    var x := s.calls[a.id].left[0];
    Removes(x) && (SYSTEM_GROUP, x.user) in s.st.members && !HasOtherMember(s.st, SYSTEM_GROUP, x.user)
  }

  lemma WriteKeepsMemberIff(st: Store, x: Statement)
    requires SystemGroupHasMember(st) && (x.DropGroup? ==> x.g != SYSTEM_GROUP)
    ensures SystemGroupHasMember(Write(st, x))
       <==> !(Removes(x) && (SYSTEM_GROUP, x.user) in st.members && !HasOtherMember(st, SYSTEM_GROUP, x.user))
  {
    if !Removes(x) {
      WriteKeepsMembers(st, x);
      var m :| m in st.members && m.0 == SYSTEM_GROUP;
      assert m in Write(st, x).members;
    } else {
      var t := Write(st, x);
      assert forall m :: m in st.members && m.0 == SYSTEM_GROUP && m.1 != x.user ==> m in t.members;
      assert forall m :: m in t.members && m.0 == SYSTEM_GROUP ==> m in st.members && m.1 != x.user;
      if (SYSTEM_GROUP, x.user) !in st.members {
        var m :| m in st.members && m.0 == SYSTEM_GROUP;
        assert m.1 != x.user && m in t.members;
      }
    }
  }

  lemma StepKeepsMemberIff(s: State, a: Action)
    requires Inv(s) && SystemGroupHasMember(s.st)
    ensures SystemGroupHasMember(Step(s, a).st) <==> !TakesLastMember(s, a)
  {
    if a.Perform? && MayPerform(s, a.id) {
      assert Safe(s.scopes, s.calls[a.id].left[0]);
      WriteKeepsMemberIff(s.st, s.calls[a.id].left[0]);
    } else {
      var m :| m in s.st.members && m.0 == SYSTEM_GROUP;
      if a.Register? {
        RegistrationsKeepMembers(s, a.id);
      }
      assert m in Step(s, a).st.members;
    }
  }

  /** After every step of the run, from its beginning on. */
  ghost predicate AlwaysHasMember(acts: seq<Action>)
    decreases |acts|
  {
    SystemGroupHasMember(Exec(Init(), acts).st) && (acts != [] ==> AlwaysHasMember(acts[..|acts| - 1]))
  }

  /** At every step of the run. */
  ghost predicate NeverTakesLast(acts: seq<Action>)
    decreases |acts|
  {
    acts != [] ==>
      NeverTakesLast(acts[..|acts| - 1]) && !TakesLastMember(Exec(Init(), acts[..|acts| - 1]), acts[|acts| - 1])
  }

  /**
   In every run, the system group has a member all the time exactly when no removal
   writes at a moment at which its own check, made again, would refuse it.
   */
  lemma {:induction false} NeverEmptyIff(acts: seq<Action>)
    ensures AlwaysHasMember(acts) <==> NeverTakesLast(acts)
    decreases |acts|
  {
    if acts == [] {
      assert (SYSTEM_GROUP, SYSTEM_USER) in Init().st.members;
    } else {
      var before := acts[..|acts| - 1];
      NeverEmptyIff(before);
      RunInv(before);
      if SystemGroupHasMember(Exec(Init(), before).st) {
        StepKeepsMemberIff(Exec(Init(), before), acts[|acts| - 1]);
      }
    }
  }

  lemma ManagerMayRemove(st: Store, caller: UserId, user: UserId)
    requires SYSTEM_GROUP in st.groups && !st.groups[SYSTEM_GROUP].Personal? && caller != user
    requires HasSystemPermission(st, caller, "system:group.manage")
    ensures Allowed(st, caller, RemoveGroupMember(SYSTEM_GROUP, user))
  {
    NotSystemKey("group:members.manage");
    assert (SYSTEM_GROUP, caller) in st.members;
  }

  /** Two administrators, and no other member. */
  ghost predicate OnlyManagers(s: State, a: UserId, b: UserId) {
    && a != b && Inv(s)
    && (forall m :: m in s.st.members && m.0 == SYSTEM_GROUP <==> m == (SYSTEM_GROUP, a) || m == (SYSTEM_GROUP, b))
    && HasSystemPermission(s.st, a, "system:group.manage") && HasSystemPermission(s.st, b, "system:group.manage")
  }

  /** If they remove each other at the same time, the group is empty. */
  lemma OverlappingRemovalsEmptyIt(s: State, a: UserId, b: UserId)
    requires OnlyManagers(s, a, b) && 1 !in s.calls && 2 !in s.calls
    ensures var s1 := Step(s, Request(1, a, RemoveGroupMember(SYSTEM_GROUP, b)));
            var s2 := Step(s1, Request(2, b, RemoveGroupMember(SYSTEM_GROUP, a)));
            var s3 := Step(s2, Perform(1));
            SystemGroupHasMember(s3.st) && !SystemGroupHasMember(Step(s3, Perform(2)).st)
  {
    var s1 := Step(s, Request(1, a, RemoveGroupMember(SYSTEM_GROUP, b)));
    ManagerMayRemove(s.st, a, b);
    assert s1 == s.(calls := s.calls[1 := Pending([DeleteMember(SYSTEM_GROUP, b)], s.removals)]);
    var s2 := Step(s1, Request(2, b, RemoveGroupMember(SYSTEM_GROUP, a)));
    ManagerMayRemove(s.st, b, a);
    assert s2 == s1.(calls := s1.calls[2 := Pending([DeleteMember(SYSTEM_GROUP, a)], s.removals)]);
    assert (SYSTEM_GROUP, a) in s.st.members;
    DeleteBoth(s2, a, b);
  }

  lemma DeleteBoth(s: State, a: UserId, b: UserId)
    requires 1 in s.calls && s.calls[1].left == [DeleteMember(SYSTEM_GROUP, b)]
    requires 2 in s.calls && s.calls[2].left == [DeleteMember(SYSTEM_GROUP, a)]
    requires a != b && (SYSTEM_GROUP, a) in s.st.members
    requires forall m :: m in s.st.members && m.0 == SYSTEM_GROUP ==> m == (SYSTEM_GROUP, a) || m == (SYSTEM_GROUP, b)
    ensures var s' := Step(s, Perform(1));
            SystemGroupHasMember(s'.st) && !SystemGroupHasMember(Step(s', Perform(2)).st)
  {
    var s' := Step(s, Perform(1));
    assert s'.st.members == s.st.members - {(SYSTEM_GROUP, b)} && s'.calls[2] == s.calls[2];
    assert (SYSTEM_GROUP, a) in s'.st.members;
    assert Step(s', Perform(2)).st.members == s'.st.members - {(SYSTEM_GROUP, a)};
  }

  ghost predicate Reached(s: State) {
    exists acts :: Exec(Init(), acts) == s
  }

  lemma ReachStep(s: State, a: Action)
    requires Reached(s)
    ensures Reached(Step(s, a))
  {
    var acts :| Exec(Init(), acts) == s;
    assert (acts + [a])[..|acts + [a]| - 1] == acts;
    assert Exec(Init(), acts + [a]) == Step(s, a);
  }

  const SECOND: UserId := "second"

  /** The seeded store with a second user, who has no role but in the personal group. */
  function WithSecondUser(): Store {
    var g := PersonalGroup(SECOND);
    Seeded().(users := {SYSTEM_USER, SECOND}, groups := Seeded().groups[g := Personal],
              members := Seeded().members[(g, SECOND) := SEED_ADMIN])
  }

  function WithSecondManager(): Store {
    WithSecondUser().(members := WithSecondUser().members[(SYSTEM_GROUP, SECOND) := SEED_SYSTEM_ADMIN])
  }

  lemma PerformReached(s: State, id: CallId, x: Statement, rest: seq<Statement>) returns (s': State)
    requires Reached(s) && id in s.calls && s.calls[id].left == [x] + rest && Accepted(s.st, x) && !Removes(x)
             && !x.ReplaceKeys?
    ensures Reached(s') && s' == s.(st := Write(s.st, x), calls := s.calls[id := s.calls[id].(left := rest)])
    ensures s' == Step(s, Perform(id))
  {
    ReachStep(s, Perform(id));
    s' := Step(s, Perform(id));
    assert ([x] + rest)[1..] == rest;
  }

  lemma RequestReached(s: State, id: CallId, caller: UserId, call: Call) returns (s': State)
    requires Reached(s) && id !in s.calls && Allowed(s.st, caller, call) && FreshId(s, call)
    ensures var p := Pending(Plan(s.st, caller, call), s.removals);
            Reached(s') && s' == s.(calls := s.calls[id := p], scopes := ScopesWith(s, call))
    ensures s' == Step(s, Request(id, caller, call))
  {
    ReachStep(s, Request(id, caller, call));
    s' := Step(s, Request(id, caller, call));
  }

  lemma SecondUserWrites()
    ensures var g := PersonalGroup(SECOND);
            var i0, i1, i2 := InsertUser(SECOND), InsertGroup(g, Personal), InsertMember(g, SECOND, SEED_ADMIN);
            var st0 := Seeded();
            var st1 := Write(st0, i0);
            var st2 := Write(st1, i1);
            && Accepted(st0, i0) && Accepted(st1, i1) && Accepted(st2, i2) && Write(st2, i2) == WithSecondUser()
            && Allowed(st0, SYSTEM_USER, CreateUser(SECOND, None))
  {
    PersonalIsNotSystem(SECOND);
    SystemUserHolds(Seeded(), "system:user.create");
  }

  lemma SecondUserRequested() returns (s: State)
    ensures Reached(s) && s.st == Seeded() && s.calls.Keys == {10} && s.removals == 0 && s.scopes == Init().scopes
    ensures var g := PersonalGroup(SECOND);
            s.calls[10].left == [InsertUser(SECOND), InsertGroup(g, Personal), InsertMember(g, SECOND, SEED_ADMIN)]
  {
    SecondUserWrites();
    assert Exec(Init(), []) == Init();
    s := RequestReached(Init(), 10, SYSTEM_USER, CreateUser(SECOND, None));
  }

  lemma SecondUserReached() returns (s: State)
    ensures Reached(s) && s.st == WithSecondUser() && s.calls.Keys == {10} && s.removals == 0
            && s.scopes == Init().scopes
  {
    var g := PersonalGroup(SECOND);
    var i0, i1, i2 := InsertUser(SECOND), InsertGroup(g, Personal), InsertMember(g, SECOND, SEED_ADMIN);
    SecondUserWrites();
    s := SecondUserRequested();
    assert s.calls[10].left == [i0] + [i1, i2];
    s := PerformReached(s, 10, i0, [i1, i2]);
    assert [i1, i2] == [i1] + [i2];
    s := PerformReached(s, 10, i1, [i2]);
    assert [i2] == [i2] + [];
    s := PerformReached(s, 10, i2, []);
  }

  lemma SystemUserHolds(st: Store, k: Key)
    requires st.roles == Seeded().roles && (SYSTEM_GROUP, SYSTEM_USER) in st.members
    requires st.members[(SYSTEM_GROUP, SYSTEM_USER)] == SEED_SYSTEM_ADMIN && k in SYSTEM_KEYS
    ensures HasSystemPermission(st, SYSTEM_USER, k)
  {
  }

  lemma SecondManagerReached() returns (s: State)
    ensures Reached(s) && s.st == WithSecondManager() && s.calls.Keys == {10, 11}
  {
    var s0 := SecondUserReached();
    var insert := InsertMember(SYSTEM_GROUP, SECOND, SEED_SYSTEM_ADMIN);
    MayAddManager();
    var s1 := RequestReached(s0, 11, SYSTEM_USER, AddGroupMember(SYSTEM_GROUP, SECOND, SEED_SYSTEM_ADMIN));
    assert s1.calls[11].left == [insert] + [];
    MayInsertManager();
    s := PerformReached(s1, 11, insert, []);
  }

  /** The seeded controller gets there by creating a user and adding it to the system group. */
  lemma TwoManagersReached() returns (s: State)
    ensures Reached(s) && OnlyManagers(s, SYSTEM_USER, SECOND) && 1 !in s.calls && 2 !in s.calls
  {
    s := SecondManagerReached();
    ReachedInv(s);
    BothManage();
  }

  lemma ReachedInv(s: State)
    requires Reached(s)
    ensures Inv(s)
  {
    var acts :| Exec(Init(), acts) == s;
    RunInv(acts);
  }

  lemma MayInsertManager()
    ensures Accepted(WithSecondUser(), InsertMember(SYSTEM_GROUP, SECOND, SEED_SYSTEM_ADMIN))
    ensures Write(WithSecondUser(), InsertMember(SYSTEM_GROUP, SECOND, SEED_SYSTEM_ADMIN)) == WithSecondManager()
  {
    PersonalIsNotSystem(SECOND);
  }

  lemma BothManage()
    ensures var st := WithSecondManager();
            && (forall m ::
                  m in st.members && m.0 == SYSTEM_GROUP
                  <==> m == (SYSTEM_GROUP, SYSTEM_USER) || m == (SYSTEM_GROUP, SECOND))
            && HasSystemPermission(st, SYSTEM_USER, "system:group.manage")
               && HasSystemPermission(st, SECOND, "system:group.manage")
  {
    PersonalIsNotSystem(SECOND);
    SystemUserHolds(WithSecondManager(), "system:group.manage");
  }

  lemma MayAddManager()
    ensures Allowed(WithSecondUser(), SYSTEM_USER, AddGroupMember(SYSTEM_GROUP, SECOND, SEED_SYSTEM_ADMIN))
  {
    var st := WithSecondUser();
    NotSystemKey("group:members.manage");
    SystemKeysAreSystem();
    PersonalIsNotSystem(SECOND);
    SystemUserHolds(st, "system:group.manage");
    forall k | k in st.roles[SEED_SYSTEM_ADMIN].keys
      ensures HasPermission(st, SYSTEM_USER, SYSTEM_GROUP, k)
    {
      SystemUserHolds(st, k);
    }
  }

  /** So the group does become empty in some run of the seeded controller. */
  lemma GroupCanBeEmptied() returns (acts: seq<Action>)
    ensures !SystemGroupHasMember(Exec(Init(), acts).st)
  {
    var s := TwoManagersReached();
    var a0, a1 := Request(1, SYSTEM_USER, RemoveGroupMember(SYSTEM_GROUP, SECOND)),
      Request(2, SECOND, RemoveGroupMember(SYSTEM_GROUP, SYSTEM_USER));
    OverlappingRemovalsEmptyIt(s, SYSTEM_USER, SECOND);
    ReachStep(s, a0);
    ReachStep(Step(s, a0), a1);
    ReachStep(Step(Step(s, a0), a1), Perform(1));
    var t := Step(Step(Step(s, a0), a1), Perform(1));
    ReachStep(t, Perform(2));
    acts :| Exec(Init(), acts) == Step(t, Perform(2));
  }

  // ---------------------------------------------------------------- a token registers one user

  /** The transaction of a registration goes through. */
  predicate Registers(s: State, a: Action, token: Token) {
    a.Register? && a.id in s.registering && s.registering[a.id].token == token &&
    AllAccepted(s.st, Registration(s.registering[a.id].user, token, s.registering[a.id].role))
  }

  ghost function Registrations(acts: seq<Action>, token: Token): nat
    decreases |acts|
  {
    if acts == [] then 0
    else
      var before := acts[..|acts| - 1];
      Registrations(before, token) + if Registers(Exec(Init(), before), acts[|acts| - 1], token) then 1 else 0
  }

  predicate IsUsed(st: Store, token: Token) {
    token in st.tokens && st.tokens[token].used
  }

  lemma RegisterUses(s: State, id: CallId, token: Token)
    ensures Registers(s, Register(id), token) ==> !IsUsed(s.st, token) && IsUsed(Step(s, Register(id)).st, token)
    ensures !Registers(s, Register(id), token) ==> (IsUsed(Step(s, Register(id)).st, token) <==> IsUsed(s.st, token))
  {
    if id in s.registering {
      var r := s.registering[id];
      if AllAccepted(s.st, Registration(r.user, r.token, r.role)) {
        RegistrationWrites(s.st, r.user, r.token, r.role);
      }
    }
  }

  lemma NoCallUses(s: State, caller: UserId, call: Call, i: nat)
    requires i < |Plan(s.st, caller, call)|
    ensures !Plan(s.st, caller, call)[i].UseToken?
  {
  }

  ghost predicate NoUse(s: State) {
    forall id, i :: id in s.calls && 0 <= i < |s.calls[id].left| ==> !s.calls[id].left[i].UseToken?
  }

  lemma StepUses(s: State, a: Action, token: Token)
    requires NoUse(s)
    ensures NoUse(Step(s, a))
    ensures !a.Register? ==> (IsUsed(Step(s, a).st, token) <==> IsUsed(s.st, token))
  {
    match a
    case Request(id, caller, call) =>
      forall i | 0 <= i < |Plan(s.st, caller, call)|
        ensures !Plan(s.st, caller, call)[i].UseToken?
      {
        NoCallUses(s, caller, call, i);
      }
    case Perform(id) =>
      if MayPerform(s, id) {
        WriteUses(s.st, s.calls[id].left[0], token);
      }
    case ReadKeys(id, removed, added) =>
      if MayReadKeys(s, id, removed, added) {
        assert forall x :: x in KeyChanges(s.calls[id].left[0].role, removed, added) ==> !x.UseToken?;
      }
    case _ =>
  }

  lemma WriteUses(st: Store, x: Statement, token: Token)
    requires !x.UseToken?
    ensures IsUsed(Write(st, x), token) <==> IsUsed(st, token)
  {
  }

  /** However many registrations read the same token before one of them uses it up, one user comes of it. */
  lemma {:induction false} TokenRegistersOnce(acts: seq<Action>, token: Token)
    ensures NoUse(Exec(Init(), acts))
    ensures Registrations(acts, token) == if IsUsed(Exec(Init(), acts).st, token) then 1 else 0
    decreases |acts|
  {
    if acts != [] {
      var before, a := acts[..|acts| - 1], acts[|acts| - 1];
      TokenRegistersOnce(before, token);
      StepUses(Exec(Init(), before), a, token);
      if a.Register? {
        RegisterUses(Exec(Init(), before), a.id, token);
      }
    }
  }
  // ---------------------------------------------------------------- and it does register

  lemma RegistrationIsAccepted(st: Store, user: UserId, token: Token)
    requires user !in st.users && PersonalGroup(user) !in st.groups && SEED_ADMIN in st.roles
    requires token in st.tokens && !st.tokens[token].used
    requires forall m :: m in st.members ==> m.0 in st.groups
    ensures AllAccepted(st, Registration(user, token, None))
  {
    var g := PersonalGroup(user);
    var plan := Registration(user, token, None);
    var st1 := Write(st, InsertUser(user));
    var st2 := Write(st1, InsertGroup(g, Personal));
    var st3 := Write(st2, InsertMember(g, user, SEED_ADMIN));
    assert plan[1..] == [InsertGroup(g, Personal), InsertMember(g, user, SEED_ADMIN), UseToken(token)];
    assert plan[1..][1..] == [InsertMember(g, user, SEED_ADMIN), UseToken(token)];
    assert plan[1..][1..][1..] == [UseToken(token)] && plan[1..][1..][1..][1..] == [];
    assert Accepted(st, plan[0]) && Accepted(st1, plan[1]) && Accepted(st2, plan[2]) && Accepted(st3, plan[3]);
    assert AllAccepted(st3, [UseToken(token)]);
    assert AllAccepted(st2, plan[1..][1..]);
    assert AllAccepted(st1, plan[1..]);
  }

  lemma TokenIssued(token: Token) returns (s: State)
    ensures Reached(s) && s.registering == map[]
    ensures s.st == Seeded().(tokens := map[token := Invitation(None, false)])
  {
    var insert := InsertToken(token, None);
    assert Exec(Init(), []) == Init();
    SystemUserHolds(Init().st, "system:user.create");
    s := RequestReached(Init(), 1, SYSTEM_USER, CreateRegistrationToken(token, None));
    assert s.calls[1].left == [insert] + [];
    s := PerformReached(s, 1, insert, []);
  }

  lemma NewcomerRegisters(s: State, token: Token)
    requires s.registering == map[] && s.st == Seeded().(tokens := map[token := Invitation(None, false)])
    ensures var st := Step(Step(s, ReadToken(2, token, SECOND)), Register(2)).st;
            && SECOND in st.users && IsUsed(st, token)
            && (PersonalGroup(SECOND), SECOND) in st.members
               && st.members[(PersonalGroup(SECOND), SECOND)] == SEED_ADMIN
  {
    var s1 := Step(s, ReadToken(2, token, SECOND));
    assert s1.registering == map[2 := Registering(token, SECOND, None)] && s1.st == s.st;
    PersonalIsNotSystem(SECOND);
    RegistrationIsAccepted(s.st, SECOND, token);
    RegistrationWrites(s.st, SECOND, token, None);
  }

  /** A run from the seeded store: the system user issues a token, and a new user registers with it. */
  lemma InvitedUserRegisters(token: Token) returns (s: State)
    ensures Reached(s) && SECOND in s.st.users && IsUsed(s.st, token)
    ensures (PersonalGroup(SECOND), SECOND) in s.st.members
            && s.st.members[(PersonalGroup(SECOND), SECOND)] == SEED_ADMIN
  {
    var s1 := TokenIssued(token);
    NewcomerRegisters(s1, token);
    ReachStep(s1, ReadToken(2, token, SECOND));
    ReachStep(Step(s1, ReadToken(2, token, SECOND)), Register(2));
    s := Step(Step(s1, ReadToken(2, token, SECOND)), Register(2));
  }
}
