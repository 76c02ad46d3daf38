/**
 Every interleaving of the upgrade orchestrator: image-checker goroutines that
 enroll hosts, ticks and host events that reconcile them, StartSession callers, and
 events that rewrite the user-count cache at any moment.  A step is one critical
 section of UpgradeState or one external call; a call that is still running is a
 program counter of its thread.
 */
module UpgradeProtocol {
  import opened Wrappers
  import opened SessionTable
  import opened UpgradeState

  type Thread = nat
  type Call = nat

  datatype PassAt = Listing | Looping | Counting | ToStop | Stopping | Restarting

  /** One pass of reconcileHost, from reading the drain entry on: `next` sessions of `listed` are dealt with. */
  datatype Pass = Pass(id: nat, host: HostId, lock: LockId, entry: EntryId, listed: seq<SessionId>, next: nat,
                       remaining: nat, at: PassAt)

  datatype Pc =
    | Idle
    | Fetching(host: HostId, tag: Tag)
    | Snapped(host: HostId, tag: Tag, snapshot: Snapshot)
    | Wanting(host: HostId, lock: LockId)
    | Locked(host: HostId, lock: LockId)
    | InPass(pass: Pass)
    | Unlocking(host: HostId, lock: LockId)

  /** What an observer of the external calls sees. */
  datatype Event =
    | Captured(host: HostId, snapshot: Snapshot)
    | Enrolled(entry: EntryId, host: HostId, tag: Tag, snapshot: Snapshot)
    | Listed(pass: nat, host: HostId, sessions: seq<SessionId>)
    | Counted(pass: nat, session: SessionId, users: int)
    | StopCalled(pass: nat, entry: EntryId, session: SessionId)
    | StopSucceeded(pass: nat, session: SessionId)
    | RestartCalled(pass: nat, entry: EntryId, host: HostId, tag: Tag, snapshot: Snapshot)

  /** `issued` counts the Restart calls of each enrollment and `inFlight` says which thread runs one for a host. */
  datatype Budget = Budget(issued: map<EntryId, nat>, inFlight: map<HostId, Thread>)

  /**
   `admitted` holds the StartSession calls past the drain check but not yet at their
   RPC; for each enrollment, `waiting` is that set of calls when it began and `started`
   the calls that reached their RPC while it lasted.
   */
  datatype Callers = Callers(
    admitted: map<Call, HostId>,
    next: Call,
    waiting: map<EntryId, set<Call>>,
    started: map<EntryId, set<Call>>)

  datatype State = State(
    drain: Drain,
    users: Users,
    locks: Locks,
    heldBy: map<LockId, Thread>,
    threads: map<Thread, Pc>,
    passes: nat,
    trace: seq<Event>,
    budget: Budget,
    callers: Callers)

  const INIT := State(Drain(map[], map[], 0), map[], Locks(map[], 0), map[], map[], 0, [], Budget(map[], map[]),
                      Callers(map[], 0, map[], map[]))

  datatype Action =
    | NewImage(thread: Thread, host: HostId, tag: Tag)
    | ConfigFetched(thread: Thread, snapshot: Option<Snapshot>)
    | EnrollHost(thread: Thread)
    | Reconcile(thread: Thread, host: HostId)
    | Acquire(thread: Thread)
    | ReadDrain(thread: Thread)
    | ListReturned(thread: Thread, sessions: Option<seq<SessionId>>)
    | Examine(thread: Thread)
    | CountReturned(thread: Thread, users: Option<int>)
    | CallStop(thread: Thread)
    | StopReturned(thread: Thread, ok: bool)
    | EndLoop(thread: Thread)
    | RestartReturned(thread: Thread, ok: bool)
    | Unlock(thread: Thread)
    | StartCheck(target: HostId)
    | StartRpc(call: Call)
    | StartFails(call: Call)
    | CacheBump(target: HostId, session: SessionId, delta: int)
    | CacheForget(target: HostId, session: SessionId)
    | CacheSeed(target: HostId, counts: Counts)
    | CacheWipe(target: HostId)

  function PcOf(s: State, t: Thread): Pc {
    if t in s.threads then s.threads[t] else Idle
  }

  function Goto(s: State, t: Thread, pc: Pc): State {
    s.(threads := s.threads[t := pc])
  }

  function Emit(s: State, e: Event): State {
    s.(trace := s.trace + [e])
  }

  function WithPass(s: State, t: Thread, p: Pass): State {
    Goto(s, t, InPass(p))
  }

  function PendingOn(c: Callers, h: HostId): set<Call> {
    set k | k in c.admitted && c.admitted[k] == h
  }

  // ---------------------------------------------------------------- the steps

  function NoteEnrollment(c: Callers, e: EntryId, h: HostId): Callers {
    c.(waiting := c.waiting[e := PendingOn(c, h)], started := c.started[e := {}])
  }

  function StepEnroll(s: State, t: Thread, h: HostId, tag: Tag, snapshot: Snapshot): State {
    if h in s.drain.targets then Goto(s, t, Idle)
    else
      var e := s.drain.next;
      Emit(Goto(s, t, Idle), Enrolled(e, h, tag, snapshot))
        .(drain := Enroll(s.drain, h, tag, snapshot),
          budget := s.budget.(issued := s.budget.issued[e := 0]),
          callers := NoteEnrollment(s.callers, e, h))
  }

  function StepExamine(s: State, t: Thread, p: Pass): State {
    if !p.at.Looping? || p.next >= |p.listed| then s
    else
      var cached := Cached(s.users, p.host, p.listed[p.next]);
      if cached.Some? && cached.value > 0 then WithPass(s, t, p.(next := p.next + 1, remaining := p.remaining + 1))
      else WithPass(s, t, p.(at := Counting))
  }

  function StepCount(s: State, t: Thread, p: Pass, users: Option<int>): State {
    if !p.at.Counting? || p.next >= |p.listed| then s
    else if users.None? then WithPass(s, t, p.(at := Looping, next := p.next + 1, remaining := p.remaining + 1))
    else
      var id := p.listed[p.next];
      var s' := Emit(s, Counted(p.id, id, users.value)).(users := Store(s.users, p.host, id, users.value));
      if users.value > 0 then WithPass(s', t, p.(at := Looping, next := p.next + 1, remaining := p.remaining + 1))
      else WithPass(s', t, p.(at := ToStop))
  }

  function StepCallStop(s: State, t: Thread, p: Pass): State {
    if !p.at.ToStop? || p.next >= |p.listed| then s
    else WithPass(Emit(s, StopCalled(p.id, p.entry, p.listed[p.next])), t, p.(at := Stopping))
  }

  function StepStopped(s: State, t: Thread, p: Pass, ok: bool): State {
    if !p.at.Stopping? || p.next >= |p.listed| then s
    else if ok then
      WithPass(Emit(s, StopSucceeded(p.id, p.listed[p.next])).(users := Forget(s.users, p.host, p.listed[p.next])), t,
               p.(at := Looping, next := p.next + 1))
    else WithPass(s, t, p.(at := Looping, next := p.next + 1, remaining := p.remaining + 1))
  }

  /** One more Restart call of enrollment `e`, running on `h`. */
  function Issue(b: Budget, e: EntryId, h: HostId, t: Thread): Budget {
    Budget(b.issued[e := (if e in b.issued then b.issued[e] else 0) + 1], b.inFlight[h := t])
  }

  function StepEndLoop(s: State, t: Thread, p: Pass): State {
    if !p.at.Looping? || p.next < |p.listed| then s
    else if p.remaining > 0 || p.entry !in s.drain.entries then Goto(s, t, Unlocking(p.host, p.lock))
    else
      var e := s.drain.entries[p.entry];
      WithPass(Emit(s, RestartCalled(p.id, p.entry, p.host, e.tag, e.snapshot)), t, p.(at := Restarting))
        .(budget := Issue(s.budget, p.entry, p.host, t))
  }

  function StepRestarted(s: State, t: Thread, p: Pass, ok: bool): State {
    if !p.at.Restarting? then s
    else
      Goto(s, t, Unlocking(p.host, p.lock))
        .(drain := if ok then Leave(s.drain, p.host) else RecordFailure(s.drain, p.host),
          users := if ok || GivesUp(s.drain, p.host) then s.users - {p.host} else s.users,
          budget := s.budget.(inFlight := s.budget.inFlight - {p.host}))
  }

  function StepList(s: State, t: Thread, p: Pass, sessions: Option<seq<SessionId>>): State {
    if !p.at.Listing? then s
    else if sessions.None? then Goto(s, t, Unlocking(p.host, p.lock))
    else WithPass(Emit(s, Listed(p.id, p.host, sessions.value)), t, p.(listed := sessions.value, at := Looping))
  }

  /** The steps of a running pass. */
  function StepPass(s: State, a: Action, t: Thread, p: Pass): State {
    match a
    case ListReturned(_, sessions) => StepList(s, t, p, sessions)
    case Examine(_) => StepExamine(s, t, p)
    case CountReturned(_, users) => StepCount(s, t, p, users)
    case CallStop(_) => StepCallStop(s, t, p)
    case StopReturned(_, ok) => StepStopped(s, t, p, ok)
    case EndLoop(_) => StepEndLoop(s, t, p)
    case RestartReturned(_, ok) => StepRestarted(s, t, p, ok)
    case _ => s
  }

  /** The steps around the lock. */
  function StepOutside(s: State, a: Action, t: Thread): State {
    var pc := PcOf(s, t);
    match a
    case NewImage(_, h, tag) => if pc.Idle? && h !in s.drain.targets then Goto(s, t, Fetching(h, tag)) else s
    case ConfigFetched(_, snapshot) =>
      if !pc.Fetching? then s
      else if snapshot.None? then Goto(s, t, Idle)
      else Emit(Goto(s, t, Snapped(pc.host, pc.tag, snapshot.value)), Captured(pc.host, snapshot.value))
    case EnrollHost(_) => if pc.Snapped? then StepEnroll(s, t, pc.host, pc.tag, pc.snapshot) else s
    case Reconcile(_, h) =>
      if pc.Idle? then Goto(s, t, Wanting(h, LockFor(s.locks, h).table[h])).(locks := LockFor(s.locks, h)) else s
    case Acquire(_) =>
      if pc.Wanting? && pc.lock !in s.heldBy then
          Goto(s, t, Locked(pc.host, pc.lock)).(heldBy := s.heldBy[pc.lock := t]) else s
    case ReadDrain(_) =>
      if !pc.Locked? then s
      else if pc.host !in s.drain.targets then Goto(s, t, Unlocking(pc.host, pc.lock))
      else WithPass(s, t, Pass(s.passes, pc.host, pc.lock, s.drain.targets[pc.host], [], 0, 0, Listing)).(passes :=
            s.passes + 1)
    case Unlock(_) => if pc.Unlocking? then Goto(s, t, Idle).(heldBy := s.heldBy - {pc.lock}) else s
    case _ => s
  }

  /** The call `k` reaches StartWorld; if its host is being drained the enrollment notes it. */
  function StartCall(c: Callers, k: Call, d: Drain): Callers {
    if k !in c.admitted then c
    else
      var h := c.admitted[k];
      var c' := c.(admitted := c.admitted - {k});
      if h in d.targets && d.targets[h] in c.started then
        c'.(started := c.started[d.targets[h] := c.started[d.targets[h]] + {k}])
      else c'
  }

  /** StartSession's drain check: a draining host rejects the call before anything else happens. */
  function Admit(c: Callers, h: HostId, d: Drain): Callers {
    if h in d.targets then c.(next := c.next + 1)
    else c.(admitted := c.admitted[c.next := h], next := c.next + 1)
  }

  function Step(s: State, a: Action): State {
    match a
    case StartCheck(h) => s.(callers := Admit(s.callers, h, s.drain))
    case StartRpc(k) => s.(callers := StartCall(s.callers, k, s.drain))
    case StartFails(k) => s.(callers := s.callers.(admitted := s.callers.admitted - {k}))
    case CacheBump(h, id, delta) => s.(users := Bump(s.users, h, id, delta))
    case CacheForget(h, id) => s.(users := Forget(s.users, h, id))
    case CacheSeed(h, counts) => s.(users := s.users[h := counts])
    case CacheWipe(h) => s.(users := s.users - {h})
    case _ => if PcOf(s, a.thread).InPass? then StepPass(s, a, a.thread, PcOf(s, a.thread).pass)
      else StepOutside(s, a, a.thread)
  }

  function Exec(s: State, acts: seq<Action>): State
    decreases |acts|
  {
    if acts == [] then s else Step(Exec(s, acts[..|acts| - 1]), acts[|acts| - 1])
  }

  // ---------------------------------------------------------------- what a step can do to the protocol state

  /** The parts the protocol's invariants speak of; the cache, the trace and the callers are left aside. */
  predicate SameControl(s: State, s': State) {
    s'.drain == s.drain && s'.locks == s.locks && s'.heldBy == s.heldBy && s'.budget == s.budget
  }

  predicate Free(pc: Pc) {
    pc.Idle? || pc.Fetching? || pc.Snapped?
  }

  /** A move that takes and gives up nothing: no lock, no entry, no restart. */
  predicate Shift(a: Pc, b: Pc) {
    || (Free(a) && Free(b))
    || (a.InPass? && b.InPass? && a.pass.host == b.pass.host && a.pass.lock == b.pass.lock
        && a.pass.entry == b.pass.entry &&
        !a.pass.at.Restarting? && !b.pass.at.Restarting?)
    || (a.Locked? && b == Unlocking(a.host, a.lock))
    || (a.InPass? && !a.pass.at.Restarting? && b == Unlocking(a.pass.host, a.pass.lock))
  }

  datatype Kind = Still | Shifts | Enrolls | Waits | Acquires | Reads | Restarts | Returns | Unlocks

  /** Thread `t` went from its program counter to `pc` in a step of the given kind, and nobody else moved. */
  predicate ControlStep(s: State, s': State, t: Thread, pc: Pc, kind: Kind) {
    var was := PcOf(s, t);
    s'.threads == (if kind.Still? then s.threads else s.threads[t := pc]) &&
    match kind
    case Still => SameControl(s, s')
    case Shifts => SameControl(s, s') && Shift(was, pc)
    case Enrolls =>
      was.Snapped? && pc.Idle? && was.host !in s.drain.targets &&
      s'.drain == Enroll(s.drain, was.host, was.tag, was.snapshot) &&
      s'.budget == s.budget.(issued := s.budget.issued[s.drain.next := 0]) && s'.locks == s.locks
        && s'.heldBy == s.heldBy
    case Waits =>
      was.Idle? && pc.Wanting? && s'.locks == LockFor(s.locks, pc.host) && pc.lock == s'.locks.table[pc.host] &&
      s'.drain == s.drain && s'.budget == s.budget && s'.heldBy == s.heldBy
    case Acquires =>
      was.Wanting? && pc == Locked(was.host, was.lock) && was.lock !in s.heldBy
        && s'.heldBy == s.heldBy[was.lock := t] &&
      s'.drain == s.drain && s'.budget == s.budget && s'.locks == s.locks
    case Reads =>
      was.Locked? && was.host in s.drain.targets && SameControl(s, s') &&
      pc == InPass(Pass(s.passes, was.host, was.lock, s.drain.targets[was.host], [], 0, 0, Listing))
    case Restarts =>
      was.InPass? && was.pass.at.Looping? && pc == InPass(was.pass.(at := Restarting)) &&
      s'.budget == Issue(s.budget, was.pass.entry, was.pass.host, t) &&
      s'.drain == s.drain && s'.locks == s.locks && s'.heldBy == s.heldBy
    case Returns =>
      was.InPass? && was.pass.at.Restarting? && pc == Unlocking(was.pass.host, was.pass.lock) &&
      s'.budget == s.budget.(inFlight := s.budget.inFlight - {was.pass.host}) &&
      (s'.drain == Leave(s.drain, was.pass.host) || s'.drain == RecordFailure(s.drain, was.pass.host)) &&
      s'.locks == s.locks && s'.heldBy == s.heldBy
    case Unlocks =>
      was.Unlocking? && pc.Idle? && s'.heldBy == s.heldBy - {was.lock} &&
      s'.drain == s.drain && s'.budget == s.budget && s'.locks == s.locks
  }

  function Actor(a: Action): Thread {
    match a
    case StartCheck(_) => 0
    case StartRpc(_) => 0
    case StartFails(_) => 0
    case CacheBump(_, _, _) => 0
    case CacheForget(_, _) => 0
    case CacheSeed(_, _) => 0
    case CacheWipe(_) => 0
    case _ => a.thread
  }

  lemma CountShifts(s: State, t: Thread, p: Pass, users: Option<int>)
    requires PcOf(s, t) == InPass(p)
    ensures var s' := StepCount(s, t, p, users); s' == s || ControlStep(s, s', t, PcOf(s', t), Shifts)
  {
  }

  lemma StoppedShifts(s: State, t: Thread, p: Pass, ok: bool)
    requires PcOf(s, t) == InPass(p)
    ensures var s' := StepStopped(s, t, p, ok); s' == s || ControlStep(s, s', t, PcOf(s', t), Shifts)
    ensures var s' := StepCallStop(s, t, p); s' == s || ControlStep(s, s', t, PcOf(s', t), Shifts)
  {
  }

  lemma ListShifts(s: State, t: Thread, p: Pass, sessions: Option<seq<SessionId>>)
    requires PcOf(s, t) == InPass(p)
    ensures var s' := StepList(s, t, p, sessions); s' == s || ControlStep(s, s', t, PcOf(s', t), Shifts)
    ensures var s' := StepExamine(s, t, p); s' == s || ControlStep(s, s', t, PcOf(s', t), Shifts)
  {
  }

  lemma EndLoopControl(s: State, t: Thread, p: Pass) returns (kind: Kind)
    requires PcOf(s, t) == InPass(p)
    ensures ControlStep(s, StepEndLoop(s, t, p), t, PcOf(StepEndLoop(s, t, p), t), kind)
  {
    var s' := StepEndLoop(s, t, p);
    kind := if s' == s then Still else if PcOf(s', t).InPass? then Restarts else Shifts;
  }

  lemma RestartedControl(s: State, t: Thread, p: Pass, ok: bool) returns (kind: Kind)
    requires PcOf(s, t) == InPass(p)
    ensures ControlStep(s, StepRestarted(s, t, p, ok), t, PcOf(StepRestarted(s, t, p, ok), t), kind)
  {
    kind := if StepRestarted(s, t, p, ok) == s then Still else Returns;
  }

  lemma PassControl(s: State, a: Action, t: Thread, p: Pass) returns (kind: Kind)
    requires PcOf(s, t) == InPass(p)
    ensures ControlStep(s, StepPass(s, a, t, p), t, PcOf(StepPass(s, a, t, p), t), kind)
  {
    kind := if StepPass(s, a, t, p) == s then Still else Shifts;
    match a
    case ListReturned(_, sessions) => ListShifts(s, t, p, sessions);
    case Examine(_) => ListShifts(s, t, p, None);
    case CountReturned(_, users) => CountShifts(s, t, p, users);
    case CallStop(_) => StoppedShifts(s, t, p, true);
    case StopReturned(_, ok) => StoppedShifts(s, t, p, ok);
    case EndLoop(_) => kind := EndLoopControl(s, t, p);
    case RestartReturned(_, ok) => kind := RestartedControl(s, t, p, ok);
    case _ =>
  }

  lemma OutsideControl(s: State, a: Action, t: Thread) returns (kind: Kind)
    requires !PcOf(s, t).InPass?
    ensures ControlStep(s, StepOutside(s, a, t), t, PcOf(StepOutside(s, a, t), t), kind)
  {
    var s' := StepOutside(s, a, t);
    var was, pc := PcOf(s, t), PcOf(s', t);
    kind := if s' == s then Still
            else if pc.Wanting? then Waits
            else if pc.Locked? then Acquires
            else if pc.InPass? then Reads
            else if was.Unlocking? then Unlocks
            else if was.Snapped? && was.host !in s.drain.targets then Enrolls
            else Shifts;
  }

  lemma StepIsControl(s: State, a: Action) returns (kind: Kind)
    ensures ControlStep(s, Step(s, a), Actor(a), PcOf(Step(s, a), Actor(a)), kind)
  {
    if a.StartCheck? || a.StartRpc? || a.StartFails? || a.CacheBump? || a.CacheForget? || a.CacheSeed? || a.CacheWipe? {
      kind := Still;
    } else if PcOf(s, a.thread).InPass? {
      kind := PassControl(s, a, a.thread, PcOf(s, a.thread).pass);
    } else {
      kind := OutsideControl(s, a, a.thread);
    }
  }

  // ---------------------------------------------------------------- per-host mutual exclusion

  predicate InRegion(pc: Pc) {
    pc.Locked? || pc.Unlocking? || pc.InPass?
  }

  function HostOf(pc: Pc): HostId
    requires InRegion(pc)
  {
    if pc.InPass? then pc.pass.host else pc.host
  }

  function LockOf(pc: Pc): LockId
    requires InRegion(pc)
  {
    if pc.InPass? then pc.pass.lock else pc.lock
  }

  predicate KnowsLock(s: State, h: HostId, l: LockId) {
    h in s.locks.table && s.locks.table[h] == l
  }

  predicate LockOk(s: State, t: Thread) {
    var pc := PcOf(s, t);
    && (pc.Wanting? ==> KnowsLock(s, pc.host, pc.lock))
    && (InRegion(pc) ==> KnowsLock(s, HostOf(pc), LockOf(pc)) && LockOf(pc) in s.heldBy && s.heldBy[LockOf(pc)] == t)
  }

  ghost predicate LockInv(s: State) {
    && (forall t :: LockOk(s, t))
    && (forall h :: h in s.locks.table ==> s.locks.table[h] < s.locks.next)
    && (forall h, h' :: h in s.locks.table && h' in s.locks.table && s.locks.table[h] == s.locks.table[h'] ==> h == h')
  }

  /** Two threads in one host's critical region are one thread. */
  lemma Exclusive(s: State, t: Thread, t': Thread)
    requires LockInv(s) && InRegion(PcOf(s, t)) && InRegion(PcOf(s, t')) && HostOf(PcOf(s, t)) == HostOf(PcOf(s, t'))
    ensures t == t'
  {
    assert LockOk(s, t) && LockOk(s, t');
  }

  lemma LockStep(s: State, s': State, t: Thread, pc: Pc, kind: Kind)
    requires LockInv(s) && ControlStep(s, s', t, pc, kind)
    ensures LockInv(s')
  {
    forall u ensures LockOk(s', u) {
      assert LockOk(s, u) && LockOk(s, t);
    }
  }

  // ---------------------------------------------------------------- the drain entry a pass works on

  predicate OwnsEntry(s: State, p: Pass) {
    p.host in s.drain.targets && s.drain.targets[p.host] == p.entry
  }

  predicate EntryOk(d: Drain, h: HostId) {
    h in d.targets ==>
      d.targets[h] in d.entries && d.entries[d.targets[h]].host == h
        && d.entries[d.targets[h]].attempts < MAX_RESTART_ATTEMPTS
  }

  predicate PassOwns(s: State, t: Thread) {
    PcOf(s, t).InPass? ==> OwnsEntry(s, PcOf(s, t).pass)
  }

  ghost predicate DrainInv(s: State) {
    && (forall h :: EntryOk(s.drain, h))
    && (forall e :: e in s.drain.entries ==> e < s.drain.next)
    && (forall t :: PassOwns(s, t))
  }

  /**
   Only the holder of a host's reconcile lock ends its enrollment, so the entry a pass has read
   stays the current one.
   */
  lemma DrainStep(s: State, s': State, t: Thread, pc: Pc, kind: Kind)
    requires LockInv(s) && DrainInv(s) && ControlStep(s, s', t, pc, kind)
    ensures DrainInv(s')
  {
    forall h ensures EntryOk(s'.drain, h) {
      assert EntryOk(s.drain, h);
      if kind.Returns? {
        assert EntryOk(s.drain, PcOf(s, t).pass.host);
      }
    }
    forall u ensures PassOwns(s', u) {
      assert PassOwns(s, u) && PassOwns(s, t);
      if kind.Returns? && u != t && PcOf(s, u).InPass? && PcOf(s, u).pass.host == PcOf(s, t).pass.host {
        Exclusive(s, t, u);
      }
    }
  }

  // ---------------------------------------------------------------- restart budget

  predicate Balanced(s: State, h: HostId) {
    h in s.drain.targets ==>
      var e := s.drain.targets[h];
      e in s.drain.entries && e in s.budget.issued &&
      s.budget.issued[e] == s.drain.entries[e].attempts + (if h in s.budget.inFlight then 1 else 0)
  }

  predicate FlightOk(s: State, t: Thread) {
    PcOf(s, t).InPass? && PcOf(s, t).pass.at.Restarting? ==>
      PcOf(s, t).pass.host in s.budget.inFlight && s.budget.inFlight[PcOf(s, t).pass.host] == t
  }

  predicate Flying(s: State, h: HostId) {
    h in s.budget.inFlight ==>
      var pc := PcOf(s, s.budget.inFlight[h]);
      pc.InPass? && pc.pass.at.Restarting? && pc.pass.host == h && h in s.drain.targets
  }

  ghost predicate BudgetInv(s: State) {
    && s.budget.issued.Keys == s.drain.entries.Keys
    && (forall e :: e in s.budget.issued ==> s.budget.issued[e] <= MAX_RESTART_ATTEMPTS)
    && (forall h :: Balanced(s, h))
    && (forall t :: FlightOk(s, t))
    && (forall h :: Flying(s, h))
  }

  /** A restart of `h` by another thread keeps `t` out of the critical region of `h`. */
  lemma NotFlying(s: State, t: Thread)
    requires LockInv(s) && BudgetInv(s) && InRegion(PcOf(s, t)) && HostOf(PcOf(s, t)) in s.budget.inFlight
    ensures PcOf(s, t).InPass? && PcOf(s, t).pass.at.Restarting?
  {
    var h := HostOf(PcOf(s, t));
    assert Flying(s, h);
    Exclusive(s, t, s.budget.inFlight[h]);
  }

  lemma FlightStep(s: State, s': State, t: Thread, pc: Pc, kind: Kind)
    requires LockInv(s) && DrainInv(s) && BudgetInv(s) && ControlStep(s, s', t, pc, kind)
    ensures forall u :: FlightOk(s', u)
    ensures forall h :: Flying(s', h)
  {
    var was := PcOf(s, t);
    assert PassOwns(s, t) && FlightOk(s, t);
    if InRegion(was) && !(was.InPass? && was.pass.at.Restarting?) && HostOf(was) in s.budget.inFlight {
      NotFlying(s, t);
    }
    forall h ensures Flying(s', h) {
      assert Flying(s, h);
    }
    forall u ensures FlightOk(s', u) {
      assert FlightOk(s, u);
      if kind.Restarts? && u != t && InRegion(PcOf(s, u)) && HostOf(PcOf(s, u)) == HostOf(was) {
        Exclusive(s, t, u);
      }
      if kind.Returns? && u != t && InRegion(PcOf(s, u)) && HostOf(PcOf(s, u)) == HostOf(was) {
        Exclusive(s, t, u);
      }
    }
  }

  lemma BudgetStep(s: State, s': State, t: Thread, pc: Pc, kind: Kind)
    requires LockInv(s) && DrainInv(s) && BudgetInv(s) && ControlStep(s, s', t, pc, kind)
    ensures BudgetInv(s')
  {
    var was := PcOf(s, t);
    FlightStep(s, s', t, pc, kind);
    if was.InPass? {
      assert PassOwns(s, t) && FlightOk(s, t) && Balanced(s, was.pass.host) && EntryOk(s.drain, was.pass.host);
      if !was.pass.at.Restarting? && was.pass.host in s.budget.inFlight {
        NotFlying(s, t);
      }
    }
    forall h ensures Balanced(s', h) {
      assert Balanced(s, h) && EntryOk(s.drain, h) && Flying(s, h);
    }
  }

  // ---------------------------------------------------------------- the trace

  predicate Unlisted(past: seq<Event>, pass: nat) {
    forall i :: 0 <= i < |past| && past[i].Listed? ==> past[i].pass != pass
  }

  predicate Unenrolled(past: seq<Event>, e: EntryId) {
    forall i :: 0 <= i < |past| && past[i].Enrolled? ==> past[i].entry < e
  }

  predicate AllStopped(past: seq<Event>, pass: nat, sessions: seq<SessionId>) {
    forall j :: 0 <= j < |sessions| ==> StopSucceeded(pass, sessions[j]) in past
  }

  /** What must have happened before an external call. */
  ghost predicate Justified(past: seq<Event>, ev: Event) {
    match ev
    case Enrolled(e, h, _, snapshot) => Captured(h, snapshot) in past && Unenrolled(past, e)
    case Listed(p, _, _) => Unlisted(past, p)
    case StopCalled(p, e, id) =>
      (exists n :: n <= 0 && Counted(p, id, n) in past)
        && (exists h, tag, snapshot :: Enrolled(e, h, tag, snapshot) in past)
    case RestartCalled(p, e, h, tag, snapshot) =>
      && Enrolled(e, h, tag, snapshot) in past
      && exists sessions :: Listed(p, h, sessions) in past && AllStopped(past, p, sessions)
    case _ => true
  }

  ghost predicate TraceOk(tr: seq<Event>) {
    forall i :: 0 <= i < |tr| ==> Justified(tr[..i], tr[i])
  }

  lemma TraceGrows(tr: seq<Event>, ev: Event)
    requires TraceOk(tr) && Justified(tr, ev)
    ensures TraceOk(tr + [ev])
  {
    var tr' := tr + [ev];
    forall i | 0 <= i < |tr'| ensures Justified(tr'[..i], tr'[i]) {
      assert tr'[..i] == if i < |tr| then tr[..i] else tr;
    }
  }

  /** What the trace says about a running pass. */
  ghost predicate PassTrace(tr: seq<Event>, p: Pass) {
    && p.next <= |p.listed|
    && (if p.at.Listing? then Unlisted(tr, p.id) && p.listed == [] else Listed(p.id, p.host, p.listed) in tr)
    && (p.remaining == 0 ==> AllStopped(tr, p.id, p.listed[..p.next]))
    && (p.at.ToStop? ==> p.next < |p.listed| && exists n :: n <= 0 && Counted(p.id, p.listed[p.next], n) in tr)
  }

  ghost predicate ThreadTrace(tr: seq<Event>, pc: Pc) {
    && (pc.Snapped? ==> Captured(pc.host, pc.snapshot) in tr)
    && (pc.InPass? ==> PassTrace(tr, pc.pass))
  }

  predicate EntryTrace(tr: seq<Event>, d: Drain, e: EntryId) {
    e in d.entries ==> Enrolled(e, d.entries[e].host, d.entries[e].tag, d.entries[e].snapshot) in tr
  }

  predicate PassNumbered(s: State, t: Thread) {
    PcOf(s, t).InPass? ==> PcOf(s, t).pass.id < s.passes
  }

  ghost predicate TraceInv(s: State) {
    && TraceOk(s.trace)
    && (forall t :: ThreadTrace(s.trace, PcOf(s, t)))
    && (forall e :: EntryTrace(s.trace, s.drain, e))
    && Unenrolled(s.trace, s.drain.next)
    && (forall i :: 0 <= i < |s.trace| && s.trace[i].Listed? ==> s.trace[i].pass < s.passes)
    && (forall t :: PassNumbered(s, t))
    && (forall t, t' :: PcOf(s, t).InPass? && PcOf(s, t').InPass? && PcOf(s, t).pass.id == PcOf(s, t').pass.id ==>
        t == t')
  }

  /** Appending keeps what the trace says about a thread, unless it lists a pass that still has to list. */
  lemma ThreadTraceGrows(tr: seq<Event>, ev: Event, pc: Pc)
    requires ThreadTrace(tr, pc)
    requires ev.Listed? && pc.InPass? ==> pc.pass.id != ev.pass
    ensures ThreadTrace(tr + [ev], pc)
  {
  }

  /** The new event of a step, if any, and what it must satisfy for the trace invariant to survive. */
  ghost predicate EmitOk(s: State, s': State, t: Thread) {
    || s'.trace == s.trace
    || (|s'.trace| == |s.trace| + 1 && s'.trace == s.trace + [s'.trace[|s.trace|]] &&
        var ev := s'.trace[|s.trace|];
        Justified(s.trace, ev) &&
        (ev.Enrolled? ==> ev.entry == s.drain.next && ev.entry < s'.drain.next) &&
        (ev.Listed? ==> PcOf(s, t).InPass? && PcOf(s, t).pass.id == ev.pass))
  }

  lemma TraceFrame(s: State, s': State, t: Thread)
    requires TraceInv(s) && EmitOk(s, s', t)
    requires forall u :: u != t ==> PcOf(s', u) == PcOf(s, u)
    requires ThreadTrace(s'.trace, PcOf(s', t))
    requires forall e :: EntryTrace(s'.trace, s'.drain, e)
    requires s.drain.next <= s'.drain.next && s.passes <= s'.passes
    requires PcOf(s', t).InPass? ==>
               if PcOf(s, t).InPass? then PcOf(s', t).pass.id == PcOf(s, t).pass.id
               else PcOf(s', t).pass.id == s.passes && s.passes < s'.passes
    ensures TraceInv(s')
  {
    if s'.trace != s.trace {
      TraceGrows(s.trace, s'.trace[|s.trace|]);
    }
    forall u ensures ThreadTrace(s'.trace, PcOf(s', u)) {
      if u != t && s'.trace != s.trace {
        ThreadTraceGrows(s.trace, s'.trace[|s.trace|], PcOf(s, u));
      }
    }
    forall u ensures PassNumbered(s', u) {
      assert PassNumbered(s, u) && PassNumbered(s, t);
    }
    forall u, v | PcOf(s', u).InPass? && PcOf(s', v).InPass?
      && PcOf(s', u).pass.id == PcOf(s', v).pass.id ensures u == v {
      assert PassNumbered(s, u) && PassNumbered(s, v);
    }
  }

  lemma EntryTraceGrows(tr: seq<Event>, tr': seq<Event>, d: Drain, d': Drain)
    requires forall e :: EntryTrace(tr, d, e)
    requires forall ev :: ev in tr ==> ev in tr'
    requires forall e :: e in d'.entries ==>
               e in d.entries && d'.entries[e].host == d.entries[e].host && d'.entries[e].tag == d.entries[e].tag &&
               d'.entries[e].snapshot == d.entries[e].snapshot
    ensures forall e :: EntryTrace(tr', d', e)
  {
    forall e ensures EntryTrace(tr', d', e) {
      assert EntryTrace(tr, d, e);
    }
  }

  lemma TraceList(s: State, t: Thread, p: Pass, sessions: Option<seq<SessionId>>)
    requires TraceInv(s) && PcOf(s, t) == InPass(p)
    ensures TraceInv(StepList(s, t, p, sessions))
  {
    var s' := StepList(s, t, p, sessions);
    assert ThreadTrace(s.trace, PcOf(s, t));
    EntryTraceGrows(s.trace, s'.trace, s.drain, s'.drain);
    TraceFrame(s, s', t);
  }

  lemma TraceExamine(s: State, t: Thread, p: Pass)
    requires TraceInv(s) && PcOf(s, t) == InPass(p)
    ensures TraceInv(StepExamine(s, t, p))
  {
    assert ThreadTrace(s.trace, PcOf(s, t));
    TraceFrame(s, StepExamine(s, t, p), t);
  }

  lemma TraceCount(s: State, t: Thread, p: Pass, users: Option<int>)
    requires TraceInv(s) && PcOf(s, t) == InPass(p)
    ensures TraceInv(StepCount(s, t, p, users))
  {
    var s' := StepCount(s, t, p, users);
    assert ThreadTrace(s.trace, PcOf(s, t));
    if s'.trace != s.trace {
      assert Counted(p.id, p.listed[p.next], users.value) in s'.trace;
    }
    EntryTraceGrows(s.trace, s'.trace, s.drain, s'.drain);
    TraceFrame(s, s', t);
  }

  lemma TraceCallStop(s: State, t: Thread, p: Pass)
    requires TraceInv(s) && DrainInv(s) && PcOf(s, t) == InPass(p)
    ensures TraceInv(StepCallStop(s, t, p))
  {
    var s' := StepCallStop(s, t, p);
    assert ThreadTrace(s.trace, PcOf(s, t)) && PassOwns(s, t) && EntryOk(s.drain, p.host)
           && EntryTrace(s.trace, s.drain, p.entry);
    EntryTraceGrows(s.trace, s'.trace, s.drain, s'.drain);
    TraceFrame(s, s', t);
  }

  lemma TraceStopped(s: State, t: Thread, p: Pass, ok: bool)
    requires TraceInv(s) && PcOf(s, t) == InPass(p)
    ensures TraceInv(StepStopped(s, t, p, ok))
  {
    var s' := StepStopped(s, t, p, ok);
    assert ThreadTrace(s.trace, PcOf(s, t));
    if p.at.Stopping? && p.next < |p.listed| && ok {
      assert p.listed[..p.next + 1] == p.listed[..p.next] + [p.listed[p.next]];
    }
    EntryTraceGrows(s.trace, s'.trace, s.drain, s'.drain);
    TraceFrame(s, s', t);
  }

  lemma TraceEndLoop(s: State, t: Thread, p: Pass)
    requires TraceInv(s) && DrainInv(s) && PcOf(s, t) == InPass(p)
    ensures TraceInv(StepEndLoop(s, t, p))
  {
    var s' := StepEndLoop(s, t, p);
    assert ThreadTrace(s.trace, PcOf(s, t)) && PassOwns(s, t) && EntryOk(s.drain, p.host)
           && EntryTrace(s.trace, s.drain, p.entry);
    if s'.trace != s.trace {
      assert p.listed[..p.next] == p.listed;
      assert Listed(p.id, p.host, p.listed) in s.trace && AllStopped(s.trace, p.id, p.listed);
    }
    EntryTraceGrows(s.trace, s'.trace, s.drain, s'.drain);
    TraceFrame(s, s', t);
  }

  lemma TraceRestarted(s: State, t: Thread, p: Pass, ok: bool)
    requires TraceInv(s) && PcOf(s, t) == InPass(p)
    ensures TraceInv(StepRestarted(s, t, p, ok))
  {
    var s' := StepRestarted(s, t, p, ok);
    EntryTraceGrows(s.trace, s'.trace, s.drain, s'.drain);
    TraceFrame(s, s', t);
  }

  /** The invariant reads the trace, the drain table, the threads and the pass counter only. */
  lemma TraceSame(s: State, s': State)
    requires TraceInv(s) && s'.trace == s.trace && s'.drain == s.drain && s'.threads == s.threads
             && s'.passes == s.passes
    ensures TraceInv(s')
  {
    forall u ensures PcOf(s', u) == PcOf(s, u) && ThreadTrace(s'.trace, PcOf(s', u)) && PassNumbered(s', u) {
      assert ThreadTrace(s.trace, PcOf(s, u)) && PassNumbered(s, u);
    }
  }

  lemma TraceFetched(s: State, t: Thread, snapshot: Option<Snapshot>)
    requires TraceInv(s) && !PcOf(s, t).InPass?
    ensures TraceInv(StepOutside(s, ConfigFetched(t, snapshot), t))
  {
    var s' := StepOutside(s, ConfigFetched(t, snapshot), t);
    EntryTraceGrows(s.trace, s'.trace, s.drain, s'.drain);
    TraceFrame(s, s', t);
  }

  lemma TraceSilent(s: State, a: Action, t: Thread)
    requires TraceInv(s) && !PcOf(s, t).InPass? && !a.EnrollHost? && !a.ConfigFetched?
    ensures TraceInv(StepOutside(s, a, t))
  {
    var s' := StepOutside(s, a, t);
    assert s'.trace == s.trace && s'.drain == s.drain;
    TraceFrame(s, s', t);
  }

  lemma TraceEnroll(s: State, t: Thread)
    requires TraceInv(s) && DrainInv(s) && PcOf(s, t).Snapped?
    ensures var pc := PcOf(s, t); TraceInv(StepEnroll(s, t, pc.host, pc.tag, pc.snapshot))
  {
    var pc := PcOf(s, t);
    var s' := StepEnroll(s, t, pc.host, pc.tag, pc.snapshot);
    assert ThreadTrace(s.trace, pc);
    forall e ensures EntryTrace(s'.trace, s'.drain, e) {
      assert EntryTrace(s.trace, s.drain, e);
    }
    TraceFrame(s, s', t);
  }

  lemma TraceStep(s: State, a: Action)
    requires TraceInv(s) && DrainInv(s)
    ensures TraceInv(Step(s, a))
  {
    var t := Actor(a);
    if a.StartCheck? || a.StartRpc? || a.StartFails? || a.CacheBump? || a.CacheForget? || a.CacheSeed? || a.CacheWipe? {
      TraceSame(s, Step(s, a));
    } else if PcOf(s, t).InPass? {
      var p := PcOf(s, t).pass;
      match a
      case ListReturned(_, sessions) => TraceList(s, t, p, sessions);
      case Examine(_) => TraceExamine(s, t, p);
      case CountReturned(_, users) => TraceCount(s, t, p, users);
      case CallStop(_) => TraceCallStop(s, t, p);
      case StopReturned(_, ok) => TraceStopped(s, t, p, ok);
      case EndLoop(_) => TraceEndLoop(s, t, p);
      case RestartReturned(_, ok) => TraceRestarted(s, t, p, ok);
      case _ =>
    } else if a.EnrollHost? {
      if PcOf(s, t).Snapped? {
        TraceEnroll(s, t);
      }
    } else if a.ConfigFetched? {
      TraceFetched(s, t, a.snapshot);
    } else {
      TraceSilent(s, a, t);
    }
  }

  // ---------------------------------------------------------------- admission of new sessions

  /** Enrollment `e` is the one its host is in now. */
  predicate Current(d: Drain, e: EntryId) {
    e in d.entries && d.entries[e].host in d.targets && d.targets[d.entries[e].host] == e
  }

  predicate CallersOk(c: Callers, d: Drain, e: EntryId) {
    e in c.started ==>
      e in c.waiting && c.started[e] <= c.waiting[e] &&
      (Current(d, e) ==>
         PendingOn(c, d.entries[e].host) <= c.waiting[e] && PendingOn(c, d.entries[e].host) !! c.started[e])
  }

  ghost predicate AdmissionInv(c: Callers, d: Drain) {
    && c.started.Keys == d.entries.Keys
    && (forall k :: k in c.admitted ==> k < c.next)
    && (forall e :: e in c.started ==> forall k :: k in c.started[e] ==> k < c.next)
    && (forall e :: CallersOk(c, d, e))
  }

  lemma AdmissionShrinks(c: Callers, d: Drain, d': Drain)
    requires AdmissionInv(c, d)
    requires d'.entries.Keys == d.entries.Keys
             && (forall e :: e in d.entries ==> d'.entries[e].host == d.entries[e].host)
    requires forall h :: h in d'.targets ==> h in d.targets && d'.targets[h] == d.targets[h]
    ensures AdmissionInv(c, d')
  {
    forall e ensures CallersOk(c, d', e) {
      assert CallersOk(c, d, e) && (Current(d', e) ==> Current(d, e));
    }
  }

  lemma AdmissionEnrolls(c: Callers, d: Drain, h: HostId, tag: Tag, snapshot: Snapshot)
    requires AdmissionInv(c, d) && h !in d.targets
    requires (forall e :: e in d.entries ==> e < d.next) && (forall g :: g in d.targets ==> d.targets[g] in d.entries)
    ensures AdmissionInv(NoteEnrollment(c, d.next, h), Enroll(d, h, tag, snapshot))
  {
    var c', d' := NoteEnrollment(c, d.next, h), Enroll(d, h, tag, snapshot);
    forall e ensures CallersOk(c', d', e) {
      assert CallersOk(c, d, e);
      if e in c.started && Current(d', e) {
        assert Current(d, e);
        assert PendingOn(c', d'.entries[e].host) == PendingOn(c, d.entries[e].host);
      }
      assert PendingOn(c', h) == PendingOn(c, h);
    }
  }

  lemma AdmissionStarts(c: Callers, d: Drain, k: Call)
    requires AdmissionInv(c, d) && (forall g :: EntryOk(d, g))
    ensures AdmissionInv(StartCall(c, k, d), d)
  {
    var c' := StartCall(c, k, d);
    forall e ensures CallersOk(c', d, e) {
      assert CallersOk(c, d, e);
      if k in c.admitted {
        assert EntryOk(d, c.admitted[k]);
        if e in d.entries {
          var g := d.entries[e].host;
          assert PendingOn(c', g) == PendingOn(c, g) - {k};
          assert c.admitted[k] == g ==> k in PendingOn(c, g);
        }
      }
    }
  }

  lemma AdmissionFails(c: Callers, d: Drain, k: Call)
    requires AdmissionInv(c, d)
    ensures AdmissionInv(c.(admitted := c.admitted - {k}), d)
  {
    var c' := c.(admitted := c.admitted - {k});
    forall e ensures CallersOk(c', d, e) {
      assert CallersOk(c, d, e);
      if e in d.entries {
        assert PendingOn(c', d.entries[e].host) == PendingOn(c, d.entries[e].host) - {k};
      }
    }
  }

  lemma AdmissionAdmits(c: Callers, d: Drain, h: HostId)
    requires AdmissionInv(c, d)
    ensures AdmissionInv(Admit(c, h, d), d)
  {
    var c' := Admit(c, h, d);
    forall e ensures CallersOk(c', d, e) {
      assert CallersOk(c, d, e);
      if e in d.entries {
        var g := d.entries[e].host;
        assert PendingOn(c', g) == PendingOn(c, g) + (if h !in d.targets && h == g then {c.next} else {});
      }
    }
  }

  lemma AdmissionEnrollStep(s: State, t: Thread)
    requires AdmissionInv(s.callers, s.drain) && DrainInv(s)
    ensures AdmissionInv(StepOutside(s, EnrollHost(t), t).callers, StepOutside(s, EnrollHost(t), t).drain)
  {
    if PcOf(s, t).Snapped? && PcOf(s, t).host !in s.drain.targets {
      forall g | g in s.drain.targets ensures s.drain.targets[g] in s.drain.entries {
        assert EntryOk(s.drain, g);
      }
      AdmissionEnrolls(s.callers, s.drain, PcOf(s, t).host, PcOf(s, t).tag, PcOf(s, t).snapshot);
    }
  }

  lemma AdmissionStep(s: State, a: Action)
    requires AdmissionInv(s.callers, s.drain) && DrainInv(s)
    ensures AdmissionInv(Step(s, a).callers, Step(s, a).drain)
  {
    match a
    case StartCheck(h) => AdmissionAdmits(s.callers, s.drain, h);
    case StartRpc(k) => AdmissionStarts(s.callers, s.drain, k);
    case StartFails(k) => AdmissionFails(s.callers, s.drain, k);
    case EnrollHost(t) => AdmissionEnrollStep(s, t);
    case _ =>
      CallersUntouched(s, a);
      DrainShrinks(s, a);
      AdmissionShrinks(s.callers, s.drain, Step(s, a).drain);
  }

  lemma CallersUntouched(s: State, a: Action)
    requires !a.StartCheck? && !a.StartRpc? && !a.StartFails? && !a.EnrollHost?
    ensures Step(s, a).callers == s.callers
  {
  }

  lemma DrainUntouched(s: State, a: Action)
    requires !a.EnrollHost? && !a.RestartReturned?
    ensures Step(s, a).drain == s.drain
  {
  }

  lemma DrainShrinks(s: State, a: Action)
    requires !a.EnrollHost?
    ensures var d, d' := s.drain, Step(s, a).drain;
            d'.entries.Keys == d.entries.Keys
              && (forall e :: e in d.entries ==> d'.entries[e].host == d.entries[e].host) &&
            (forall h :: h in d'.targets ==> h in d.targets && d'.targets[h] == d.targets[h])
  {
    if !a.RestartReturned? {
      DrainUntouched(s, a);
    }
  }

  // ---------------------------------------------------------------- theorems over all runs

  function RestartCount(tr: seq<Event>, e: EntryId): nat {
    if tr == [] then 0
    else RestartCount(tr[..|tr| - 1], e) + (if tr[|tr| - 1].RestartCalled? && tr[|tr| - 1].entry == e then 1 else 0)
  }

  ghost predicate Tally(tr: seq<Event>, issued: map<EntryId, nat>) {
    forall e :: RestartCount(tr, e) == if e in issued then issued[e] else 0
  }

  lemma CountAppend(tr: seq<Event>, ev: Event)
    ensures forall e ::
              RestartCount(tr + [ev], e) == RestartCount(tr, e) + if ev.RestartCalled? && ev.entry == e then 1 else 0
  {
    assert (tr + [ev])[..|tr + [ev]| - 1] == tr;
  }

  predicate QuietExtension(tr: seq<Event>, tr': seq<Event>) {
    tr' == tr || (|tr'| == |tr| + 1 && tr' == tr + [tr'[|tr|]] && !tr'[|tr|].RestartCalled?)
  }

  /**
   Another event, none of them a restart, and at most one new enrollment with no restarts yet: the
   tally stays right.
   */
  lemma QuietTally(tr: seq<Event>, tr': seq<Event>, issued: map<EntryId, nat>, issued': map<EntryId, nat>,
                   next: EntryId)
    requires Tally(tr, issued) && QuietExtension(tr, tr')
    requires issued' == issued || (next !in issued && issued' == issued[next := 0])
    ensures Tally(tr', issued')
  {
    if tr' != tr {
      CountAppend(tr, tr'[|tr|]);
    }
  }

  lemma PassQuiet(s: State, a: Action, t: Thread, p: Pass)
    requires !a.EndLoop? && Tally(s.trace, s.budget.issued)
    ensures Tally(StepPass(s, a, t, p).trace, StepPass(s, a, t, p).budget.issued)
  {
    var s' := StepPass(s, a, t, p);
    assert s'.budget.issued == s.budget.issued;
    QuietTally(s.trace, s'.trace, s.budget.issued, s'.budget.issued, 0);
  }

  lemma OutsideQuiet(s: State, a: Action, t: Thread)
    requires EntriesBelowNext(s.drain) && s.budget.issued.Keys == s.drain.entries.Keys
             && Tally(s.trace, s.budget.issued)
    ensures Tally(StepOutside(s, a, t).trace, StepOutside(s, a, t).budget.issued)
  {
    var s' := StepOutside(s, a, t);
    QuietTally(s.trace, s'.trace, s.budget.issued, s'.budget.issued, s.drain.next);
  }

  predicate EntriesBelowNext(d: Drain) {
    d.next !in d.entries
  }

  lemma CountStep(s: State, a: Action)
    requires DrainInv(s) && BudgetInv(s) && Tally(s.trace, s.budget.issued)
    ensures Tally(Step(s, a).trace, Step(s, a).budget.issued)
  {
    if a.StartCheck? || a.StartRpc? || a.StartFails? || a.CacheBump? || a.CacheForget? || a.CacheSeed? || a.CacheWipe? {
      assert Step(s, a).trace == s.trace && Step(s, a).budget == s.budget;
    } else {
      ControlTally(s, a, a.thread);
    }
  }

  lemma ControlTally(s: State, a: Action, t: Thread)
    requires EntriesBelowNext(s.drain) && s.budget.issued.Keys == s.drain.entries.Keys
             && Tally(s.trace, s.budget.issued)
    ensures var s' := if PcOf(s, t).InPass? then StepPass(s, a, t, PcOf(s, t).pass) else StepOutside(s, a, t);
            Tally(s'.trace, s'.budget.issued)
  {
    if !PcOf(s, t).InPass? {
      OutsideQuiet(s, a, t);
    } else if a.EndLoop? {
      CountEndLoop(s, t, PcOf(s, t).pass);
    } else {
      PassQuiet(s, a, t, PcOf(s, t).pass);
    }
  }

  lemma TallyIssue(tr: seq<Event>, b: Budget, ev: Event, h: HostId, t: Thread)
    requires Tally(tr, b.issued) && ev.RestartCalled?
    ensures Tally(tr + [ev], Issue(b, ev.entry, h, t).issued)
  {
    CountAppend(tr, ev);
  }

  lemma CountEndLoop(s: State, t: Thread, p: Pass)
    requires Tally(s.trace, s.budget.issued)
    ensures Tally(StepEndLoop(s, t, p).trace, StepEndLoop(s, t, p).budget.issued)
  {
    if p.entry in s.drain.entries {
      var e := s.drain.entries[p.entry];
      TallyIssue(s.trace, s.budget, RestartCalled(p.id, p.entry, p.host, e.tag, e.snapshot), p.host, t);
    }
  }

  ghost predicate Inv(s: State) {
    LockInv(s) && DrainInv(s) && BudgetInv(s) && TraceInv(s) && Tally(s.trace, s.budget.issued)
      && AdmissionInv(s.callers, s.drain)
  }

  lemma {:induction false} RunInv(acts: seq<Action>)
    ensures Inv(Exec(INIT, acts))
    decreases |acts|
  {
    if acts != [] {
      var s, a := Exec(INIT, acts[..|acts| - 1]), acts[|acts| - 1];
      RunInv(acts[..|acts| - 1]);
      var kind := StepIsControl(s, a);
      var s', t := Step(s, a), Actor(a);
      LockStep(s, s', t, PcOf(s', t), kind);
      DrainStep(s, s', t, PcOf(s', t), kind);
      BudgetStep(s, s', t, PcOf(s', t), kind);
      TraceStep(s, a);
      CountStep(s, a);
      AdmissionStep(s, a);
    }
  }

  /** A reconcile keeps working on the entry it read, and that entry is below the retry limit. */
  lemma EntryStaysWhileReconciling(acts: seq<Action>, t: Thread)
    requires PcOf(Exec(INIT, acts), t).InPass?
    ensures var s, p := Exec(INIT, acts), PcOf(Exec(INIT, acts), t).pass;
            p.host in s.drain.targets && s.drain.targets[p.host] == p.entry && p.entry in s.drain.entries &&
            s.drain.entries[p.entry].host == p.host && s.drain.entries[p.entry].attempts < MAX_RESTART_ATTEMPTS
  {
    RunInv(acts);
    var s := Exec(INIT, acts);
    assert PassOwns(s, t) && EntryOk(s.drain, PcOf(s, t).pass.host);
  }

  /** Two passes on one host are the same pass; in particular at most one restart of a host is in flight. */
  lemma OnePassPerHost(acts: seq<Action>, t: Thread, t': Thread)
    requires PcOf(Exec(INIT, acts), t).InPass? && PcOf(Exec(INIT, acts), t').InPass?
    requires PcOf(Exec(INIT, acts), t).pass.host == PcOf(Exec(INIT, acts), t').pass.host
    ensures t == t'
  {
    RunInv(acts);
    Exclusive(Exec(INIT, acts), t, t');
  }

  /**
   One enrollment calls Restart at most MAX_RESTART_ATTEMPTS times; while it lasts, once per
   counted failure and once if one is running.
   */
  lemma RestartsBounded(acts: seq<Action>, e: EntryId)
    ensures RestartCount(Exec(INIT, acts).trace, e) <= MAX_RESTART_ATTEMPTS
    ensures var s := Exec(INIT, acts);
            Current(s.drain, e) ==>
              RestartCount(s.trace, e) == s.drain.entries[e].attempts
                + (if s.drain.entries[e].host in s.budget.inFlight then 1 else 0)
  {
    RunInv(acts);
    var s := Exec(INIT, acts);
    if Current(s.drain, e) {
      assert Balanced(s, s.drain.entries[e].host);
    }
  }

  /**
   Whatever the cache said: a session is stopped only after the same pass asked the host and heard
   that nobody is in it.
   */
  lemma StopsOnlyEmptySessions(acts: seq<Action>, i: nat)
    requires i < |Exec(INIT, acts).trace| && Exec(INIT, acts).trace[i].StopCalled?
    ensures var tr := Exec(INIT, acts).trace;
            exists j, n :: 0 <= j < i && n <= 0 && tr[j] == Counted(tr[i].pass, tr[i].session, n)
  {
    RunInv(acts);
    var tr := Exec(INIT, acts).trace;
    assert Justified(tr[..i], tr[i]);
    var n :| n <= 0 && Counted(tr[i].pass, tr[i].session, n) in tr[..i];
    var j :| 0 <= j < i && tr[..i][j] == Counted(tr[i].pass, tr[i].session, n);
    assert tr[j] == Counted(tr[i].pass, tr[i].session, n);
  }

  /** A pass asks for its running sessions once. */
  lemma ListsOnce(acts: seq<Action>, i: nat, j: nat)
    requires i < j < |Exec(INIT, acts).trace| && Exec(INIT, acts).trace[i].Listed? && Exec(INIT, acts).trace[j].Listed?
    ensures Exec(INIT, acts).trace[i].pass != Exec(INIT, acts).trace[j].pass
  {
    RunInv(acts);
    var tr := Exec(INIT, acts).trace;
    assert Justified(tr[..j], tr[j]) && tr[..j][i] == tr[i];
  }

  /** Restart runs only when the pass that calls it stopped every session it had listed as running. */
  lemma RestartsOnlyDrainedHosts(acts: seq<Action>, i: nat)
    requires i < |Exec(INIT, acts).trace| && Exec(INIT, acts).trace[i].RestartCalled?
    ensures var tr := Exec(INIT, acts).trace;
            exists sessions :: Listed(tr[i].pass, tr[i].host, sessions) in tr[..i] &&
              forall id :: id in sessions ==> StopSucceeded(tr[i].pass, id) in tr[..i]
  {
    RunInv(acts);
    var tr := Exec(INIT, acts).trace;
    assert Justified(tr[..i], tr[i]);
  }

  /**
   The snapshot handed to Restart is the one recorded when this enrollment began, it
   was captured before that, and an enrollment is recorded once.
   */
  lemma RestartsWithEnrolledSnapshot(acts: seq<Action>, i: nat)
    requires i < |Exec(INIT, acts).trace| && Exec(INIT, acts).trace[i].RestartCalled?
    ensures var tr := Exec(INIT, acts).trace;
            exists j :: 0 <= j < i && tr[j] == Enrolled(tr[i].entry, tr[i].host, tr[i].tag, tr[i].snapshot) &&
                        Captured(tr[i].host, tr[i].snapshot) in tr[..j]
  {
    RunInv(acts);
    var tr := Exec(INIT, acts).trace;
    assert Justified(tr[..i], tr[i]);
    var j :| 0 <= j < i && tr[..i][j] == Enrolled(tr[i].entry, tr[i].host, tr[i].tag, tr[i].snapshot);
    assert Justified(tr[..j], tr[j]);
  }

  lemma EnrollsOnce(acts: seq<Action>, i: nat, j: nat)
    requires i < j < |Exec(INIT, acts).trace| && Exec(INIT, acts).trace[i].Enrolled?
             && Exec(INIT, acts).trace[j].Enrolled?
    ensures Exec(INIT, acts).trace[i].entry != Exec(INIT, acts).trace[j].entry
  {
    RunInv(acts);
    var tr := Exec(INIT, acts).trace;
    assert Justified(tr[..j], tr[j]) && tr[..j][i] == tr[i];
  }

  /** Every stop of an enrollment comes after that enrollment's snapshot was captured. */
  lemma CapturesBeforeStops(acts: seq<Action>, i: nat, j: nat)
    requires i < |Exec(INIT, acts).trace| && j < |Exec(INIT, acts).trace|
    requires Exec(INIT, acts).trace[i].Enrolled? && Exec(INIT, acts).trace[j].StopCalled?
    requires Exec(INIT, acts).trace[i].entry == Exec(INIT, acts).trace[j].entry
    ensures i < j
    ensures var tr := Exec(INIT, acts).trace; Captured(tr[i].host, tr[i].snapshot) in tr[..i]
  {
    RunInv(acts);
    var tr := Exec(INIT, acts).trace;
    assert Justified(tr[..j], tr[j]) && Justified(tr[..i], tr[i]);
    var h, tag, snapshot :| Enrolled(tr[j].entry, h, tag, snapshot) in tr[..j];
    var k :| 0 <= k < j && tr[..j][k] == Enrolled(tr[j].entry, h, tag, snapshot);
    if k < i {
      EnrollsOnce(acts, k, i);
    } else if i < k {
      EnrollsOnce(acts, i, k);
    }
  }

  /**
   Sessions started through the controller during an enrollment come from calls that
   had passed the drain check before it began, so there are at most that many.
   */
  lemma StartsBoundedByAdmitted(acts: seq<Action>, e: EntryId)
    requires e in Exec(INIT, acts).drain.entries
    ensures var c := Exec(INIT, acts).callers;
            e in c.started && e in c.waiting && c.started[e] <= c.waiting[e] && |c.started[e]| <= |c.waiting[e]|
  {
    RunInv(acts);
    var c := Exec(INIT, acts).callers;
    assert CallersOk(c, Exec(INIT, acts).drain, e);
    SubsetSize(c.started[e], c.waiting[e]);
  }

  lemma Grow(acts: seq<Action>, a: Action)
    ensures Exec(INIT, acts + [a]) == Step(Exec(INIT, acts), a)
  {
    assert (acts + [a])[..|acts + [a]| - 1] == acts;
  }

  lemma AdmittedThenFetching(h: HostId) returns (acts: seq<Action>)
    ensures var s := Exec(INIT, acts);
            && PcOf(s, 1) == Fetching(h, "tag")
            && s.drain == INIT.drain
            && s.callers == Callers(map[0 := h], 1, map[], map[])
  {
    Grow([], StartCheck(h));
    var s1 := Step(INIT, StartCheck(h));
    assert s1.callers == Callers(map[0 := h], 1, map[], map[]) && s1.drain == INIT.drain && PcOf(s1, 1) == Idle;
    Grow([] + [StartCheck(h)], NewImage(1, h, "tag"));
    acts := [] + [StartCheck(h)] + [NewImage(1, h, "tag")];
  }

  lemma FetchSnaps(s: State, h: HostId)
    requires PcOf(s, 1) == Fetching(h, "tag")
    ensures var s' := Step(s, ConfigFetched(1, Some("full")));
            PcOf(s', 1) == Snapped(h, "tag", "full") && s'.drain == s.drain && s'.callers == s.callers
  {
  }

  lemma AdmittedThenSnapped(h: HostId) returns (acts: seq<Action>)
    ensures var s := Exec(INIT, acts);
            && PcOf(s, 1) == Snapped(h, "tag", "full") && s.drain == INIT.drain && s.callers.admitted == map[0 := h]
            && s.callers.started == map[] && s.callers.waiting == map[]
  {
    var before := AdmittedThenFetching(h);
    FetchSnaps(Exec(INIT, before), h);
    Grow(before, ConfigFetched(1, Some("full")));
    acts := before + [ConfigFetched(1, Some("full"))];
  }

  lemma EnrollsAndStarts(s: State, h: HostId)
    requires PcOf(s, 1) == Snapped(h, "tag", "full") && s.drain == INIT.drain && s.callers.admitted == map[0 := h]
    ensures var s' := Step(Step(s, EnrollHost(1)), StartRpc(0));
            && h in s'.drain.targets && s'.drain.targets[h] == 0 && 0 in s'.callers.started && 0 in s'.callers.waiting
            && s'.callers.started[0] == s'.callers.waiting[0] == {0}
  {
    assert PendingOn(s.callers, h) == {0};
  }

  /** There may be as many: a call that passed the check before the enrollment starts its session during it. */
  lemma AdmittedCallStarts(h: HostId) returns (acts: seq<Action>)
    ensures var s := Exec(INIT, acts);
            && h in s.drain.targets && s.drain.targets[h] == 0 && 0 in s.callers.started && 0 in s.callers.waiting
            && s.callers.started[0] == s.callers.waiting[0] == {0}
  {
    var before := AdmittedThenSnapped(h);
    EnrollsAndStarts(Exec(INIT, before), h);
    Grow(before, EnrollHost(1));
    Grow(before + [EnrollHost(1)], StartRpc(0));
    acts := before + [EnrollHost(1)] + [StartRpc(0)];
  }

  lemma DrainingStepAdmitsNobody(s: State, a: Action, h: HostId)
    requires h in s.drain.targets
    ensures PendingOn(Step(s, a).callers, h) <= PendingOn(s.callers, h)
  {
    var c, c' := s.callers, Step(s, a).callers;
    if !(a.StartCheck? || a.StartRpc? || a.StartFails? || a.EnrollHost?) {
      CallersUntouched(s, a);
    }
  }

  /**
   As long as a host stays enrolled, whatever else happens, no StartSession call joins
   those on their way to its RPC: a check made meanwhile rejects its call.
   */
  lemma {:induction false} DrainingHostAdmitsNobody(s: State, acts: seq<Action>, h: HostId)
    requires forall n {:trigger acts[..n]} :: 0 <= n <= |acts| ==> h in Exec(s, acts[..n]).drain.targets
    ensures PendingOn(Exec(s, acts).callers, h) <= PendingOn(s.callers, h)
    decreases |acts|
  {
    if acts != [] {
      var before := acts[..|acts| - 1];
      assert forall n {:trigger before[..n]} :: 0 <= n <= |before| ==> before[..n] == acts[..n];
      DrainingHostAdmitsNobody(s, before, h);
      assert before[..|before|] == before;
      DrainingStepAdmitsNobody(Exec(s, before), acts[|acts| - 1], h);
    }
  }

  // ---------------------------------------------------------------- runs of a single thread

  ghost predicate Reaches(s: State, s': State) {
    exists acts :: Exec(s, acts) == s'
  }

  lemma {:induction false} ExecConcat(s: State, acts: seq<Action>, more: seq<Action>)
    ensures Exec(s, acts + more) == Exec(Exec(s, acts), more)
    decreases |more|
  {
    if more == [] {
      assert acts + more == acts;
    } else {
      var all := acts + more;
      assert all[..|all| - 1] == acts + more[..|more| - 1] && all[|all| - 1] == more[|more| - 1];
      ExecConcat(s, acts, more[..|more| - 1]);
    }
  }

  lemma ReachesTransitively(s: State, s': State, s'': State)
    requires Reaches(s, s') && Reaches(s', s'')
    ensures Reaches(s, s'')
  {
    var acts :| Exec(s, acts) == s';
    var more :| Exec(s', more) == s'';
    ExecConcat(s, acts, more);
  }

  lemma ReachesItself(s: State)
    ensures Reaches(s, s)
  {
    assert Exec(s, []) == s;
  }

  /** Two steps of a run. */
  lemma TwoSteps(s: State, a: Action, b: Action)
    ensures Reaches(s, Step(Step(s, a), b)) && Reaches(s, Step(s, a))
  {
    assert [a][..|[a]| - 1] == [] && Exec(s, [a]) == Step(s, a);
    assert [a, b][..|[a, b]| - 1] == [a] && Exec(s, [a, b]) == Step(Step(s, a), b);
  }

  predicate AtPass(s: State, t: Thread, p: Pass) {
    PcOf(s, t) == InPass(p)
  }

  /** Only thread `t`, the cache and the trace moved. */
  predicate SameAround(s: State, s': State) {
    s'.drain == s.drain && s'.locks == s.locks && s'.heldBy == s.heldBy && s'.passes == s.passes
  }

  /** A stretch of a pass that made `calls` and kept the entry, the locks and the pass counter. */
  ghost predicate Within(s: State, s': State, calls: seq<Event>) {
    Reaches(s, s') && SameAround(s, s') && s'.trace == s.trace + calls
  }

  lemma WithinTwice(s: State, s': State, s'': State, calls: seq<Event>, more: seq<Event>)
    requires Within(s, s', calls) && Within(s', s'', more)
    ensures Within(s, s'', calls + more)
  {
    ReachesTransitively(s, s', s'');
  }

  /** Take the reconcile lock of `h`. */
  lemma Enter(s: State, t: Thread, h: HostId) returns (s': State)
    requires PcOf(s, t).Idle? && LockFor(s.locks, h).table[h] !in s.heldBy
    ensures Reaches(s, s')
    ensures var l := LockFor(s.locks, h);
            PcOf(s', t) == Locked(h, l.table[h]) && s'.locks == l && s'.heldBy == s.heldBy[l.table[h] := t] &&
            s'.drain == s.drain && s'.users == s.users && s'.trace == s.trace && s'.passes == s.passes
    ensures forall u :: u != t ==> PcOf(s', u) == PcOf(s, u)
  {
    TwoSteps(s, Reconcile(t, h), Acquire(t));
    s' := Step(Step(s, Reconcile(t, h)), Acquire(t));
  }

  /** Read the drain entry and get the answer to the session listing. */
  lemma BeginPass(s: State, t: Thread, h: HostId, running: Option<seq<SessionId>>) returns (s': State)
    requires PcOf(s, t).Locked? && PcOf(s, t).host == h && h in s.drain.targets
    ensures Reaches(s, s')
    ensures s'.drain == s.drain && s'.users == s.users && s'.locks == s.locks && s'.heldBy == s.heldBy
    ensures var p := Pass(s.passes, h, PcOf(s, t).lock, s.drain.targets[h], [], 0, 0, Listing);
            if running.None? then PcOf(s', t) == Unlocking(h, p.lock) && s'.trace == s.trace
            else
              && AtPass(s', t, p.(listed := running.value, at := Looping))
              && s'.trace == s.trace + [Listed(p.id, h, running.value)]
  {
    TwoSteps(s, ReadDrain(t), ListReturned(t, running));
    s' := Step(Step(s, ReadDrain(t)), ListReturned(t, running));
  }

  lemma TrustCache(s: State, t: Thread, p: Pass) returns (s': State)
    requires AtPass(s, t, p) && p.at.Looping? && p.next < |p.listed|
    requires var c := Cached(s.users, p.host, p.listed[p.next]); c.Some? && c.value > 0
    ensures Reaches(s, s') && SameAround(s, s') && s'.users == s.users && s'.trace == s.trace
    ensures AtPass(s', t, p.(next := p.next + 1, remaining := p.remaining + 1))
  {
    TwoSteps(s, Examine(t), Examine(t));
    s' := Step(s, Examine(t));
  }

  lemma AskCount(s: State, t: Thread, p: Pass, users: Option<int>) returns (s': State)
    requires AtPass(s, t, p) && p.at.Looping? && p.next < |p.listed|
    requires var c := Cached(s.users, p.host, p.listed[p.next]); !(c.Some? && c.value > 0)
    ensures Reaches(s, s') && SameAround(s, s')
    ensures s'.users == if users.Some? then Store(s.users, p.host, p.listed[p.next], users.value) else s.users
    ensures s'.trace == if users.Some? then s.trace + [Counted(p.id, p.listed[p.next], users.value)] else s.trace
    ensures AtPass(s', t, if users.Some? && users.value <= 0 then p.(at := ToStop)
                          else p.(next := p.next + 1, remaining := p.remaining + 1))
  {
    TwoSteps(s, Examine(t), CountReturned(t, users));
    s' := Step(Step(s, Examine(t)), CountReturned(t, users));
  }

  lemma StopSession(s: State, t: Thread, p: Pass, ok: bool) returns (s': State)
    requires AtPass(s, t, p) && p.at.ToStop? && p.next < |p.listed|
    ensures Reaches(s, s') && SameAround(s, s')
    ensures s'.users == if ok then Forget(s.users, p.host, p.listed[p.next]) else s.users
    ensures s'.trace == s.trace + [StopCalled(p.id, p.entry, p.listed[p.next])]
            + (if ok then [StopSucceeded(p.id, p.listed[p.next])] else [])
    ensures AtPass(s', t, p.(at := Looping, next := p.next + 1, remaining := p.remaining + (if ok then 0 else 1)))
  {
    TwoSteps(s, CallStop(t), StopReturned(t, ok));
    s' := Step(Step(s, CallStop(t)), StopReturned(t, ok));
  }

  lemma LeaveLoop(s: State, t: Thread, p: Pass) returns (s': State)
    requires AtPass(s, t, p) && p.at.Looping? && p.next == |p.listed| && p.entry in s.drain.entries
    ensures Reaches(s, s') && SameAround(s, s') && s'.users == s.users
    ensures var e := s.drain.entries[p.entry];
            if p.remaining > 0 then PcOf(s', t) == Unlocking(p.host, p.lock) && s'.trace == s.trace
            else
              && AtPass(s', t, p.(at := Restarting))
              && s'.trace == s.trace + [RestartCalled(p.id, p.entry, p.host, e.tag, e.snapshot)]
  {
    TwoSteps(s, EndLoop(t), EndLoop(t));
    s' := Step(s, EndLoop(t));
  }

  lemma FinishRestart(s: State, t: Thread, p: Pass, ok: bool) returns (s': State)
    requires AtPass(s, t, p) && p.at.Restarting?
    ensures Reaches(s, s') && s'.locks == s.locks && s'.heldBy == s.heldBy && s'.trace == s.trace
    ensures s'.drain == if ok then Leave(s.drain, p.host) else RecordFailure(s.drain, p.host)
    ensures s'.users == if ok || GivesUp(s.drain, p.host) then s.users - {p.host} else s.users
    ensures PcOf(s', t) == Unlocking(p.host, p.lock)
  {
    TwoSteps(s, RestartReturned(t, ok), RestartReturned(t, ok));
    s' := Step(s, RestartReturned(t, ok));
  }

  /** Release the lock, possibly after finding that the host is not draining. */
  lemma Exit(s: State, t: Thread) returns (s': State)
    requires PcOf(s, t).Unlocking? || (PcOf(s, t).Locked? && PcOf(s, t).host !in s.drain.targets)
    ensures Reaches(s, s')
    ensures s'.drain == s.drain && s'.users == s.users && s'.locks == s.locks && s'.trace == s.trace
    ensures s'.heldBy == s.heldBy - {PcOf(s, t).lock} && PcOf(s', t).Idle?
  {
    if PcOf(s, t).Unlocking? {
      TwoSteps(s, Unlock(t), Unlock(t));
      s' := Step(s, Unlock(t));
    } else {
      TwoSteps(s, ReadDrain(t), Unlock(t));
      s' := Step(Step(s, ReadDrain(t)), Unlock(t));
    }
  }
}
