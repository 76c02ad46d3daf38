/**
 The per-host event stream of HostEventWatcher (worker/host_event_watcher.go),
 as a state machine over its externally visible steps: checkpoint load, connect,
 receive, one call per handler, checkpoint write, stream error, crash.  One of the
 handlers is the lifecycle handler of module EventConvergence; its database calls
 are steps of their own.

 An event is named by its position in the host's log.  A resume token is the
 position after the last event it covers; None is the empty token, which the host
 answers with "only events from this point forward".
 */
module HostEventStream {
  import opened Wrappers
  import opened SessionTable
  import opened SessionLifecycle
  import C = EventConvergence

  datatype Phase =
    | Down
    | Ready(token: Option<nat>)
    | Open(token: Option<nat>, at: nat, blind: bool)
    | Dispatching(at: nat, handler: nat, blind: bool)
    | Dispatched(at: nat)

  /**
   `head` events exist in the log so far; `received` is every position taken off a
   stream, in order; `handled[k]` the positions handler k was called with to the
   end; `done` one past the highest position that reached every handler.
   */
  datatype Host = Host(
    head: nat,
    checkpoint: Option<nat>,
    phase: Phase,
    received: seq<nat>,
    handled: seq<set<nat>>,
    done: nat)

  datatype State = State(conv: C.State, hosts: map<HostId, Host>)

  /** `handlers` handlers are called in order; number `lifecycle` is the SessionLifecycleHandler. */
  datatype Config = Config(w: C.World, handlers: nat, lifecycle: nat)

  ghost predicate ValidConfig(k: Config) {
    k.lifecycle < k.handlers && C.WellFormed(k.w)
  }

  datatype Action =
    | Append(host: HostId)
    | Launch(host: HostId, loadOk: bool)
    | Connect(host: HostId)
    | Recv(host: HostId)
    | Call(host: HostId)
    | Persist(host: HostId, ok: bool)
    | Drop(host: HostId)
    | OutOfRange(host: HostId, deleteOk: bool)
    | Crash(host: HostId)

  function Init(k: Config, checkpoints: map<HostId, nat>, heads: map<HostId, nat>): State {
    State(C.Init(k.w, map[]),
          map h | h in k.w.logs ::
            var head := if h in heads && heads[h] <= |k.w.logs[h]| then heads[h] else |k.w.logs[h]|;
            Host(head,
                 if h in checkpoints && checkpoints[h] <= head then Some(checkpoints[h]) else None,
                 Down, [], seq(k.handlers, _ => {}), 0))
  }

  /** Connecting live-only although something was received before and the host has moved past what was dispatched. */
  predicate BlindConnect(x: Host) {
    x.phase.Ready? && x.phase.token.None? && x.received != [] && x.done < x.head
  }

  /** Handler number `handler` returned: the next one is called, or the event is dispatched. */
  function HandlerReturned(k: Config, x: Host): Host
    requires x.phase.Dispatching? && x.phase.handler < |x.handled|
  {
    var at, i := x.phase.at, x.phase.handler;
    var x' := x.(handled := x.handled[i := x.handled[i] + {at}]);
    if i + 1 < k.handlers then x'.(phase := x.phase.(handler := i + 1))
    else x'.(phase := Dispatched(at), done := Max(x.done, at + 1))
  }

  /** One host's part of a step; `busy` says that the called handler still has a database call to make. */
  function HostStep(k: Config, x: Host, log: seq<HostEvent>, a: Action, busy: bool): Host {
    match a
    case Append(_) =>
      if x.head < |log| then x.(head := x.head + 1) else x
    case Launch(_, loadOk) =>
      if x.phase.Down? then x.(phase := Ready(if loadOk then x.checkpoint else None)) else x
    case Connect(_) =>
      if x.phase.Ready? then
        x.(phase := Open(x.phase.token, if x.phase.token.None? then x.head else x.phase.token.value, BlindConnect(x)))
      else x
    case Recv(_) =>
      if x.phase.Open? && x.phase.at < x.head then
        x.(phase := Dispatching(x.phase.at, 0, x.phase.blind),
           received := x.received + [x.phase.at],
           done := if x.received == [] then x.phase.at else x.done)
      else x
    case Call(_) =>
      if x.phase.Dispatching? && x.phase.handler < |x.handled| && !busy then HandlerReturned(k, x) else x
    case Persist(_, ok) =>
      if x.phase.Dispatched? then
        x.(checkpoint := if ok then Some(x.phase.at + 1) else x.checkpoint,
           phase := Open(Some(x.phase.at + 1), x.phase.at + 1, false))
      else x
    case Drop(_) =>
      if x.phase.Open? then x.(phase := Ready(x.phase.token)) else x
    case OutOfRange(_, deleteOk) =>
      if x.phase.Open? then x.(checkpoint := if deleteOk then None else x.checkpoint, phase := Ready(None)) else x
    case Crash(_) => x.(phase := Down)
  }

  /** The lifecycle handler's part of a step: a received event moves its cursor, a call runs one database call. */
  function ConvStep(k: Config, conv: C.State, x: Host, a: Action): C.State {
    if a.Recv? && x.phase.Open? && x.phase.at < x.head then C.Step(k.w, conv, C.Seek(a.host, x.phase.at))
    else if a.Call? && x.phase.Dispatching? && x.phase.handler == k.lifecycle then
        C.Step(k.w, conv, C.HandlerStep(a.host))
    else conv
  }

  predicate Busy(k: Config, conv: C.State, x: Host, a: Action) {
    var conv' := ConvStep(k, conv, x, a);
    a.Call? && x.phase.Dispatching? && x.phase.handler == k.lifecycle && a.host in conv'.pos
      && !conv'.pos[a.host].pending.Idle?
  }

  function Step(k: Config, s: State, a: Action): State {
    if a.host !in s.hosts || a.host !in k.w.logs then s
    else
      var x := s.hosts[a.host];
      State(ConvStep(k, s.conv, x, a), s.hosts[a.host := HostStep(k, x, k.w.logs[a.host], a, Busy(k, s.conv, x, a))])
  }

  function Exec(k: Config, s: State, acts: seq<Action>): State
    decreases |acts|
  {
    if acts == [] then s else Step(k, Exec(k, s, acts[..|acts| - 1]), acts[|acts| - 1])
  }

  // ---------------------------------------------------------------- what can go wrong

  /** The last handler is about to finish an event that came off a blind stream. */
  ghost predicate BlindDispatch(k: Config, s: State, a: Action) {
    a.host in s.hosts && a.host in k.w.logs &&
    HostBlindDispatch(k, s.hosts[a.host], k.w.logs[a.host], a, Busy(k, s.conv, s.hosts[a.host], a))
  }

  ghost predicate HostBlindDispatch(k: Config, x: Host, log: seq<HostEvent>, a: Action, busy: bool) {
    a.Call? && x.phase.Dispatching? && x.phase.blind && HostStep(k, x, log, a, busy).phase.Dispatched?
  }

  ghost predicate BlindRecv(s: State, a: Action) {
    a.Recv? && a.host in s.hosts && s.hosts[a.host].phase.Open? && s.hosts[a.host].phase.blind
  }

  /** The checkpoint could not be read, or the host no longer buffers the resume point. */
  predicate TokenLost(a: Action) {
    a.OutOfRange? || (a.Launch? && !a.loadOk)
  }

  ghost predicate NoBlindDispatch(k: Config, s: State, acts: seq<Action>, h: HostId)
    decreases |acts|
  {
    acts != [] ==>
      var before := acts[..|acts| - 1];
      NoBlindDispatch(k, s, before, h)
        && !(acts[|acts| - 1].host == h && BlindDispatch(k, Exec(k, s, before), acts[|acts| - 1]))
  }

  ghost predicate NoBlindRecv(k: Config, s: State, acts: seq<Action>, h: HostId)
    decreases |acts|
  {
    acts != [] ==>
      var before := acts[..|acts| - 1];
      NoBlindRecv(k, s, before, h) && !(acts[|acts| - 1].host == h && BlindRecv(Exec(k, s, before), acts[|acts| - 1]))
  }

  /** From the first received event on, everything up to the highest dispatched one reached every handler. */
  ghost predicate Complete(x: Host) {
    x.received != [] ==>
      forall p, j :: x.received[0] <= p < x.done && 0 <= j < |x.handled| ==> p in x.handled[j]
  }

  /** The deduplicated receive order is a contiguous run: nothing is received before its predecessor was. */
  ghost predicate Contiguous(x: Host) {
    forall j :: 0 < j < |x.received| ==> HasPredecessor(x.received, j)
  }

  ghost predicate HasPredecessor(received: seq<nat>, j: nat)
    requires j < |received|
  {
    exists i :: 0 <= i < j && received[j] <= received[i] + 1
  }

  // ---------------------------------------------------------------- invariant of every run

  /** The positions the last handler in line was called with. */
  function FullyHandled(x: Host): set<nat> {
    if x.handled == [] then {} else x.handled[|x.handled| - 1]
  }

  predicate AtLeast(n: nat, checkpoint: Option<nat>) {
    checkpoint.Some? ==> checkpoint.value <= n
  }

  ghost predicate HostInv(k: Config, x: Host, log: seq<HostEvent>) {
    && |x.handled| == k.handlers && x.head <= |log|
    && (x.checkpoint.Some? ==> x.checkpoint.value <= x.head)
    && (x.received == [] ==> x.phase.Down? || x.phase.Ready? || x.phase.Open?)
    && (x.received == [] ==> forall j :: 0 <= j < |x.handled| ==> x.handled[j] == {})
    && (x.received != [] ==> x.received[0] <= x.done <= x.head && (x.checkpoint.Some? ==> x.checkpoint.value <= x.done))
    && (forall j :: 0 <= j < |x.received| ==> x.received[j] < x.head)
    && (forall p, j :: 0 <= j < |x.handled| && p in x.handled[j] ==> p in x.received)
    && (forall p :: p in FullyHandled(x) ==> p < x.done)
    && match x.phase
       case Down => true
       case Ready(token) =>
         token.Some? ==> token.value <= x.head &&
                         if x.received == [] then AtLeast(token.value, x.checkpoint) else token.value <= x.done
       case Open(token, at, blind) =>
         at <= x.head && (token.Some? ==> at == token.value && !blind) &&
         (x.received == [] ==> !blind && AtLeast(at, x.checkpoint)) && (x.received != [] ==> (blind <==> x.done < at))
       case Dispatching(at, i, blind) =>
         at in x.received && i < k.handlers && (blind <==> x.done < at) &&
         forall j :: 0 <= j < i ==> at in x.handled[j]
       case Dispatched(at) =>
         at in x.received && at < x.done
  }

  ghost predicate StateInv(k: Config, s: State) {
    s.hosts.Keys == k.w.logs.Keys && forall h :: h in s.hosts ==> HostInv(k, s.hosts[h], k.w.logs[h])
  }

  lemma HostStepKeepsInv(k: Config, x: Host, log: seq<HostEvent>, a: Action, busy: bool)
    requires ValidConfig(k) && HostInv(k, x, log)
    ensures HostInv(k, HostStep(k, x, log, a, busy), log)
  {
    match a
    case Recv(_) => RecvKeepsInv(k, x, log, a, busy);
    case Call(_) => CallKeepsInv(k, x, log, a, busy);
    case Append(_) => LogKeepsInv(k, x, log, a, busy);
    case Persist(_, _) => LogKeepsInv(k, x, log, a, busy);
    case _ => ConnectionKeepsInv(k, x, log, a, busy);
  }

  lemma LogKeepsInv(k: Config, x: Host, log: seq<HostEvent>, a: Action, busy: bool)
    requires ValidConfig(k) && HostInv(k, x, log) && (a.Append? || a.Persist?)
    ensures HostInv(k, HostStep(k, x, log, a, busy), log)
  {
    var x' := HostStep(k, x, log, a, busy);
    assert x'.handled == x.handled && x'.received == x.received && FullyHandled(x') == FullyHandled(x);
  }

  lemma ConnectionKeepsInv(k: Config, x: Host, log: seq<HostEvent>, a: Action, busy: bool)
    requires ValidConfig(k) && HostInv(k, x, log)
    requires a.Launch? || a.Connect? || a.Drop? || a.OutOfRange? || a.Crash?
    ensures HostInv(k, HostStep(k, x, log, a, busy), log)
  {
    var x' := HostStep(k, x, log, a, busy);
    assert x'.handled == x.handled && x'.received == x.received && FullyHandled(x') == FullyHandled(x);
  }

  lemma RecvKeepsInv(k: Config, x: Host, log: seq<HostEvent>, a: Action, busy: bool)
    requires ValidConfig(k) && HostInv(k, x, log) && a.Recv?
    ensures HostInv(k, HostStep(k, x, log, a, busy), log)
  {
    var x' := HostStep(k, x, log, a, busy);
    assert FullyHandled(x') == FullyHandled(x);
    if x.phase.Open? && x.phase.at < x.head {
      assert x'.received[|x.received|] == x.phase.at;
      assert x.received == [] ==> FullyHandled(x) == {};
      assert forall p :: p in x.received ==> p in x'.received;
    }
  }

  lemma CallKeepsInv(k: Config, x: Host, log: seq<HostEvent>, a: Action, busy: bool)
    requires ValidConfig(k) && HostInv(k, x, log) && a.Call?
    ensures HostInv(k, HostStep(k, x, log, a, busy), log)
  {
    var x' := HostStep(k, x, log, a, busy);
    if x.phase.Dispatching? && !busy {
      assert FullyHandled(x') == if x.phase.handler + 1 < k.handlers then FullyHandled(x)
             else FullyHandled(x) + {x.phase.at};
    }
  }

  lemma StepKeepsInv(k: Config, s: State, a: Action)
    requires ValidConfig(k) && StateInv(k, s)
    ensures StateInv(k, Step(k, s, a))
  {
    if a.host in s.hosts {
      HostStepKeepsInv(k, s.hosts[a.host], k.w.logs[a.host], a, Busy(k, s.conv, s.hosts[a.host], a));
    }
  }

  lemma {:induction false} InvHolds(k: Config, checkpoints: map<HostId, nat>, heads: map<HostId, nat>,
                                    acts: seq<Action>)
    requires ValidConfig(k)
    ensures StateInv(k, Exec(k, Init(k, checkpoints, heads), acts))
    decreases |acts|
  {
    if acts != [] {
      InvHolds(k, checkpoints, heads, acts[..|acts| - 1]);
      StepKeepsInv(k, Exec(k, Init(k, checkpoints, heads), acts[..|acts| - 1]), acts[|acts| - 1]);
    }
  }

  // ---------------------------------------------------------------- at least once, without gaps

  /** Every event before the persisted checkpoint, from the first received one on, reached every handler. */
  ghost predicate CheckpointCovered(x: Host) {
    x.received != [] && x.checkpoint.Some? ==>
      forall p, j :: x.received[0] <= p < x.checkpoint.value && 0 <= j < |x.handled| ==> p in x.handled[j]
  }

  lemma CompleteStep(k: Config, x: Host, log: seq<HostEvent>, a: Action, busy: bool)
    requires HostInv(k, x, log) && Complete(x) && !HostBlindDispatch(k, x, log, a, busy)
    ensures Complete(HostStep(k, x, log, a, busy))
  {
    var x' := HostStep(k, x, log, a, busy);
    if a.Call? && x.phase.Dispatching? && x'.phase.Dispatched? {
      assert x'.done <= Max(x.done, x.phase.at + 1);
    }
  }

  lemma CompleteCovers(k: Config, x: Host, log: seq<HostEvent>)
    requires HostInv(k, x, log) && Complete(x)
    ensures CheckpointCovered(x)
  {
  }

  lemma {:induction false} CompleteUnlessBlind(k: Config, checkpoints: map<HostId, nat>, heads: map<HostId, nat>,
                                               acts: seq<Action>, h: HostId)
    requires ValidConfig(k) && h in k.w.logs
    requires NoBlindDispatch(k, Init(k, checkpoints, heads), acts, h)
    ensures var s := Exec(k, Init(k, checkpoints, heads), acts);
            h in s.hosts && Complete(s.hosts[h]) && CheckpointCovered(s.hosts[h])
    decreases |acts|
  {
    InvHolds(k, checkpoints, heads, acts);
    if acts != [] {
      var before, a := acts[..|acts| - 1], acts[|acts| - 1];
      CompleteUnlessBlind(k, checkpoints, heads, before, h);
      InvHolds(k, checkpoints, heads, before);
      var s := Exec(k, Init(k, checkpoints, heads), before);
      if a.host == h {
        CompleteStep(k, s.hosts[h], k.w.logs[h], a, Busy(k, s.conv, s.hosts[h], a));
      } else {
        assert Step(k, s, a).hosts[h] == s.hosts[h];
      }
    }
    CompleteCovers(k, Exec(k, Init(k, checkpoints, heads), acts).hosts[h], k.w.logs[h]);
  }

  /** Under a run that never loses its token, an empty token means that nothing was ever persisted. */
  ghost predicate TokenInv(x: Host) {
    match x.phase
    case Ready(token) => token.None? ==> x.checkpoint.None?
    case Open(token, _, _) => token.None? ==> x.checkpoint.None?
    case Dispatching(_, _, blind) => blind ==> x.checkpoint.None?
    case _ => true
  }

  /** Position `g` was skipped: the last handler never saw it and no resume point lies at or before it. */
  ghost predicate Skipped(x: Host, g: int) {
    && x.received != [] && x.received[0] <= g < x.done && g !in FullyHandled(x)
    && (x.checkpoint.Some? ==> g < x.checkpoint.value)
    && match x.phase
       case Down => true
       case Ready(token) => token.Some? ==> g < token.value
       case Open(_, at, _) => g < at
       case Dispatching(at, _, _) => g < at
       case Dispatched(at) => g < at
  }

  lemma TokenStep(k: Config, x: Host, log: seq<HostEvent>, a: Action, busy: bool)
    requires ValidConfig(k) && HostInv(k, x, log) && TokenInv(x) && !TokenLost(a)
    ensures TokenInv(HostStep(k, x, log, a, busy))
    ensures HostBlindDispatch(k, x, log, a, busy) ==> Skipped(HostStep(k, x, log, a, busy), x.done)
  {
    if HostBlindDispatch(k, x, log, a, busy) {
      var x' := HostStep(k, x, log, a, busy);
      assert x.done !in FullyHandled(x) && x.done < x.phase.at;
      assert x'.handled[|x'.handled| - 1] == x.handled[|x.handled| - 1] + {x.phase.at};
      assert x.done !in FullyHandled(x');
    }
  }

  lemma SkippedStep(k: Config, x: Host, log: seq<HostEvent>, a: Action, busy: bool, g: int)
    requires HostInv(k, x, log) && TokenInv(x) && !TokenLost(a) && Skipped(x, g)
    ensures Skipped(HostStep(k, x, log, a, busy), g)
  {
  }

  lemma {:induction false} BlindDispatchSkips(k: Config, checkpoints: map<HostId, nat>, heads: map<HostId, nat>,
                                              acts: seq<Action>, h: HostId)
    requires ValidConfig(k) && h in k.w.logs
    requires forall i :: 0 <= i < |acts| && acts[i].host == h ==> !TokenLost(acts[i])
    ensures StateInv(k, Exec(k, Init(k, checkpoints, heads), acts))
    ensures TokenInv(Exec(k, Init(k, checkpoints, heads), acts).hosts[h])
    ensures !NoBlindDispatch(k, Init(k, checkpoints, heads), acts, h) ==>
              exists g: int :: Skipped(Exec(k, Init(k, checkpoints, heads), acts).hosts[h], g)
    decreases |acts|
  {
    InvHolds(k, checkpoints, heads, acts);
    if acts != [] {
      var before, a := acts[..|acts| - 1], acts[|acts| - 1];
      BlindDispatchSkips(k, checkpoints, heads, before, h);
      var s := Exec(k, Init(k, checkpoints, heads), before);
      if a.host == h {
        TokenStep(k, s.hosts[h], k.w.logs[h], a, Busy(k, s.conv, s.hosts[h], a));
        forall g: int | Skipped(s.hosts[h], g) ensures Skipped(Step(k, s, a).hosts[h], g) {
          SkippedStep(k, s.hosts[h], k.w.logs[h], a, Busy(k, s.conv, s.hosts[h], a), g);
        }
      }
    }
  }

  /**
   Without a lost token, delivery is complete exactly when no event came to full
   dispatch off a live-only stream that had been opened behind the host's back.
   */
  lemma CompleteIffNotBlind(k: Config, checkpoints: map<HostId, nat>, heads: map<HostId, nat>, acts: seq<Action>,
                            h: HostId)
    requires ValidConfig(k) && h in k.w.logs
    requires forall i :: 0 <= i < |acts| && acts[i].host == h ==> !TokenLost(acts[i])
    ensures h in Exec(k, Init(k, checkpoints, heads), acts).hosts
    ensures Complete(Exec(k, Init(k, checkpoints, heads), acts).hosts[h]) <==>
            NoBlindDispatch(k, Init(k, checkpoints, heads), acts, h)
  {
    BlindDispatchSkips(k, checkpoints, heads, acts, h);
    if NoBlindDispatch(k, Init(k, checkpoints, heads), acts, h) {
      CompleteUnlessBlind(k, checkpoints, heads, acts, h);
    }
  }

  /** A token is always at hand. */
  ghost predicate HasToken(x: Host) {
    x.checkpoint.Some? &&
    match x.phase
    case Ready(token) => token.Some?
    case Open(token, _, blind) => token.Some? && !blind
    case Dispatching(_, _, blind) => !blind
    case _ => true
  }

  lemma HasTokenStep(k: Config, x: Host, log: seq<HostEvent>, a: Action, busy: bool)
    requires HostInv(k, x, log) && HasToken(x) && !TokenLost(a)
    ensures HasToken(HostStep(k, x, log, a, busy)) && !HostBlindDispatch(k, x, log, a, busy)
  {
  }

  /**
   A host whose checkpoint exists when the run begins never misses an event, whatever crashes,
   reconnects or failed writes occur.
   */
  lemma {:induction false} StoredCheckpointIsEnough(k: Config, checkpoints: map<HostId, nat>, heads: map<HostId, nat>,
                                                    acts: seq<Action>, h: HostId)
    requires ValidConfig(k) && h in k.w.logs
    requires Init(k, checkpoints, heads).hosts[h].checkpoint.Some?
    requires forall i :: 0 <= i < |acts| && acts[i].host == h ==> !TokenLost(acts[i])
    ensures NoBlindDispatch(k, Init(k, checkpoints, heads), acts, h)
    ensures h in Exec(k, Init(k, checkpoints, heads), acts).hosts
            && HasToken(Exec(k, Init(k, checkpoints, heads), acts).hosts[h])
    ensures Complete(Exec(k, Init(k, checkpoints, heads), acts).hosts[h])
    decreases |acts|
  {
    InvHolds(k, checkpoints, heads, acts);
    if acts != [] {
      var before, a := acts[..|acts| - 1], acts[|acts| - 1];
      StoredCheckpointIsEnough(k, checkpoints, heads, before, h);
      InvHolds(k, checkpoints, heads, before);
      var s := Exec(k, Init(k, checkpoints, heads), before);
      if a.host == h {
        HasTokenStep(k, s.hosts[h], k.w.logs[h], a, Busy(k, s.conv, s.hosts[h], a));
      } else {
        assert Step(k, s, a).hosts[h] == s.hosts[h];
      }
    }
    CompleteUnlessBlind(k, checkpoints, heads, acts, h);
  }

  // ---------------------------------------------------------------- receive order and the sessions table

  /** What was dispatched from the first received event on was also received. */
  ghost predicate DoneReceived(x: Host) {
    x.received != [] ==> forall p :: x.received[0] <= p < x.done ==> p in x.received
  }

  predicate SightedStream(x: Host) {
    (x.phase.Dispatching? ==> !x.phase.blind)
  }

  lemma DoneReceivedStep(k: Config, x: Host, log: seq<HostEvent>, a: Action, busy: bool)
    requires HostInv(k, x, log) && DoneReceived(x) && SightedStream(x)
    requires a.Recv? && x.phase.Open? ==> !x.phase.blind
    ensures DoneReceived(HostStep(k, x, log, a, busy)) && SightedStream(HostStep(k, x, log, a, busy))
  {
  }

  lemma ContiguousAppend(x: Host, x': Host, at: nat)
    requires x.received != [] && Contiguous(x) && x'.received == x.received + [at]
    requires at <= x.received[0] || at - 1 in x.received
    ensures Contiguous(x')
  {
    var i :| 0 <= i < |x.received| && at <= x.received[i] + 1;
    forall j | 0 < j < |x'.received| ensures HasPredecessor(x'.received, j) {
      if j < |x.received| {
        assert HasPredecessor(x.received, j);
        var i' :| 0 <= i' < j && x.received[j] <= x.received[i'] + 1;
        assert x'.received[j] == x.received[j] && x'.received[i'] == x.received[i'];
      } else {
        assert x'.received[j] == at && x'.received[i] == x.received[i];
      }
    }
  }

  lemma ReceiveStep(k: Config, x: Host, log: seq<HostEvent>, a: Action, busy: bool)
    requires HostInv(k, x, log) && DoneReceived(x) && Contiguous(x) && SightedStream(x)
    requires a.Recv? && x.phase.Open? ==> !x.phase.blind
    ensures Contiguous(HostStep(k, x, log, a, busy))
  {
    if a.Recv? && x.phase.Open? && x.phase.at < x.head && x.received != [] {
      ContiguousAppend(x, HostStep(k, x, log, a, busy), x.phase.at);
    }
  }

  lemma {:induction false} ReceivedInOrder(k: Config, checkpoints: map<HostId, nat>, heads: map<HostId, nat>,
                                           acts: seq<Action>, h: HostId)
    requires ValidConfig(k) && h in k.w.logs && NoBlindRecv(k, Init(k, checkpoints, heads), acts, h)
    ensures var s := Exec(k, Init(k, checkpoints, heads), acts);
            h in s.hosts && Contiguous(s.hosts[h]) && DoneReceived(s.hosts[h]) && SightedStream(s.hosts[h])
    decreases |acts|
  {
    if acts != [] {
      var before, a := acts[..|acts| - 1], acts[|acts| - 1];
      ReceivedInOrder(k, checkpoints, heads, before, h);
      InvHolds(k, checkpoints, heads, before);
      var s := Exec(k, Init(k, checkpoints, heads), before);
      if a.host == h {
        DoneReceivedStep(k, s.hosts[h], k.w.logs[h], a, Busy(k, s.conv, s.hosts[h], a));
        ReceiveStep(k, s.hosts[h], k.w.logs[h], a, Busy(k, s.conv, s.hosts[h], a));
      }
    }
  }

  // ---------------------------------------------------------------- end to end

  /** The stream goes live although the stored checkpoint, which a later launch may read, stays behind. */
  predicate LeavesCheckpoint(x: Host, a: Action) {
    x.checkpoint.Some? && ((a.OutOfRange? && !a.deleteOk && x.phase.Open?) || (a.Launch? && !a.loadOk && x.phase.Down?))
  }

  ghost predicate NoneLeftBehind(k: Config, s: State, acts: seq<Action>)
    decreases |acts|
  {
    acts != [] ==>
      var t, a := Exec(k, s, acts[..|acts| - 1]), acts[|acts| - 1];
      NoneLeftBehind(k, s, acts[..|acts| - 1]) && (a.host in t.hosts ==> !LeavesCheckpoint(t.hosts[a.host], a))
  }

  /** Going on from position n misses nothing that took effect later, nor anything since the checkpoint. */
  ghost predicate GoesOn(x: Host, done: set<nat>, n: nat) {
    C.NoGapFrom(done, n) && (x.checkpoint.Some? ==> forall j: nat :: x.checkpoint.value <= j < n ==> j in done)
  }

  /** Every position the stream can resume from is such a position. */
  ghost predicate Resumable(x: Host, done: set<nat>) {
    && TokenInv(x)
    && (x.checkpoint.Some? ==> C.NoGapFrom(done, x.checkpoint.value))
    && match x.phase
       case Down => true
       case Ready(token) => token.Some? ==> GoesOn(x, done, token.value)
       case Open(_, at, _) => GoesOn(x, done, at)
       case Dispatching(at, _, _) => GoesOn(x, done, at)
       case Dispatched(at) => GoesOn(x, done, at) && at in done
  }

  /**
   The lifecycle handler is at the event being dispatched; what it finished took effect, and
   nothing that was not received.
   */
  ghost predicate Aligned(k: Config, x: Host, p: C.HostPos) {
    && (forall i :: i in p.done ==> i in x.received)
    && (k.lifecycle < |x.handled| ==> x.handled[k.lifecycle] <= p.done)
    && (x.phase.Dispatching? ==> if x.phase.handler <= k.lifecycle then p.cursor == x.phase.at
        else x.phase.at in p.done)
  }

  ghost predicate HostOk(k: Config, x: Host, p: C.HostPos) {
    Resumable(x, p.done) && Aligned(k, x, p)
  }

  ghost predicate SystemInv(k: Config, s: State) {
    && StateInv(k, s) && C.Inv(k.w, s.conv) && s.conv.touched == {}
    && forall h :: h in s.hosts ==> HostOk(k, s.hosts[h], s.conv.pos[h])
  }

  lemma RecvOk(k: Config, conv: C.State, x: Host, a: Action)
    requires ValidConfig(k) && C.Inv(k.w, conv) && a.host in k.w.logs
    requires HostInv(k, x, k.w.logs[a.host]) && HostOk(k, x, conv.pos[a.host])
    requires a.Recv? && x.phase.Open? && x.phase.at < x.head
    ensures C.Inv(k.w, ConvStep(k, conv, x, a)) && ConvStep(k, conv, x, a).touched == conv.touched
    ensures HostOk(k, HostStep(k, x, k.w.logs[a.host], a, false), ConvStep(k, conv, x, a).pos[a.host])
  {
    assert C.PosOk(k.w, conv, a.host);
    C.StepKeepsInv(k.w, conv, C.Seek(a.host, x.phase.at));
    var x' := HostStep(k, x, k.w.logs[a.host], a, false);
    assert forall i :: i in x.received ==> i in x'.received;
    assert x'.received[|x.received|] == x.phase.at;
  }

  /** One more event that took effect leaves every resume point as good as it was. */
  lemma OneMoreDone(x: Host, done: set<nat>, at: nat)
    requires x.phase.Dispatching? && x.phase.at == at && Resumable(x, done)
    ensures Resumable(x, done + {at})
  {
  }

  lemma LifecycleCallOk(k: Config, conv: C.State, x: Host, a: Action)
    requires ValidConfig(k) && C.Inv(k.w, conv) && a.host in k.w.logs
    requires HostInv(k, x, k.w.logs[a.host]) && HostOk(k, x, conv.pos[a.host])
    requires a.Call? && x.phase.Dispatching? && x.phase.handler == k.lifecycle
    ensures C.Inv(k.w, ConvStep(k, conv, x, a)) && ConvStep(k, conv, x, a).touched == conv.touched
    ensures HostOk(k, HostStep(k, x, k.w.logs[a.host], a, Busy(k, conv, x, a)), ConvStep(k, conv, x, a).pos[a.host])
  {
    assert C.PosOk(k.w, conv, a.host);
    assert x.phase.at in x.received;
    C.StepKeepsInv(k.w, conv, C.HandlerStep(a.host));
    LifecycleCallEffect(k, conv, a.host);
    OneMoreDone(x, conv.pos[a.host].done, x.phase.at);
  }

  lemma LifecycleCallEffect(k: Config, conv: C.State, h: HostId)
    requires C.Inv(k.w, conv) && h in k.w.logs && conv.pos[h].cursor < |k.w.logs[h]|
    ensures var p, p' := conv.pos[h], C.StepHandler(k.w, conv, h).pos[h];
            && (p'.done == p.done || p'.done == p.done + {p.cursor})
            && (p'.pending.Idle? ==> p.cursor in p'.done) && (!p'.pending.Idle? ==> p'.cursor == p.cursor)
  {
    assert C.PosOk(k.w, conv, h);
  }

  lemma OtherOk(k: Config, x: Host, log: seq<HostEvent>, a: Action, p: C.HostPos)
    requires ValidConfig(k) && HostInv(k, x, log) && HostOk(k, x, p) && !LeavesCheckpoint(x, a)
    requires !(a.Recv? && x.phase.Open? && x.phase.at < x.head)
    requires !(a.Call? && x.phase.Dispatching? && x.phase.handler == k.lifecycle)
    ensures HostOk(k, HostStep(k, x, log, a, false), p)
  {
  }

  lemma HostStepOk(k: Config, conv: C.State, x: Host, a: Action)
    requires ValidConfig(k) && C.Inv(k.w, conv) && a.host in k.w.logs
    requires HostInv(k, x, k.w.logs[a.host]) && HostOk(k, x, conv.pos[a.host]) && !LeavesCheckpoint(x, a)
    ensures C.Inv(k.w, ConvStep(k, conv, x, a)) && ConvStep(k, conv, x, a).touched == conv.touched
    ensures HostOk(k, HostStep(k, x, k.w.logs[a.host], a, Busy(k, conv, x, a)), ConvStep(k, conv, x, a).pos[a.host])
  {
    if a.Recv? && x.phase.Open? && x.phase.at < x.head {
      RecvOk(k, conv, x, a);
    } else if a.Call? && x.phase.Dispatching? && x.phase.handler == k.lifecycle {
      LifecycleCallOk(k, conv, x, a);
    } else {
      OtherOk(k, x, k.w.logs[a.host], a, conv.pos[a.host]);
    }
  }

  lemma SystemStep(k: Config, s: State, a: Action)
    requires ValidConfig(k) && SystemInv(k, s) && a.host in s.hosts && !LeavesCheckpoint(s.hosts[a.host], a)
    ensures SystemInv(k, Step(k, s, a))
  {
    StepKeepsInv(k, s, a);
    HostStepOk(k, s.conv, s.hosts[a.host], a);
    OthersStay(k, s, a);
    var s' := Step(k, s, a);
    forall h | h in s'.hosts ensures HostOk(k, s'.hosts[h], s'.conv.pos[h]) {
      if h != a.host {
        assert HostOk(k, s.hosts[h], s.conv.pos[h]);
      }
    }
  }

  lemma OthersStay(k: Config, s: State, a: Action)
    requires s.hosts.Keys == k.w.logs.Keys && a.host in s.hosts
    ensures forall h :: h in s.hosts && h != a.host ==> Step(k, s, a).hosts[h] == s.hosts[h]
    ensures forall h :: h in s.conv.pos && h != a.host ==>
              h in Step(k, s, a).conv.pos && Step(k, s, a).conv.pos[h] == s.conv.pos[h]
  {
  }

  lemma InitialHost(k: Config, checkpoints: map<HostId, nat>, heads: map<HostId, nat>, h: HostId)
    requires h in k.w.logs
    ensures var s := Init(k, checkpoints, heads);
            h in s.conv.pos && HostOk(k, s.hosts[h], s.conv.pos[h])
  {
    var x := Init(k, checkpoints, heads).hosts[h];
    assert x.phase.Down? && x.received == [];
  }

  lemma InitialSystem(k: Config, checkpoints: map<HostId, nat>, heads: map<HostId, nat>)
    requires ValidConfig(k)
    ensures SystemInv(k, Init(k, checkpoints, heads))
  {
    var s := Init(k, checkpoints, heads);
    InvHolds(k, checkpoints, heads, []);
    assert Exec(k, s, []) == s;
    C.InitInv(k.w, map[]);
    forall h | h in s.hosts
      ensures HostOk(k, s.hosts[h], s.conv.pos[h])
    {
      InitialHost(k, checkpoints, heads, h);
    }
  }

  /**
   The watcher, the handlers and the database together: every session row is canonical
   for a set of events that holds all the lifecycle handler finished and none that was
   not received, through any crashes, reconnects, live-only streams, rejected resume
   points and failed checkpoint writes, as long as no stream goes live past a checkpoint
   that stays stored.  What stream resets add is proved in module ResetInterference.
   */
  lemma {:induction false} RowsStayCanonical(k: Config, checkpoints: map<HostId, nat>, heads: map<HostId, nat>,
                                             acts: seq<Action>)
    requires ValidConfig(k) && NoneLeftBehind(k, Init(k, checkpoints, heads), acts)
    ensures SystemInv(k, Exec(k, Init(k, checkpoints, heads), acts))
    ensures var s := Exec(k, Init(k, checkpoints, heads), acts);
            && (forall id :: C.Canonical(k.w, s.conv, id))
            && (forall h :: h in s.hosts ==>
                  h in s.conv.pos && k.lifecycle < |s.hosts[h].handled|
                    && s.hosts[h].handled[k.lifecycle] <= s.conv.pos[h].done
                  && forall i :: i in s.conv.pos[h].done ==> i in s.hosts[h].received)
    decreases |acts|
  {
    if acts == [] {
      InitialSystem(k, checkpoints, heads);
    } else {
      var before, a := acts[..|acts| - 1], acts[|acts| - 1];
      RowsStayCanonical(k, checkpoints, heads, before);
      if a.host in k.w.logs {
        SystemStep(k, Exec(k, Init(k, checkpoints, heads), before), a);
      }
    }
    AllCanonical(k, Exec(k, Init(k, checkpoints, heads), acts));
  }

  lemma AllCanonical(k: Config, s: State)
    requires ValidConfig(k) && SystemInv(k, s)
    ensures forall id :: C.Canonical(k.w, s.conv, id)
    ensures forall h :: h in s.hosts ==>
              h in s.conv.pos && k.lifecycle < |s.hosts[h].handled|
                && s.hosts[h].handled[k.lifecycle] <= s.conv.pos[h].done
              && forall i :: i in s.conv.pos[h].done ==> i in s.hosts[h].received
  {
    forall h | h in s.hosts
      ensures HostInv(k, s.hosts[h], k.w.logs[h]) && HostOk(k, s.hosts[h], s.conv.pos[h])
    {
    }
  }

  // ---------------------------------------------------------------- the empty-token gap, concretely

  const HOST: HostId := "host-1"

  function Quiet(): HostEvent {
    HostEvent(OtherPayload, Some(0))
  }

  /** One handler, one host whose log holds three events. */
  function GapConfig(): Config {
    Config(C.World(map[HOST := [Quiet(), Quiet(), Quiet()]], map[HOST := "g"], map[]), 1, 0)
  }

  /** One more action at the end of a run. */
  lemma Play(k: Config, s: State, acts: seq<Action>, a: Action) returns (more: seq<Action>)
    ensures more == acts + [a] && Exec(k, s, more) == Step(k, Exec(k, s, acts), a)
  {
    more := acts + [a];
    assert more[..|more| - 1] == acts;
  }

  /** From launch to full dispatch of the event that is logged right after the stream opened. */
  lemma DispatchOne(s: State, acts: seq<Action>, n: nat) returns (more: seq<Action>)
    requires n <= 2 && HOST in Exec(GapConfig(), s, acts).hosts
    requires var x := Exec(GapConfig(), s, acts).hosts[HOST];
             x.phase.Down? && x.checkpoint.None? && x.head == n && |x.handled| == 1 && x.done <= n
    ensures more == acts + [Launch(HOST, true), Connect(HOST), Append(HOST), Recv(HOST), Call(HOST)]
    ensures HOST in Exec(GapConfig(), s, more).hosts
    ensures var x, x' := Exec(GapConfig(), s, acts).hosts[HOST], Exec(GapConfig(), s, more).hosts[HOST];
            x'.head == n + 1 && x'.checkpoint.None? && x'.received == x.received + [n] &&
            x'.handled == [x.handled[0] + {n}] && x'.done == n + 1
  {
    var k := GapConfig();
    more := Play(k, s, acts, Launch(HOST, true));
    more := Play(k, s, more, Connect(HOST));
    more := Play(k, s, more, Append(HOST));
    more := Play(k, s, more, Recv(HOST));
    more := Play(k, s, more, Call(HOST));
  }

  /**
   A new host: event 0 reaches the handler, the controller crashes before the first
   checkpoint write, event 1 is logged, and the restarted stream begins live at 2.
   No call failed, yet event 1 is never delivered.
   */
  lemma FirstCheckpointGap() returns (acts: seq<Action>)
    ensures ValidConfig(GapConfig())
    ensures forall i :: 0 <= i < |acts| ==> !TokenLost(acts[i])
    ensures var s := Exec(GapConfig(), Init(GapConfig(), map[], map[HOST := 0]), acts);
            HOST in s.hosts && s.hosts[HOST].received == [0, 2] && !Complete(s.hosts[HOST])
  {
    var k := GapConfig();
    var s := Init(k, map[], map[HOST := 0]);
    acts := DispatchOne(s, [], 0);
    acts := Play(k, s, acts, Crash(HOST));
    acts := Play(k, s, acts, Append(HOST));
    acts := DispatchOne(s, acts, 2);
    var x := Exec(k, s, acts).hosts[HOST];
    assert x.received[0] == 0 && 1 < x.done && 1 !in x.handled[0];
  }
}
