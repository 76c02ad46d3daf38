/**
 All runs of the watcher, those included in which a stream goes live past a checkpoint
 that stays stored, because reading or deleting it failed
 (worker/host_event_watcher.go:171-228).  A later stream may then resume from that
 checkpoint, behind a gap in what took effect.  Each such return begins a new epoch:
 from then on the rows are determined by the rows of that moment and what took effect since.
 */
module StreamEpochs {
  import opened Wrappers
  import opened SessionTable
  import opened SessionLifecycle
  import opened HostEventStream
  import C = EventConvergence
  import T = TouchedRows

  /** The rows when the epoch began, and the convergence state that counts what took effect since. */
  datatype Epoch = Epoch(base: Rows, conv: C.State)

  function WorldOf(k: Config, e: Epoch): C.World {
    k.w.(base := e.base)
  }

  /** The host's stream takes its next event. */
  predicate Takes(x: Host, a: Action) {
    a.Recv? && x.phase.Open? && x.phase.at < x.head
  }

  /** The event lies behind a position that took effect in this epoch, with one missing in between. */
  ghost predicate Returns(e: Epoch, x: Host, a: Action) {
    Takes(x, a) && a.host in e.conv.pos && !C.NoGapFrom(e.conv.pos[a.host].done, x.phase.at)
  }

  function Begin(conv: C.State): Epoch {
    Epoch(conv.rows, C.State(conv.rows, map h | h in conv.pos :: T.Forgotten(conv.pos[h]), {}))
  }

  ghost function Next(k: Config, s: State, e: Epoch, a: Action): Epoch {
    if a.host !in s.hosts || a.host !in k.w.logs then e
    else
      var x := s.hosts[a.host];
      var e' := if Returns(e, x, a) then Begin(e.conv) else e;
      e'.(conv := ConvStep(k.(w := WorldOf(k, e')), e'.conv, x, a))
  }

  ghost function EpochAfter(k: Config, checkpoints: map<HostId, nat>, heads: map<HostId, nat>, acts: seq<Action>): Epoch
    decreases |acts|
  {
    if acts == [] then Epoch(k.w.base, C.Init(k.w, map[]))
    else
      var before := acts[..|acts| - 1];
      Next(k, Exec(k, Init(k, checkpoints, heads), before), EpochAfter(k, checkpoints, heads, before), acts[|acts| - 1])
  }

  // ---------------------------------------------------------------- the rows of an epoch

  /** Only received events took effect, and the lifecycle handler works on the event being dispatched. */
  ghost predicate OnlyReceived(k: Config, x: Host, p: C.HostPos) {
    && (forall i :: i in p.done ==> i in x.received)
    && (x.phase.Dispatching? && x.phase.handler <= k.lifecycle ==> p.cursor == x.phase.at)
  }

  ghost predicate EpochInv(k: Config, s: State, e: Epoch) {
    && C.Inv(WorldOf(k, e), e.conv) && e.conv.touched == {} && T.Alike(s.conv, e.conv)
    && s.hosts.Keys == k.w.logs.Keys == e.conv.pos.Keys
    && forall h :: h in s.hosts ==> OnlyReceived(k, s.hosts[h], e.conv.pos[h])
  }

  lemma BeginPosOk(w: C.World, conv: C.State, h: HostId)
    requires C.Inv(w, conv) && conv.touched == {} && h in conv.pos
    ensures C.PosOk(w.(base := conv.rows), Begin(conv).conv, h)
  {
    assert C.PosOk(w, conv, h);
  }

  lemma BeginIsCanonical(w: C.World, conv: C.State, id: SessionId)
    ensures C.Canonical(w.(base := conv.rows), Begin(conv).conv, id)
  {
    if id in conv.rows {
      assert C.RowOfBase(w.(base := conv.rows), Begin(conv).conv, id, conv.rows[id]);
    }
  }

  lemma BeginKeepsInv(w: C.World, conv: C.State)
    requires C.Inv(w, conv) && conv.touched == {}
    ensures C.Inv(w.(base := conv.rows), Begin(conv).conv) && Begin(conv).conv.touched == {}
  {
    forall h | h in conv.pos
      ensures C.PosOk(w.(base := conv.rows), Begin(conv).conv, h)
    {
      BeginPosOk(w, conv, h);
    }
    forall id
      ensures C.Canonical(w.(base := conv.rows), Begin(conv).conv, id)
    {
      BeginIsCanonical(w, conv, id);
    }
  }

  lemma BeginInv(k: Config, s: State, e: Epoch)
    requires EpochInv(k, s, e)
    ensures EpochInv(k, s, Begin(e.conv))
  {
    var b := Begin(e.conv);
    BeginKeepsInv(WorldOf(k, e), e.conv);
    assert WorldOf(k, b) == WorldOf(k, e).(base := e.conv.rows);
    forall h | h in s.hosts
      ensures OnlyReceived(k, s.hosts[h], b.conv.pos[h])
    {
      assert OnlyReceived(k, s.hosts[h], e.conv.pos[h]);
    }
  }

  /** What the convergence state does in a step. */
  function ConvAction(k: Config, x: Host, a: Action): Option<C.Action> {
    if Takes(x, a) then Some(C.Seek(a.host, x.phase.at))
    else if a.Call? && x.phase.Dispatching? && x.phase.handler == k.lifecycle then Some(C.HandlerStep(a.host))
    else None
  }

  lemma ConvStepIsStep(k: Config, conv: C.State, x: Host, a: Action)
    ensures var ca := ConvAction(k, x, a);
            ConvStep(k, conv, x, a) == if ca.None? then conv else C.Step(k.w, conv, ca.value)
  {
  }

  /** The epoch's state moves like the state it was cut off from. */
  lemma MovesAlike(k: Config, w: C.World, conv: C.State, e: C.State, x: Host, a: Action)
    requires T.Alike(conv, e) && w == k.w.(base := w.base)
    ensures T.Alike(ConvStep(k, conv, x, a), ConvStep(k.(w := w), e, x, a))
  {
    ConvStepIsStep(k, conv, x, a);
    ConvStepIsStep(k.(w := w), e, x, a);
    if ConvAction(k, x, a).Some? {
      T.AlikeStep(k.w, w, conv, e, ConvAction(k, x, a).value);
    }
  }

  lemma ConvKeepsInv(k: Config, e: C.State, x: Host, a: Action)
    requires ValidConfig(k) && C.Inv(k.w, e) && e.touched == {} && a.host in k.w.logs && x.head <= |k.w.logs[a.host]|
    requires Takes(x, a) ==> C.NoGapFrom(e.pos[a.host].done, x.phase.at)
    ensures C.Inv(k.w, ConvStep(k, e, x, a)) && ConvStep(k, e, x, a).touched == {}
  {
    ConvStepIsStep(k, e, x, a);
    if ConvAction(k, x, a).Some? {
      C.StepKeepsInv(k.w, e, ConvAction(k, x, a).value);
    }
  }

  /**
   The host's own part: an event taken is received, and a database call lets at most the event at
   the cursor take effect.
   */
  lemma OwnReceived(k: Config, conv: C.State, e: C.State, x: Host, a: Action)
    requires ValidConfig(k) && C.Inv(k.w, e) && T.Alike(ConvStep(k, conv, x, a), ConvStep(k, e, x, a))
             && a.host in k.w.logs
    requires HostInv(k, x, k.w.logs[a.host]) && OnlyReceived(k, x, e.pos[a.host])
    ensures a.host in ConvStep(k, e, x, a).pos
    ensures OnlyReceived(k, HostStep(k, x, k.w.logs[a.host], a, Busy(k, conv, x, a)), ConvStep(k, e, x, a).pos[a.host])
  {
    if Takes(x, a) {
      var received := HostStep(k, x, k.w.logs[a.host], a, false).received;
      assert received == x.received + [x.phase.at];
    } else if a.Call? && x.phase.Dispatching? && x.phase.handler == k.lifecycle {
      assert C.PosOk(k.w, e, a.host);
      assert x.phase.at in x.received;
      LifecycleCallEffect(k, e, a.host);
    }
  }

  lemma OthersReceived(k: Config, s: State, e: Epoch, a: Action, h: HostId)
    requires EpochInv(k, s, e) && a.host in s.hosts && h in s.hosts && h != a.host
    ensures var conv' := ConvStep(k.(w := WorldOf(k, e)), e.conv, s.hosts[a.host], a);
            h in conv'.pos && OnlyReceived(k, Step(k, s, a).hosts[h], conv'.pos[h])
  {
    assert OnlyReceived(k, s.hosts[h], e.conv.pos[h]);
    ConvLeavesOthers(k.(w := WorldOf(k, e)), e.conv, s.hosts[a.host], a, h);
    assert Step(k, s, a).hosts[h] == s.hosts[h];
  }

  lemma ConvLeavesOthers(k: Config, conv: C.State, x: Host, a: Action, h: HostId)
    requires h in conv.pos && h != a.host
    ensures h in ConvStep(k, conv, x, a).pos && ConvStep(k, conv, x, a).pos[h] == conv.pos[h]
  {
  }

  lemma NextConv(k: Config, s: State, e: Epoch, a: Action)
    requires ValidConfig(k) && StateInv(k, s) && EpochInv(k, s, e) && a.host in s.hosts
             && !Returns(e, s.hosts[a.host], a)
    ensures var conv' := ConvStep(k.(w := WorldOf(k, e)), e.conv, s.hosts[a.host], a);
            C.Inv(WorldOf(k, e), conv') && conv'.touched == {} && T.Alike(Step(k, s, a).conv, conv')
  {
    var k', x := k.(w := WorldOf(k, e)), s.hosts[a.host];
    assert HostInv(k, x, k.w.logs[a.host]);
    ConvKeepsInv(k', e.conv, x, a);
    MovesAlike(k, WorldOf(k, e), s.conv, e.conv, x, a);
  }

  lemma NextReceived(k: Config, s: State, e: Epoch, a: Action)
    requires ValidConfig(k) && StateInv(k, s) && EpochInv(k, s, e) && a.host in s.hosts
    ensures var s', conv' := Step(k, s, a), ConvStep(k.(w := WorldOf(k, e)), e.conv, s.hosts[a.host], a);
            forall h :: h in s'.hosts ==> h in conv'.pos && OnlyReceived(k, s'.hosts[h], conv'.pos[h])
  {
    var s', conv' := Step(k, s, a), ConvStep(k.(w := WorldOf(k, e)), e.conv, s.hosts[a.host], a);
    forall h | h in s'.hosts
      ensures h in conv'.pos && OnlyReceived(k, s'.hosts[h], conv'.pos[h])
    {
      if h == a.host {
        OwnInEpoch(k, s, e, a);
      } else {
        OthersReceived(k, s, e, a, h);
      }
    }
  }

  lemma NextInEpoch(k: Config, s: State, e: Epoch, a: Action)
    requires ValidConfig(k) && StateInv(k, s) && EpochInv(k, s, e) && a.host in s.hosts
             && !Returns(e, s.hosts[a.host], a)
    ensures EpochInv(k, Step(k, s, a), e.(conv := ConvStep(k.(w := WorldOf(k, e)), e.conv, s.hosts[a.host], a)))
  {
    NextConv(k, s, e, a);
    NextReceived(k, s, e, a);
    StepKeepsInv(k, s, a);
  }

  lemma OwnInEpoch(k: Config, s: State, e: Epoch, a: Action)
    requires ValidConfig(k) && StateInv(k, s) && EpochInv(k, s, e) && a.host in s.hosts
    ensures var conv' := ConvStep(k.(w := WorldOf(k, e)), e.conv, s.hosts[a.host], a);
            a.host in conv'.pos && OnlyReceived(k, Step(k, s, a).hosts[a.host], conv'.pos[a.host])
  {
    assert HostInv(k, s.hosts[a.host], k.w.logs[a.host]) && OnlyReceived(k, s.hosts[a.host], e.conv.pos[a.host]);
    assert Step(k, s, a).hosts[a.host] == OwnStep(k, s, a);
    OwnCutOff(k, WorldOf(k, e), s.conv, e.conv, s.hosts[a.host], a);
  }

  function OwnStep(k: Config, s: State, a: Action): Host
    requires a.host in s.hosts && a.host in k.w.logs
  {
    HostStep(k, s.hosts[a.host], k.w.logs[a.host], a, Busy(k, s.conv, s.hosts[a.host], a))
  }

  lemma OwnCutOff(k: Config, w: C.World, conv: C.State, e: C.State, x: Host, a: Action)
    requires ValidConfig(k) && w == k.w.(base := w.base) && C.Inv(w, e) && T.Alike(conv, e) && a.host in k.w.logs
    requires HostInv(k, x, k.w.logs[a.host]) && OnlyReceived(k, x, e.pos[a.host])
    ensures a.host in ConvStep(k.(w := w), e, x, a).pos
    ensures OnlyReceived(k, HostStep(k, x, k.w.logs[a.host], a, Busy(k, conv, x, a)),
                         ConvStep(k.(w := w), e, x, a).pos[a.host])
  {
    var k' := k.(w := w);
    assert HostInv(k', x, k.w.logs[a.host]) && OnlyReceived(k', x, e.pos[a.host]);
    MovesAlike(k, w, conv, e, x, a);
    SameInBoth(k, k', conv, x, a, k.w.logs[a.host]);
    OwnReceived(k', conv, e, x, a);
  }

  /** What the rows began with plays no part in a step. */
  lemma SameInBoth(k: Config, k': Config, conv: C.State, x: Host, a: Action, log: seq<HostEvent>)
    requires k' == k.(w := k.w.(base := k'.w.base))
    ensures ConvStep(k', conv, x, a) == ConvStep(k, conv, x, a) && Busy(k', conv, x, a) == Busy(k, conv, x, a)
    ensures HostStep(k', x, log, a, Busy(k, conv, x, a)) == HostStep(k, x, log, a, Busy(k, conv, x, a))
  {
  }

  lemma NextInv(k: Config, s: State, e: Epoch, a: Action)
    requires ValidConfig(k) && StateInv(k, s) && EpochInv(k, s, e)
    ensures EpochInv(k, Step(k, s, a), Next(k, s, e, a))
  {
    if a.host in s.hosts && a.host in k.w.logs {
      if Returns(e, s.hosts[a.host], a) {
        BeginInv(k, s, e);
        NextInEpoch(k, s, Begin(e.conv), a);
      } else {
        NextInEpoch(k, s, e, a);
      }
    }
  }

  /**
   Every run of watcher, handlers and database, without exception: every row is canonical
   for the rows at the beginning of the current epoch and the events that took effect
   in it, all of them received.
   */
  lemma {:induction false} RowsFollowEpoch(k: Config, checkpoints: map<HostId, nat>, heads: map<HostId, nat>,
                                           acts: seq<Action>)
    requires ValidConfig(k)
    ensures var s, e := Exec(k, Init(k, checkpoints, heads), acts), EpochAfter(k, checkpoints, heads, acts);
            && EpochInv(k, s, e) && s.conv.rows == e.conv.rows
            && (forall id :: C.Canonical(WorldOf(k, e), e.conv, id))
            && (forall h, i :: h in s.hosts && i in e.conv.pos[h].done ==> i in s.hosts[h].received)
    decreases |acts|
  {
    InvHolds(k, checkpoints, heads, acts);
    if acts == [] {
      C.InitInv(k.w, map[]);
      assert WorldOf(k, EpochAfter(k, checkpoints, heads, [])) == k.w;
    } else {
      var before := acts[..|acts| - 1];
      RowsFollowEpoch(k, checkpoints, heads, before);
      InvHolds(k, checkpoints, heads, before);
      NextInv(k, Exec(k, Init(k, checkpoints, heads), before), EpochAfter(k, checkpoints, heads, before),
              acts[|acts| - 1]);
    }
    EpochFacts(k, Exec(k, Init(k, checkpoints, heads), acts), EpochAfter(k, checkpoints, heads, acts));
  }

  lemma EpochFacts(k: Config, s: State, e: Epoch)
    requires EpochInv(k, s, e)
    ensures forall id :: C.Canonical(WorldOf(k, e), e.conv, id)
    ensures forall h, i :: h in s.hosts && i in e.conv.pos[h].done ==> i in s.hosts[h].received
  {
    forall h, i | h in s.hosts && i in e.conv.pos[h].done
      ensures i in s.hosts[h].received
    {
      assert OnlyReceived(k, s.hosts[h], e.conv.pos[h]);
    }
  }

  /**
   As long as no stream goes live past a checkpoint that stays stored, there is one epoch only, and
   the rows are those of all events.
   */
  lemma {:induction false} OneEpoch(k: Config, checkpoints: map<HostId, nat>, heads: map<HostId, nat>,
                                    acts: seq<Action>)
    requires ValidConfig(k) && NoneLeftBehind(k, Init(k, checkpoints, heads), acts)
    ensures EpochAfter(k, checkpoints, heads, acts) == Epoch(k.w.base, Exec(k, Init(k, checkpoints, heads), acts).conv)
    decreases |acts|
  {
    if acts != [] {
      var before, a := acts[..|acts| - 1], acts[|acts| - 1];
      OneEpoch(k, checkpoints, heads, before);
      RowsStayCanonical(k, checkpoints, heads, before);
      var s := Exec(k, Init(k, checkpoints, heads), before);
      if a.host in s.hosts {
        assert HostOk(k, s.hosts[a.host], s.conv.pos[a.host]);
      }
      assert k.(w := k.w.(base := k.w.base)) == k;
    }
  }
}
