/**
 Publishes that overlap.  Publish and PublishTo share the read lock
 (usecase/notification/bus.go:78, usecase/notification/bus.go:93), so several
 publishers may be in the middle of a send to one subscriber (bus.go:132-145).  One that has
 dropped an event counts on the slot it freed; another one's try-send may take it.
 */
module BusOverlap {
  import opened Wrappers
  import opened NotificationBus
  import opened BusInterleaving

  // ---------------------------------------------------------------- slots that are spoken for

  /** The publishers that have dropped an event of the subscriber and have still to send theirs. */
  function Pushers(s: State, id: SubId): set<Thread> {
    set t | t in s.pubs && s.pubs[t].at == Pushing(id)
  }

  /** The slots of the channel that are filled or spoken for. */
  function Load(s: State, id: SubId): nat {
    (if id in s.feeds then |s.feeds[id].buf| else 0) + |Pushers(s, id)|
  }

  /** The try-send goes through. */
  predicate Sends(s: State, a: Action, id: SubId) {
    a.TrySend? && a.id == id && PubAt(s, a.t, id) && s.pubs[a.t].at.Choosing? && |s.feeds[id].buf| < BUFFER_SIZE
  }

  predicate Receives(s: State, a: Action, id: SubId) {
    a == Receive(id) && id in s.feeds && s.feeds[id].buf != []
  }

  /** It takes a slot although all are filled or spoken for. */
  predicate Steals(s: State, a: Action, id: SubId) {
    Sends(s, a, id) && Load(s, id) >= BUFFER_SIZE
  }

  /** The slots stolen in a run and not given back by the subscriber. */
  function Stolen(acts: seq<Action>, id: SubId): nat
    decreases |acts|
  {
    if acts == [] then 0
    else
      var s, a, before := Exec(Init(), acts[..|acts| - 1]), acts[|acts| - 1], Stolen(acts[..|acts| - 1], id);
      if Steals(s, a, id) then before + 1
      else if Receives(s, a, id) && before > 0 then before - 1
      else before
  }

  lemma SamePushers(s: State, s': State, id: SubId)
    requires forall t ::
               (t in s.pubs && s.pubs[t].at == Pushing(id)) <==> (t in s'.pubs && s'.pubs[t].at == Pushing(id))
    ensures Pushers(s', id) == Pushers(s, id)
  {
  }

  lemma TrySendLoad(s: State, t: Thread, u: SubId, id: SubId)
    requires Inv(s) && PubAt(s, t, u) && s.pubs[t].at.Choosing?
    ensures Load(StepTrySend(s, t, u), id) == Load(s, id) + if Sends(s, TrySend(t, u), id) then 1 else 0
  {
    SamePushers(s, StepTrySend(s, t, u), id);
  }

  lemma DrainLoad(s: State, t: Thread, u: SubId, id: SubId)
    requires Inv(s) && PubAt(s, t, u) && s.pubs[t].at.Draining?
    ensures Load(StepDrain(s, t, u), id) == Load(s, id)
  {
    var s' := StepDrain(s, t, u);
    if s.feeds[u].buf != [] && id == u {
      assert t !in Pushers(s, id) && Pushers(s', id) == Pushers(s, id) + {t};
    } else {
      SamePushers(s, s', id);
    }
  }

  lemma PushLoad(s: State, t: Thread, u: SubId, id: SubId)
    requires Inv(s) && PubAt(s, t, u) && s.pubs[t].at.Pushing?
    ensures Load(StepPush(s, t, u), id) == Load(s, id)
  {
    var s' := StepPush(s, t, u);
    if |s.feeds[u].buf| < BUFFER_SIZE && id == u {
      assert t in Pushers(s, id) && Pushers(s', id) == Pushers(s, id) - {t};
    } else {
      SamePushers(s, s', id);
    }
  }

  lemma QuietLoad(s: State, a: Action, id: SubId)
    requires Inv(s) && !a.TrySend? && !a.Drain? && !a.Push? && !a.Receive?
    ensures Load(Step(s, a), id) == Load(s, id)
  {
    SamePushers(s, Step(s, a), id);
  }

  /** Only a try-send that goes through adds to the load, and only the subscriber takes from it. */
  lemma LoadStep(s: State, a: Action, id: SubId)
    requires Inv(s)
    ensures Load(Step(s, a), id) == Load(s, id)
            + (if Sends(s, a, id) then 1 else 0) - (if Receives(s, a, id) then 1 else 0)
  {
    match a
    case TrySend(t, u) =>
      if PubAt(s, t, u) && s.pubs[t].at.Choosing? {
        TrySendLoad(s, t, u, id);
      }
    case Drain(t) =>
      if t in s.pubs && s.pubs[t].at.Draining? && PubAt(s, t, s.pubs[t].at.sub) {
        DrainLoad(s, t, s.pubs[t].at.sub, id);
      }
    case Push(t) =>
      if t in s.pubs && s.pubs[t].at.Pushing? && PubAt(s, t, s.pubs[t].at.sub) {
        PushLoad(s, t, s.pubs[t].at.sub, id);
      }
    case Receive(_) => SamePushers(s, Step(s, a), id);
    case _ => QuietLoad(s, a, id);
  }

  /** In every run, overlapping or not, the load exceeds the channel by exactly the slots stolen. */
  lemma {:induction false} StolenIsExcess(acts: seq<Action>, id: SubId)
    ensures var load := Load(Exec(Init(), acts), id);
            Stolen(acts, id) == if load > BUFFER_SIZE then load - BUFFER_SIZE else 0
    decreases |acts|
  {
    if acts == [] {
      assert Pushers(Init(), id) == {};
    } else {
      var before, a := acts[..|acts| - 1], acts[|acts| - 1];
      StolenIsExcess(before, id);
      NeverTouchesClosed(before);
      LoadStep(Exec(Init(), before), a, id);
    }
  }

  // ---------------------------------------------------------------- when the second send goes through

  lemma PusherIsThere(s: State, t: Thread)
    requires Inv(s) && t in s.pubs && s.pubs[t].at.Pushing?
    ensures var id := s.pubs[t].at.sub; PubAt(s, t, id) && !s.feeds[id].closed && t in Pushers(s, id)
  {
  }

  /** A second send blocks at the moment exactly when the buffer is full again. */
  lemma PushBlocksIffFull(acts: seq<Action>, t: Thread)
    requires t in Exec(Init(), acts).pubs && Exec(Init(), acts).pubs[t].at.Pushing?
    ensures var s := Exec(Init(), acts);
            var id := s.pubs[t].at.sub;
            && id in s.feeds && (Step(s, Push(t)) == s <==> |s.feeds[id].buf| == BUFFER_SIZE)
            && (Stolen(acts, id) == 0 ==> Step(s, Push(t)).pubs[t].at == Choosing)
  {
    NeverTouchesClosed(acts);
    var s := Exec(Init(), acts);
    PusherIsThere(s, t);
    StolenIsExcess(acts, s.pubs[t].at.sub);
    assert Pushers(s, s.pubs[t].at.sub) != {};
  }

  /** The subscriber takes nothing. */
  ghost predicate NoReceive(acts: seq<Action>, id: SubId) {
    forall i :: 0 <= i < |acts| ==> acts[i] != Receive(id)
  }

  lemma {:induction false} ExecConcat(s: State, acts: seq<Action>, more: seq<Action>)
    ensures Exec(s, acts + more) == Exec(Exec(s, acts), more)
    decreases |more|
  {
    if more == [] {
      assert acts + more == acts;
    } else {
      var all := acts + more;
      assert all[..|all| - 1] == acts + more[..|more| - 1] && all[|all| - 1] == more[|more| - 1];
      ExecConcat(s, acts, more[..|more| - 1]);
    }
  }

  lemma {:induction false} LoadStays(s: State, more: seq<Action>, id: SubId)
    requires Inv(s) && NoReceive(more, id)
    ensures Inv(Exec(s, more)) && Load(Exec(s, more), id) >= Load(s, id)
    decreases |more|
  {
    if more != [] {
      var t := Exec(s, more[..|more| - 1]);
      LoadStays(s, more[..|more| - 1], id);
      StepKeepsInv(t, more[|more| - 1]);
      LoadStep(t, more[|more| - 1], id);
      assert more[|more| - 1] != Receive(id);
    }
  }

  /** As long as no more slots are spoken for than there are, the pushers can go one after the other. */
  lemma {:induction false} PushAll(s: State, id: SubId) returns (more: seq<Action>)
    requires Inv(s) && Load(s, id) <= BUFFER_SIZE
    ensures NoReceive(more, id) && Pushers(Exec(s, more), id) == {}
    decreases |Pushers(s, id)|
  {
    if Pushers(s, id) == {} {
      more := [];
    } else {
      var t :| t in Pushers(s, id);
      PusherIsThere(s, t);
      var s' := Step(s, Push(t));
      StepKeepsInv(s, Push(t));
      LoadStep(s, Push(t), id);
      assert Pushers(s', id) == Pushers(s, id) - {t};
      var rest := PushAll(s', id);
      assert [Push(t)][..0] == [] && Exec(s, [Push(t)]) == s';
      ExecConcat(s, [Push(t)], rest);
      more := [Push(t)] + rest;
    }
  }

  /**
   Every run, with any overlap: the publishers that have dropped an event of a subscriber
   can all send theirs without it exactly when no stolen slot is outstanding.  Otherwise
   one of them waits for the subscriber, whatever anyone else does.
   */
  lemma PushersFinishIff(acts: seq<Action>, id: SubId)
    ensures (exists more :: NoReceive(more, id) && Pushers(Exec(Init(), acts + more), id) == {})
            <==> Stolen(acts, id) == 0
  {
    var s := Exec(Init(), acts);
    NeverTouchesClosed(acts);
    StolenIsExcess(acts, id);
    if Stolen(acts, id) == 0 {
      var more := PushAll(s, id);
      ExecConcat(Init(), acts, more);
      assert NoReceive(more, id) && Pushers(Exec(Init(), acts + more), id) == {};
    } else {
      forall more | NoReceive(more, id)
        ensures Pushers(Exec(Init(), acts + more), id) != {}
      {
        ExecConcat(Init(), acts, more);
        LoadStays(s, more, id);
      }
    }
  }

  /** Without overlap there is nobody whose slot could be stolen. */
  lemma SerialStealsNothing(acts: seq<Action>, id: SubId)
    requires Serial(acts)
    ensures Stolen(acts, id) == 0
  {
    StolenIsExcess(acts, id);
    SerialRunInv(acts);
    var s := Exec(Init(), acts);
    if t :| t in Pushers(s, id) {
      assert PubOk(s, t);
      assert Pushers(s, id) == {t};
      PusherIsThere(s, t);
    }
  }

  // ---------------------------------------------------------------- a run in which it blocks

  ghost predicate Reachable(s: State) {
    exists acts :: Exec(Init(), acts) == s
  }

  lemma ReachableStep(s: State, a: Action)
    requires Reachable(s)
    ensures Reachable(Step(s, a))
  {
    var acts :| Exec(Init(), acts) == s;
    assert (acts + [a])[..|acts + [a]| - 1] == acts;
    assert Exec(Init(), acts + [a]) == Step(s, a);
  }

  /**
   A run in which the second send blocks although the subscriber took nothing and nothing was
   dropped but one event: thread 1 finds the buffer full and drops the oldest event,
   thread 2 sends into the free slot.
   */
  lemma PushCanBlock() returns (s: State)
    ensures Reachable(s) && {1, 2} <= s.pubs.Keys && s.pubs[1].at == Pushing(1)
    ensures 1 in s.feeds && s.feeds[1].taken == [Taken("e", true)]
    ensures Step(s, Push(1)) == s
  {
    PendingReached(BUFFER_SIZE);
    var s0, note := Pending(BUFFER_SIZE), Note("e", None);
    assert Reachable(s0);
    ReachableStep(s0, Begin(1, note));
    var s1 := Step(s0, Begin(1, note));
    assert 1 in s1.pubs[1].todo;
    ReachableStep(s1, TrySend(1, 1));
    var s2 := Step(s1, TrySend(1, 1));
    assert s2.pubs[1].at.Draining?;
    ReachableStep(s2, Drain(1));
    var s3 := Step(s2, Drain(1));
    assert s3.pubs[1].at == Pushing(1) && |s3.feeds[1].buf| == BUFFER_SIZE - 1;
    ReachableStep(s3, Begin(2, note));
    var s4 := Step(s3, Begin(2, note));
    assert 1 in s4.pubs[2].todo;
    ReachableStep(s4, TrySend(2, 1));
    s := Step(s4, TrySend(2, 1));
  }

  // ---------------------------------------------------------------- when the drop before it blocks

  /** How many events went into the subscriber's channel: those that left it and those still there. */
  function Sent(s: State, id: SubId): nat {
    if id in s.feeds then |s.feeds[id].taken| + |s.feeds[id].buf| else 0
  }

  /** The send after a drop goes through. */
  predicate Replaces(s: State, a: Action, id: SubId) {
    a.Push? && a.t in s.pubs && s.pubs[a.t].at == Pushing(id) && id in s.feeds && |s.feeds[id].buf| < BUFFER_SIZE
  }

  lemma SentStep(s: State, a: Action, id: SubId)
    requires Inv(s) && id in s.feeds
    ensures Sent(Step(s, a), id) == Sent(s, id) + if Sends(s, a, id) || Replaces(s, a, id) then 1 else 0
  {
  }

  /** The step in which the try-send of a draining publisher found the buffer full. */
  function FoundFullAt(acts: seq<Action>, t: Thread): (n: nat)
    ensures n <= |acts|
    decreases |acts|
  {
    if acts == [] then 0
    else
      var before := Exec(Init(), acts[..|acts| - 1]);
      if t in before.pubs && before.pubs[t].at.Draining? then FoundFullAt(acts[..|acts| - 1], t) else |acts| - 1
  }

  lemma DrainerStep(s: State, a: Action, t: Thread)
    requires Inv(s) && t in Step(s, a).pubs && Step(s, a).pubs[t].at.Draining?
    ensures t in s.pubs && Step(s, a).pubs[t].at.sub in s.feeds
    ensures var p, p' := s.pubs[t].at, Step(s, a).pubs[t].at;
            p == p' || (a == TrySend(t, p'.sub) && p.Choosing? && |s.feeds[p'.sub].buf| == BUFFER_SIZE
                        && |s.feeds[p'.sub].taken| == p'.seen)
  {
  }

  /** What a draining publisher remembers of the moment its try-send failed. */
  lemma {:induction false} FoundFull(acts: seq<Action>, t: Thread)
    requires t in Exec(Init(), acts).pubs && Exec(Init(), acts).pubs[t].at.Draining?
    ensures var n, p := FoundFullAt(acts, t), Exec(Init(), acts).pubs[t].at;
            && n < |acts| && acts[n] == TrySend(t, p.sub)
            && p.sub in Exec(Init(), acts[..n]).feeds && Sent(Exec(Init(), acts[..n]), p.sub) == p.seen + BUFFER_SIZE
    decreases |acts|
  {
    var m := |acts| - 1;
    NeverTouchesClosed(acts[..m]);
    var s := Exec(Init(), acts[..m]);
    DrainerStep(s, acts[m], t);
    if s.pubs[t].at.Draining? {
      FoundFull(acts[..m], t);
      assert acts[..m][..FoundFullAt(acts, t)] == acts[..FoundFullAt(acts, t)];
    }
  }

  /**
   With any overlap: the drain blocks at the moment exactly when, since its try-send
   found the buffer full, as many events have left the channel, received or dropped by
   others, as the buffer holds and were sent meanwhile.
   */
  lemma DrainBlocksIffAllTaken(acts: seq<Action>, t: Thread)
    requires t in Exec(Init(), acts).pubs && Exec(Init(), acts).pubs[t].at.Draining?
    ensures var s := Exec(Init(), acts);
            var p, full := s.pubs[t].at, Exec(Init(), acts[..FoundFullAt(acts, t)]);
            p.sub in s.feeds &&
            (Step(s, Drain(t)) == s <==>
               |s.feeds[p.sub].taken| - p.seen == BUFFER_SIZE + Sent(s, p.sub) - Sent(full, p.sub))
  {
    NeverTouchesClosed(acts);
    FoundFull(acts, t);
    var s := Exec(Init(), acts);
    assert PubAt(s, t, s.pubs[t].at.sub);
  }

  // ---------------------------------------------------------------- when it blocks for good

  function Drainers(s: State, id: SubId): set<Thread> {
    set t | t in s.pubs && s.pubs[t].at.Draining? && s.pubs[t].at.sub == id
  }

  /**
   Publishers that wait for each other: each drains an empty channel, and whoever has
   still to send into one of these channels is one of them.
   */
  ghost predicate Deadlocked(s: State, k: set<Thread>) {
    forall t :: t in k ==> t in s.pubs && s.pubs[t].at.Draining? && Starved(s, s.pubs[t].at.sub, k)
  }

  ghost predicate Starved(s: State, id: SubId, k: set<Thread>) {
    id in s.feeds && s.feeds[id].buf == [] && forall r :: r in s.pubs && id in s.pubs[r].todo ==> r in k
  }

  ghost predicate NoBegin(acts: seq<Action>) {
    forall i :: 0 <= i < |acts| ==> !acts[i].Begin?
  }

  lemma StarvedStep(s: State, a: Action, k: set<Thread>, id: SubId)
    requires Inv(s) && Deadlocked(s, k) && k != {} && Starved(s, id, k) && !a.Begin?
    ensures Starved(Step(s, a), id, k)
  {
    var t :| t in k;
    assert s.pubs != map[];
    if (a.TrySend? || a.Drain? || a.Push?) && a.t in s.pubs {
      ActorElsewhere(s, a, k, id);
    }
  }

  lemma ActorElsewhere(s: State, a: Action, k: set<Thread>, id: SubId)
    requires Inv(s) && Deadlocked(s, k) && Starved(s, id, k) && (a.TrySend? || a.Drain? || a.Push?) && a.t in s.pubs
    ensures id in Step(s, a).feeds && Step(s, a).feeds[id] == s.feeds[id]
    ensures a.t in k ==> Step(s, a) == s
  {
    if a.t in k {
      assert Starved(s, s.pubs[a.t].at.sub, k);
    } else {
      assert id !in s.pubs[a.t].todo;
    }
  }

  lemma DeadlockStep(s: State, a: Action, k: set<Thread>)
    requires Inv(s) && Deadlocked(s, k) && k != {} && !a.Begin?
    ensures Deadlocked(Step(s, a), k)
    ensures forall t :: t in k ==> t in s.pubs && t in Step(s, a).pubs && Step(s, a).pubs[t] == s.pubs[t]
  {
    var s' := Step(s, a);
    var one :| one in k;
    forall t | t in k
      ensures t in s'.pubs && s'.pubs[t] == s.pubs[t] && Starved(s', s.pubs[t].at.sub, k)
    {
      var id := s.pubs[t].at.sub;
      assert Starved(s, id, k);
      StarvedStep(s, a, k, id);
      if (a.TrySend? || a.Drain? || a.Push?) && a.t in s.pubs {
        ActorElsewhere(s, a, k, id);
      }
    }
  }

  /** They wait for good, whatever subscribers and other publishers do, unless a new publish comes to their aid. */
  lemma {:induction false} DeadlockStays(s: State, more: seq<Action>, k: set<Thread>)
    requires Inv(s) && Deadlocked(s, k) && k != {} && NoBegin(more)
    ensures Inv(Exec(s, more)) && Deadlocked(Exec(s, more), k)
    ensures forall t :: t in k ==> t in s.pubs && t in Exec(s, more).pubs && Exec(s, more).pubs[t] == s.pubs[t]
    decreases |more|
  {
    if more != [] {
      var t, a := Exec(s, more[..|more| - 1]), more[|more| - 1];
      DeadlockStays(s, more[..|more| - 1], k);
      assert !a.Begin?;
      StepKeepsInv(t, a);
      DeadlockStep(t, a, k);
    }
  }

  /** A writer that waits for publishers keeps the others waiting. */
  lemma WriterWaits(s: State, a: Action)
    requires s.pubs != map[] && s.waiting != map[]
    ensures Step(s, a).waiting != map[] && Step(s, a).history == s.history && Step(s, a).subs == s.subs
    ensures a.Begin? ==> Step(s, a) == s
  {
  }

  /** And with a writer waiting, which keeps new publishes out, for good without exception. */
  lemma {:induction false} DeadlockWithWriterStays(s: State, more: seq<Action>, k: set<Thread>)
    requires Inv(s) && Deadlocked(s, k) && k != {} && s.waiting != map[]
    ensures Inv(Exec(s, more)) && Deadlocked(Exec(s, more), k) && Exec(s, more).waiting != map[]
    ensures Exec(s, more).history == s.history && Exec(s, more).subs == s.subs
    decreases |more|
  {
    if more != [] {
      var t, a := Exec(s, more[..|more| - 1]), more[|more| - 1];
      DeadlockWithWriterStays(s, more[..|more| - 1], k);
      var one :| one in k;
      assert one in t.pubs;
      WriterWaits(t, a);
      if !a.Begin? {
        StepKeepsInv(t, a);
        DeadlockStep(t, a, k);
      }
    }
  }

  // ---------------------------------------------------------------- otherwise everyone gets through

  /** The sends still to be made. */
  function Owing(s: State): set<(Thread, SubId)> {
    set t, id | t in s.pubs && id in s.pubs[t].todo :: (t, id)
  }

  function Choosers(s: State): set<Thread> {
    set t | t in s.pubs && s.pubs[t].at.Choosing?
  }

  function AllDrainers(s: State): set<Thread> {
    set t | t in s.pubs && s.pubs[t].at.Draining?
  }

  /** A publisher gets on: a send less to make, or one publisher less that has still to choose, or to drain. */
  ghost predicate Closer(s: State, s': State) {
    || Owing(s') < Owing(s)
    || (Owing(s') == Owing(s) && Choosers(s') < Choosers(s))
    || (Owing(s') == Owing(s) && Choosers(s') == Choosers(s) && AllDrainers(s') < AllDrainers(s))
  }

  /** A step of a publisher, or the subscriber's of a channel with more than one event. */
  predicate Careful(s: State, a: Action) {
    a.TrySend? || a.Drain? || a.Push? || a.End? || (a.Receive? && a.id in s.feeds && |s.feeds[a.id].buf| > 1)
  }

  /** A channel that is starved now was so before, if no publisher of the circle has just drained it. */
  lemma StarvedBefore(s: State, a: Action, k: set<Thread>, id: SubId)
    requires Inv(s) && Careful(s, a) && Starved(Step(s, a), id, k)
    requires a.Drain? && a.t in s.pubs && s.pubs[a.t].at.Draining? && s.pubs[a.t].at.sub == id ==>
               Step(s, a) == s || a.t !in k
    ensures Starved(s, id, k)
  {
  }

  /** Getting on closes no new circle of waiting publishers. */
  lemma NoNewDeadlock(s: State, a: Action, k: set<Thread>)
    requires Inv(s) && Careful(s, a) && Deadlocked(Step(s, a), k)
    ensures Deadlocked(s, k) && forall t :: t in k ==>
              t in s.pubs && t in Step(s, a).pubs && s.pubs[t].at == Step(s, a).pubs[t].at
  {
    var s' := Step(s, a);
    forall t | t in k
      ensures t in s.pubs && s.pubs[t].at == s'.pubs[t].at && Starved(s, s'.pubs[t].at.sub, k)
    {
      var id := s'.pubs[t].at.sub;
      assert Starved(s', id, k);
      DrainerStep(s, a, t);
      StarvedBefore(s, a, k, id);
    }
  }
  lemma TrySendGetsOn(s: State, t: Thread, id: SubId)
    requires Inv(s) && PubAt(s, t, id) && s.pubs[t].at.Choosing?
    ensures Closer(s, StepTrySend(s, t, id))
  {
    var s' := StepTrySend(s, t, id);
    if |s.feeds[id].buf| < BUFFER_SIZE {
      SendOwesLess(s, t, id);
    } else {
      assert Owing(s') == Owing(s);
      assert t in Choosers(s) && Choosers(s') == Choosers(s) - {t};
    }
  }

  lemma SendOwesLess(s: State, t: Thread, id: SubId)
    requires PubAt(s, t, id) && id in s.pubs[t].todo
    ensures Owing(Pushed(s, t, id)) < Owing(s)
  {
    assert (t, id) in Owing(s) && (t, id) !in Owing(Pushed(s, t, id));
  }

  lemma EndGetsOn(s: State, t: Thread)
    requires t in s.pubs && s.pubs[t].at.Choosing? && s.pubs[t].todo == {}
    ensures Closer(s, Step(s, End(t)))
  {
    var s' := Step(s, End(t));
    assert Owing(s') == Owing(s);
    assert t in Choosers(s) && Choosers(s') == Choosers(s) - {t};
  }

  lemma DrainGetsOn(s: State, t: Thread, id: SubId)
    requires Inv(s) && PubAt(s, t, id) && s.pubs[t].at.Draining? && s.feeds[id].buf != []
    ensures Closer(s, StepDrain(s, t, id))
  {
    var s' := StepDrain(s, t, id);
    assert Owing(s') == Owing(s) && Choosers(s') == Choosers(s);
    assert t in AllDrainers(s) && AllDrainers(s') == AllDrainers(s) - {t};
  }

  /** The subscriber of a full channel makes room for a publisher that waits to send. */
  lemma PushGetsOn(s: State, t: Thread) returns (acts: seq<Action>)
    requires Inv(s) && t in s.pubs && s.pubs[t].at.Pushing?
    ensures Progress(s, acts)
  {
    PusherIsThere(s, t);
    var id := s.pubs[t].at.sub;
    if |s.feeds[id].buf| < BUFFER_SIZE {
      SendOwesLess(s, t, id);
      acts := OneStep(s, Push(t));
    } else {
      var s1 := Step(s, Receive(id));
      StepKeepsInv(s, Receive(id));
      PusherIsThere(s1, t);
      assert Owing(s1) == Owing(s);
      SendOwesLess(s1, t, id);
      StepKeepsInv(s1, Push(t));
      assert [Receive(id), Push(t)][..1] == [Receive(id)] && [Receive(id)][..0] == [];
      assert Exec(s, [Receive(id)]) == s1 && Exec(s, [Receive(id), Push(t)]) == Step(s1, Push(t));
      acts := [Receive(id), Push(t)];
      forall k | Deadlocked(Exec(s, acts), k)
        ensures Kept(s, Exec(s, acts), k)
      {
        NoNewDeadlock(s1, Push(t), k);
        NoNewDeadlock(s, Receive(id), k);
      }
    }
  }

  /** The circle of waiting publishers was there before. */
  ghost predicate Kept(s: State, s': State, k: set<Thread>) {
    Deadlocked(s, k) && forall t :: t in k ==> t in s.pubs && t in s'.pubs && s.pubs[t].at == s'.pubs[t].at
  }

  /** Steps that bring the publishers closer to their ends and close no new circle. */
  ghost predicate Progress(s: State, acts: seq<Action>) {
    var s' := Exec(s, acts);
    NoBegin(acts) && Inv(s') && Closer(s, s') && forall k :: Deadlocked(s', k) ==> Kept(s, s', k)
  }

  lemma OneStep(s: State, a: Action) returns (acts: seq<Action>)
    requires Inv(s) && Careful(s, a) && Closer(s, Step(s, a))
    ensures Progress(s, acts)
  {
    acts := [a];
    assert [a][..0] == [] && Exec(s, [a]) == Step(s, a);
    StepKeepsInv(s, a);
    forall k | Deadlocked(Exec(s, acts), k)
      ensures Kept(s, Exec(s, acts), k)
    {
      NoNewDeadlock(s, a, k);
    }
  }

  /** Unless all publishers wait for each other, one of them gets on. */
  lemma SomeoneGetsOn(s: State) returns (acts: seq<Action>)
    requires Inv(s) && !Deadlocked(s, s.pubs.Keys)
    ensures Progress(s, acts)
  {
    if t :| t in s.pubs && s.pubs[t].at.Choosing? {
      if s.pubs[t].todo == {} {
        EndGetsOn(s, t);
        acts := OneStep(s, End(t));
      } else {
        var id :| id in s.pubs[t].todo;
        assert PubAt(s, t, id);
        TrySendGetsOn(s, t, id);
        acts := OneStep(s, TrySend(t, id));
      }
    } else if t :| t in s.pubs && s.pubs[t].at.Pushing? {
      acts := PushGetsOn(s, t);
    } else {
      var t :| t in s.pubs.Keys && !(s.pubs[t].at.Draining? && Starved(s, s.pubs[t].at.sub, s.pubs.Keys));
      var id := s.pubs[t].at.sub;
      assert PubAt(s, t, id) && s.feeds[id].buf != [];
      DrainGetsOn(s, t, id);
      acts := OneStep(s, Drain(t));
    }
  }

  ghost predicate Entangled(s: State, id: SubId) {
    exists k :: Deadlocked(s, k) && k * Drainers(s, id) != {}
  }

  lemma ProgressDisentangled(s: State, acts: seq<Action>, id: SubId)
    requires Progress(s, acts) && !Entangled(s, id)
    ensures !Entangled(Exec(s, acts), id)
  {
    var s' := Exec(s, acts);
    forall k | Deadlocked(s', k)
      ensures k * Drainers(s', id) == {}
    {
      assert Kept(s, s', k);
      assert k * Drainers(s', id) == k * Drainers(s, id);
    }
  }

  lemma CloserIsLess(s: State, s': State)
    requires Closer(s, s')
    ensures |Owing(s')| <= |Owing(s)| && (|Owing(s')| == |Owing(s)| ==> Owing(s') == Owing(s))
    ensures Owing(s') == Owing(s) ==>
              |Choosers(s')| <= |Choosers(s)|
                && (|Choosers(s')| == |Choosers(s)| ==> |AllDrainers(s')| < |AllDrainers(s)|)
  {
    if Owing(s') < Owing(s) {
      SmallerSet(Owing(s'), Owing(s));
    } else if Choosers(s') < Choosers(s) {
      SmallerSet(Choosers(s'), Choosers(s));
    } else {
      SmallerSet(AllDrainers(s'), AllDrainers(s));
    }
  }

  lemma SmallerSet<T>(a: set<T>, b: set<T>)
    requires a < b
    ensures |a| < |b|
  {
    var x :| x in b && x !in a;
    SubsetSize(a, b - {x});
  }

  lemma {:induction false} DrainAll(s: State, id: SubId) returns (more: seq<Action>)
    requires Inv(s) && !Entangled(s, id)
    ensures NoBegin(more) && Drainers(Exec(s, more), id) == {}
    decreases |Owing(s)|, |Choosers(s)|, |AllDrainers(s)|
  {
    if Drainers(s, id) == {} {
      more := [];
    } else {
      var d :| d in Drainers(s, id);
      assert d in s.pubs.Keys * Drainers(s, id);
      var acts := SomeoneGetsOn(s);
      ProgressDisentangled(s, acts, id);
      CloserIsLess(s, Exec(s, acts));
      var rest := DrainAll(Exec(s, acts), id);
      ExecConcat(s, acts, rest);
      more := acts + rest;
    }
  }

  /**
   Every run, with any overlap: without new publishes, the publishers that found a
   subscriber's buffer full all get past the drain, if the others go on, exactly when none
   of them belongs to a circle of publishers that wait for each other.
   */
  lemma DrainersFinishIff(acts: seq<Action>, id: SubId)
    ensures (exists more :: NoBegin(more) && Drainers(Exec(Init(), acts + more), id) == {})
       <==> !Entangled(Exec(Init(), acts), id)
  {
    var s := Exec(Init(), acts);
    NeverTouchesClosed(acts);
    if Entangled(s, id) {
      var k :| Deadlocked(s, k) && k * Drainers(s, id) != {};
      var t :| t in k * Drainers(s, id);
      forall more | NoBegin(more)
        ensures Drainers(Exec(Init(), acts + more), id) != {}
      {
        ExecConcat(Init(), acts, more);
        DeadlockStays(s, more, k);
        assert t in Drainers(Exec(s, more), id);
      }
    } else {
      var more := DrainAll(s, id);
      ExecConcat(Init(), acts, more);
      assert NoBegin(more) && Drainers(Exec(Init(), acts + more), id) == {};
    }
  }
}
