/**
 Several hosts' stream goroutines and the controller work on the session cache at once.
 A step is one locked cache operation: an event that patches a session first reads its
 entry and later writes the changed copy under the host the event came from
 (worker/session_state_sync_handler.go:122-198); a reset stores the listed sessions and
 prunes the rest (worker/session_state_sync_handler.go:99-109); the controller stores
 and removes entries (usecase/session_usecase.go:168, usecase/session_usecase.go:213).
 Proved: when a session stays cached, when it stays with its host, when it stays gone.
 */
module MovedSessions {
  import opened Wrappers
  import opened SessionStateCache
  import opened StreamReset

  /** `busy` holds, for every host whose goroutine is between read and write, the write to come. */
  datatype State = State(cache: Cache, busy: map<HostId, Op>)

  datatype Action =
    | Handle(host: HostId, ev: HostEvent)
    | Put(host: HostId)
    | Store(host: HostId, id: SessionId, snapshot: Snapshot)
    | Prune(host: HostId, live: set<SessionId>)
    | Remove(id: SessionId)

  const NOTHING: Op := SetOp("", "", None)

  /** The event changes a copy of the cached snapshot, rather than replacing or removing the entry outright. */
  predicate Patches(ev: HostEvent) {
    (ev.WorldSaved? && ev.worldUrl != "") || ev.UserJoined? || ev.UserLeft?
  }

  /** The cache operation of a step; a goroutine takes no event before it is done with the last. */
  function OpOf(s: State, a: Action): Op {
    match a
    case Handle(h, ev) => if h in s.busy || Patches(ev) then NOTHING else EventOp(s.cache, h, ev)
    case Put(h) => if h in s.busy then s.busy[h] else NOTHING
    case Store(h, id, snapshot) => SetOp(h, id, Some(snapshot))
    case Prune(h, live) => PruneOp(h, live)
    case Remove(id) => DeleteOp(id)
  }

  function BusyAfter(s: State, a: Action): map<HostId, Op> {
    match a
    case Handle(h, ev) => if h !in s.busy && Patches(ev) then s.busy[h := EventOp(s.cache, h, ev)] else s.busy
    case Put(h) => s.busy - {h}
    case _ => s.busy
  }

  function Step(s: State, a: Action): State {
    State(Apply(s.cache, OpOf(s, a)), BusyAfter(s, a))
  }

  function Exec(s: State, acts: seq<Action>): State
    decreases |acts|
  {
    if acts == [] then s else Step(Exec(s, acts[..|acts| - 1]), acts[|acts| - 1])
  }

  function Fresh(c: Cache): State {
    State(c, map[])
  }

  lemma Extend(s: State, acts: seq<Action>, a: Action)
    ensures Exec(s, acts + [a]) == Step(Exec(s, acts), a)
  {
    assert (acts + [a])[..|acts + [a]| - 1] == acts;
  }

  // ---------------------------------------------------------------- what the steps alone tell

  /** The session whose patch the host's goroutine has begun and not written yet. */
  function Patching(acts: seq<Action>, h: HostId): Option<SessionId>
    decreases |acts|
  {
    if acts == [] then None
    else
      var before, a := acts[..|acts| - 1], acts[|acts| - 1];
      if a == Put(h) then None
      else if a.Handle? && a.host == h && Patches(a.ev) && Patching(before, h).None? then Some(a.ev.id)
      else Patching(before, h)
  }

  /** The host under which a step writes the entry of `id`. */
  function Writer(before: seq<Action>, a: Action, id: SessionId): Option<HostId> {
    match a
    case Handle(h, ev) =>
      if ev.ParametersChanged? && ev.id == id && ev.snapshot.Some? && Patching(before, h).None? then Some(h) else None
    case Put(h) => if Patching(before, h) == Some(id) then Some(h) else None
    case Store(h, x, _) => if x == id then Some(h) else None
    case _ => None
  }

  /** The host that wrote the entry of `id` last, to begin with `owner`. */
  function LastWriter(owner: HostId, acts: seq<Action>, id: SessionId): HostId
    decreases |acts|
  {
    if acts == [] then owner
    else
      var before := acts[..|acts| - 1];
      match Writer(before, acts[|acts| - 1], id)
      case Some(h) => h
      case None => LastWriter(owner, before, id)
  }

  /**
   The end of the session, from whatever host; its removal by the controller; or a
   reset that does not list it, of the host that wrote it last.
   */
  predicate Drops(owner: HostId, before: seq<Action>, a: Action, id: SessionId) {
    match a
    case Handle(h, ev) => ev == SessionEnded(id) && Patching(before, h).None?
    case Prune(h, live) => LastWriter(owner, before, id) == h && id !in live
    case Remove(x) => x == id
    case _ => false
  }

  /** After every step of the run, from its beginning on. */
  predicate StaysCached(c: Cache, acts: seq<Action>, id: SessionId)
    decreases |acts|
  {
    id in Exec(Fresh(c), acts).cache && (acts != [] ==> StaysCached(c, acts[..|acts| - 1], id))
  }

  /** At every step of the run. */
  predicate NeverDropped(owner: HostId, acts: seq<Action>, id: SessionId)
    decreases |acts|
  {
    acts != [] ==>
      NeverDropped(owner, acts[..|acts| - 1], id) && !Drops(owner, acts[..|acts| - 1], acts[|acts| - 1], id)
  }

  lemma {:induction false} BusyIsPatching(c: Cache, acts: seq<Action>, h: HostId)
    ensures h in Exec(Fresh(c), acts).busy <==> Patching(acts, h).Some?
    ensures h in Exec(Fresh(c), acts).busy ==>
              var op := Exec(Fresh(c), acts).busy[h];
              op.SetOp? && op.host == h && Some(op.id) == Patching(acts, h)
    decreases |acts|
  {
    if acts != [] {
      BusyIsPatching(c, acts[..|acts| - 1], h);
    }
  }

  /** As long as the session is cached, a goroutine that patches it has found it. */
  lemma {:induction false} PatchFindsEntry(c: Cache, acts: seq<Action>, h: HostId, id: SessionId)
    requires StaysCached(c, acts, id) && Patching(acts, h) == Some(id)
    ensures h in Exec(Fresh(c), acts).busy && Exec(Fresh(c), acts).busy[h].SetOp?
            && Exec(Fresh(c), acts).busy[h].snapshot.Some?
    decreases |acts|
  {
    var before := acts[..|acts| - 1];
    BusyIsPatching(c, before, h);
    if Patching(before, h).Some? {
      PatchFindsEntry(c, before, h, id);
    }
  }

  /** What one step does to a cached entry. */
  lemma EntryStep(c: Cache, before: seq<Action>, a: Action, id: SessionId)
    requires id in c && StaysCached(c, before, id)
    requires Exec(Fresh(c), before).cache[id].host == LastWriter(c[id].host, before, id)
    ensures var cache' := Step(Exec(Fresh(c), before), a).cache;
            && (id in cache' <==> !Drops(c[id].host, before, a, id))
            && (id in cache' ==> cache'[id].host == match Writer(before, a, id)
                                                     case Some(h) => h
                                                     case None => LastWriter(c[id].host, before, id))
  {
    if a.Handle? || a.Put? {
      BusyIsPatching(c, before, a.host);
      if Patching(before, a.host) == Some(id) {
        PatchFindsEntry(c, before, a.host, id);
      }
    }
  }

  /**
   Every run: a cached session stays cached exactly as long as it does not end, is not
   removed, and is listed by every reset of the host that wrote it last; and that host
   owns it.
   */
  lemma {:induction false} StaysCachedIff(c: Cache, acts: seq<Action>, id: SessionId)
    requires id in c
    ensures StaysCached(c, acts, id) <==> NeverDropped(c[id].host, acts, id)
    ensures StaysCached(c, acts, id) ==>
              id in Exec(Fresh(c), acts).cache
                && Exec(Fresh(c), acts).cache[id].host == LastWriter(c[id].host, acts, id)
    decreases |acts|
  {
    if acts != [] {
      var before := acts[..|acts| - 1];
      StaysCachedIff(c, before, id);
      if StaysCached(c, before, id) {
        EntryStep(c, before, acts[|acts| - 1], id);
      }
    }
  }

  // ---------------------------------------------------------------- a session stays with its host

  predicate OwnedBy(c: Cache, id: SessionId, owner: HostId) {
    id in c && c[id].host == owner
  }

  predicate StaysWith(c: Cache, acts: seq<Action>, id: SessionId, owner: HostId)
    decreases |acts|
  {
    OwnedBy(Exec(Fresh(c), acts).cache, id, owner) && (acts != [] ==> StaysWith(c, acts[..|acts| - 1], id, owner))
  }

  /** No step writes the entry under another host. */
  predicate NoForeignWrite(acts: seq<Action>, id: SessionId, owner: HostId)
    decreases |acts|
  {
    acts != [] ==>
      var before := acts[..|acts| - 1];
      NoForeignWrite(before, id, owner) && Writer(before, acts[|acts| - 1], id) in {None, Some(owner)}
  }

  /**
   A session stays with its host exactly as long as no other host writes it, it does not
   end and is not removed, and the host's own resets list it.
   */
  lemma {:induction false} StaysWithOwnerIff(c: Cache, acts: seq<Action>, id: SessionId)
    requires id in c
    ensures StaysWith(c, acts, id, c[id].host) <==>
              NoForeignWrite(acts, id, c[id].host) && NeverDropped(c[id].host, acts, id)
    ensures NoForeignWrite(acts, id, c[id].host) ==> LastWriter(c[id].host, acts, id) == c[id].host
    ensures StaysWith(c, acts, id, c[id].host) ==> StaysCached(c, acts, id)
    decreases |acts|
  {
    StaysCachedIff(c, acts, id);
    if acts != [] {
      StaysWithOwnerIff(c, acts[..|acts| - 1], id);
      StaysCachedIff(c, acts[..|acts| - 1], id);
    }
  }

  /** The inputs that make a former host `a` lose a session that `b` runs: its late patch and its next reset ... */
  lemma LateEventLosesMovedSession(c: Cache, a: HostId, ev: HostEvent, id: SessionId, live: set<SessionId>)
    requires id in c && c[id].host != a && Patches(ev) && ev.id == id && id !in live
    ensures id in Exec(Fresh(c), [Prune(a, live)]).cache
    ensures OwnedBy(Exec(Fresh(c), [Handle(a, ev), Put(a)]).cache, id, a)
    ensures id !in Exec(Fresh(c), [Handle(a, ev), Put(a), Prune(a, live)]).cache
  {
    Extend(Fresh(c), [], Prune(a, live));
    Extend(Fresh(c), [], Handle(a, ev));
    Extend(Fresh(c), [Handle(a, ev)], Put(a));
    Extend(Fresh(c), [Handle(a, ev), Put(a)], Prune(a, live));
    assert [] + [Prune(a, live)] == [Prune(a, live)] && [] + [Handle(a, ev)] == [Handle(a, ev)];
    assert [Handle(a, ev)] + [Put(a)] == [Handle(a, ev), Put(a)];
    assert [Handle(a, ev), Put(a)] + [Prune(a, live)] == [Handle(a, ev), Put(a), Prune(a, live)];
  }

  /** ... or its late report that the session ended, at once. */
  lemma LateEndLosesMovedSession(c: Cache, a: HostId, id: SessionId)
    requires id in c && c[id].host != a
    ensures id !in Exec(Fresh(c), [Handle(a, SessionEnded(id))]).cache
  {
    assert [] + [Handle(a, SessionEnded(id))] == [Handle(a, SessionEnded(id))];
    Extend(Fresh(c), [], Handle(a, SessionEnded(id)));
  }

  // ---------------------------------------------------------------- a session that is gone stays gone

  /** The write the host's goroutine had begun before the run is still to come. */
  ghost predicate StillToCome(s: State, before: seq<Action>, h: HostId) {
    h in s.busy && Put(h) !in before
  }

  /** A report or a store of the session, or a write that was begun while it was still cached. */
  ghost predicate Revives(s: State, before: seq<Action>, a: Action, id: SessionId) {
    match a
    case Handle(h, ev) => ev.ParametersChanged? && ev.id == id && ev.snapshot.Some? && h !in Exec(s, before).busy
    case Put(h) => StillToCome(s, before, h) && s.busy[h].SetOp? && s.busy[h].id == id && s.busy[h].snapshot.Some?
    case Store(_, x, _) => x == id
    case _ => false
  }

  predicate StaysGone(s: State, acts: seq<Action>, id: SessionId)
    decreases |acts|
  {
    id !in Exec(s, acts).cache && (acts != [] ==> StaysGone(s, acts[..|acts| - 1], id))
  }

  ghost predicate NeverRevived(s: State, acts: seq<Action>, id: SessionId)
    decreases |acts|
  {
    acts != [] ==> NeverRevived(s, acts[..|acts| - 1], id) && !Revives(s, acts[..|acts| - 1], acts[|acts| - 1], id)
  }

  /** While the session is gone, nobody new finds it: a write of it that is to come was begun before. */
  ghost predicate OnlyOldWrites(s: State, acts: seq<Action>, id: SessionId, h: HostId) {
    var t := Exec(s, acts);
    && (StillToCome(s, acts, h) ==> h in t.busy && t.busy[h] == s.busy[h])
    && (h in t.busy && !StillToCome(s, acts, h) ==>
        t.busy[h].SetOp? && (t.busy[h].id == id ==> t.busy[h].snapshot.None?))
  }

  lemma {:induction false} WritesAreOld(s: State, acts: seq<Action>, id: SessionId, h: HostId)
    requires StaysGone(s, acts, id)
    ensures OnlyOldWrites(s, acts, id, h)
    decreases |acts|
  {
    if acts != [] {
      var m := |acts| - 1;
      assert acts == acts[..m] + [acts[m]];
      WritesAreOld(s, acts[..m], id, h);
    }
  }

  /** From any state: a session that is not cached stays so exactly as long as none of this happens. */
  lemma {:induction false} StaysGoneIff(s: State, acts: seq<Action>, id: SessionId)
    requires id !in s.cache && forall h :: h in s.busy ==> s.busy[h].SetOp?
    ensures StaysGone(s, acts, id) <==> NeverRevived(s, acts, id)
    decreases |acts|
  {
    if acts != [] {
      var m := |acts| - 1;
      StaysGoneIff(s, acts[..m], id);
      if StaysGone(s, acts[..m], id) && acts[m].Put? {
        WritesAreOld(s, acts[..m], id, acts[m].host);
      }
    }
  }

  /** A session stopped while an event of it is half handled is cached again, without anything running. */
  lemma StoppedSessionComesBack(c: Cache, id: SessionId)
    requires id in c
    ensures var h := c[id].host;
            var stopped := Exec(Fresh(c), [Handle(h, UserLeft(id)), Remove(id)]);
            id !in stopped.cache && id in Step(stopped, Put(h)).cache
  {
    var h := c[id].host;
    Extend(Fresh(c), [], Handle(h, UserLeft(id)));
    Extend(Fresh(c), [Handle(h, UserLeft(id))], Remove(id));
    assert [] + [Handle(h, UserLeft(id))] == [Handle(h, UserLeft(id))];
    assert [Handle(h, UserLeft(id))] + [Remove(id)] == [Handle(h, UserLeft(id)), Remove(id)];
  }

  // ---------------------------------------------------------------- the steps are those of the handler

  /** With nothing running in between, the steps of an event are the sequential handler. */
  lemma HandlerIsSteps(c: Cache, h: HostId, ev: HostEvent)
    ensures var begun := Step(Fresh(c), Handle(h, ev));
            (if Patches(ev) then Step(begun, Put(h)) else begun) == Fresh(Apply(c, EventOp(c, h, ev)))
  {
  }

  /** The stores of a reset, in whatever order the listed sessions come. */
  function Stores(h: HostId, live: map<SessionId, Snapshot>, order: seq<SessionId>): (acts: seq<Action>)
    requires forall i :: 0 <= i < |order| ==> order[i] in live
    decreases |order|
  {
    if order == [] then []
    else Stores(h, live, order[..|order| - 1]) + [Store(h, order[|order| - 1], live[order[|order| - 1]])]
  }

  lemma {:induction false} StoresStore(c: Cache, h: HostId, live: map<SessionId, Snapshot>, order: seq<SessionId>)
    requires forall i :: 0 <= i < |order| ==> order[i] in live
    ensures Exec(Fresh(c), Stores(h, live, order)).busy == map[]
    ensures forall id :: id in Exec(Fresh(c), Stores(h, live, order)).cache <==> id in c || id in order
    ensures forall id :: id in c || id in order ==>
              Exec(Fresh(c), Stores(h, live, order)).cache[id] == if id in order then Entry(h, live[id]) else c[id]
    decreases |order|
  {
    if order != [] {
      var m := |order| - 1;
      StoresStore(c, h, live, order[..m]);
      Extend(Fresh(c), Stores(h, live, order[..m]), Store(h, order[m], live[order[m]]));
      assert order == order[..m] + [order[m]];
    }
  }

  lemma ResetIsSteps(c: Cache, h: HostId, live: map<SessionId, Snapshot>, order: seq<SessionId>)
    requires forall id :: id in order <==> id in live
    ensures forall i :: 0 <= i < |order| ==> order[i] in live
    ensures Exec(Fresh(c), Stores(h, live, order) + [Prune(h, live.Keys)]) == Fresh(ResetCache(c, h, live))
  {
    assert forall i :: 0 <= i < |order| ==> order[i] in order;
    StoresStore(c, h, live, order);
    Extend(Fresh(c), Stores(h, live, order), Prune(h, live.Keys));
    PruneCompletesReset(c, Exec(Fresh(c), Stores(h, live, order)).cache, h, live);
  }
}
