/**
 Sessions whose rows the controller writes itself: it saves them on a start, a stop or
 an edit (usecase/session_usecase.go:162, usecase/session_usecase.go:207,
 usecase/session_usecase.go:451, usecase/session_usecase.go:565) and deletes them
 (usecase/session_usecase.go:477), while the hosts' events go on being applied.
 */
module TouchedRows {
  import opened Wrappers
  import opened SessionTable
  import opened SessionLifecycle
  import opened EventConvergence

  // ---------------------------------------------------------------- the last touch is the new beginning

  /** Saves or deletes the row. */
  predicate Touches(a: Action, id: SessionId) {
    (a.Save? || a.Delete?) && a.id == id
  }

  ghost predicate NoTouchOf(acts: seq<Action>, id: SessionId) {
    forall i :: 0 <= i < |acts| ==> !Touches(acts[i], id)
  }

  /** The world whose base rows are those of now. */
  function Since(w: World, s: State): World {
    w.(base := s.rows)
  }

  function Forgotten(p: HostPos): HostPos {
    p.(done := {})
  }

  /** The same state, but counting deliveries, and touches of `id`, from now on. */
  function Anew(s: State, id: SessionId): State {
    State(s.rows, map h | h in s.pos :: Forgotten(s.pos[h]), s.touched - {id})
  }

  /** The event of this session that a host's handler is in the middle of. */
  predicate InFlight(w: World, s: State, id: SessionId, h: HostId) {
    && h in s.pos && h in w.logs && s.pos[h].cursor < |w.logs[h]| && !s.pos[h].pending.Idle?
    && !w.logs[h][s.pos[h].cursor].payload.OtherPayload? && w.logs[h][s.pos[h].cursor].payload.id == id
  }

  /**
   The database calls that handlers in the middle of an event have still to make find the row
   as if it had been like this from the beginning: it is there, and an end still to be
   applied is not older than the owner's start.
   */
  ghost predicate Harmless(w: World, s: State, id: SessionId) {
    forall h :: InFlight(w, s, id, h) ==>
      && id in s.rows
      && (s.pos[h].pending.AfterGet? && s.rows[id].hostId == h && w.logs[h][s.pos[h].cursor].at.Some? ==>
            !EndSkipped(s.rows, h, id, w.logs[h][s.pos[h].cursor].at.value))
  }

  lemma BaseIsCanonical(w: World, s: State, id: SessionId, x: SessionId)
    ensures Canonical(Since(w, s), Anew(s, id), x)
  {
    if x in s.rows {
      assert RowOfBase(Since(w, s), Anew(s, id), x, s.rows[x]);
    }
  }

  lemma AnewInv(w: World, s: State, id: SessionId)
    requires Inv(w, s) && Harmless(w, s, id)
    ensures Inv(Since(w, s), Anew(s, id))
  {
    var w', s' := Since(w, s), Anew(s, id);
    forall h | h in s'.pos
      ensures PosOk(w', s', h)
    {
      assert PosOk(w, s, h);
      assert InFlight(w, s, id, h) || s.pos[h].pending.Idle? || w.logs[h][s.pos[h].cursor].payload.id != id;
    }
    forall x | x !in s'.touched
      ensures Canonical(w', s', x)
    {
      BaseIsCanonical(w, s, id, x);
    }
  }

  /** What a step does to rows and cursors does not depend on what counts as delivered. */
  ghost predicate Alike(s: State, s': State) {
    s.rows == s'.rows && s.pos.Keys == s'.pos.Keys &&
    forall h :: h in s.pos ==> s.pos[h].cursor == s'.pos[h].cursor && s.pos[h].pending == s'.pos[h].pending
  }

  lemma AlikeHandler(w: World, w': World, s: State, s': State, h: HostId)
    requires Alike(s, s') && w'.logs == w.logs && w'.hosts == w.hosts && h in s.pos && h in w.logs
             && s.pos[h].cursor < |w.logs[h]|
    ensures Alike(StepHandler(w, s, h), StepHandler(w', s', h))
  {
    var t, t' := StepHandler(w, s, h), StepHandler(w', s', h);
    assert t.rows == t'.rows && t.pos[h].cursor == t'.pos[h].cursor && t.pos[h].pending == t'.pos[h].pending;
    assert t.pos == s.pos[h := t.pos[h]] && t'.pos == s'.pos[h := t'.pos[h]];
  }

  lemma AlikeStep(w: World, w': World, s: State, s': State, a: Action)
    requires Alike(s, s') && w'.logs == w.logs && w'.hosts == w.hosts
    ensures Alike(Step(w, s, a), Step(w', s', a))
  {
    if a.HandlerStep? && a.host in s.pos && a.host in w.logs && s.pos[a.host].cursor < |w.logs[a.host]| {
      AlikeHandler(w, w', s, s', a.host);
    }
  }

  lemma {:induction false} AlikeRun(w: World, s: State, id: SessionId, acts: seq<Action>)
    ensures Alike(Exec(w, s, acts), Exec(Since(w, s), Anew(s, id), acts))
    decreases |acts|
  {
    if acts != [] {
      AlikeRun(w, s, id, acts[..|acts| - 1]);
      AlikeStep(w, Since(w, s), Exec(w, s, acts[..|acts| - 1]), Exec(Since(w, s), Anew(s, id), acts[..|acts| - 1]),
                acts[|acts| - 1]);
    }
  }

  lemma {:induction false} RunKeepsInv(w: World, s: State, acts: seq<Action>)
    requires WellFormed(w) && Inv(w, s) && ValidRun(w, s, acts)
    ensures Inv(w, Exec(w, s, acts))
    decreases |acts|
  {
    if acts != [] {
      RunKeepsInv(w, s, acts[..|acts| - 1]);
      StepKeepsInv(w, Exec(w, s, acts[..|acts| - 1]), acts[|acts| - 1]);
    }
  }

  lemma {:induction false} StaysUntouched(w: World, s: State, acts: seq<Action>, id: SessionId)
    requires NoTouchOf(acts, id) && id !in s.touched
    ensures id !in Exec(w, s, acts).touched
    decreases |acts|
  {
    if acts != [] {
      StaysUntouched(w, s, acts[..|acts| - 1], id);
      assert !Touches(acts[|acts| - 1], id);
    }
  }

  /**
   From any reachable state on, and so from right after the last save or deletion of a
   session: its row is the canonical one for the row of then and the events delivered
   since, whatever else is saved, deleted, delivered or replayed, unless a handler was in the
   middle of an event of the session that the new row invalidates.
   */
  lemma CanonicalSince(w: World, s: State, id: SessionId, acts: seq<Action>)
    requires WellFormed(w) && Inv(w, s) && Harmless(w, s, id)
    requires ValidRun(Since(w, s), Anew(s, id), acts) && NoTouchOf(acts, id)
    ensures Exec(w, s, acts).rows == Exec(Since(w, s), Anew(s, id), acts).rows
    ensures Canonical(Since(w, s), Exec(Since(w, s), Anew(s, id), acts), id)
  {
    AnewInv(w, s, id);
    AlikeRun(w, s, id, acts);
    RunKeepsInv(Since(w, s), Anew(s, id), acts);
    StaysUntouched(Since(w, s), Anew(s, id), acts, id);
  }

  lemma {:induction false} ExecConcat(w: World, s: State, acts: seq<Action>, more: seq<Action>)
    ensures Exec(w, s, acts + more) == Exec(w, Exec(w, s, acts), more)
    decreases |more|
  {
    if more == [] {
      assert acts + more == acts;
    } else {
      var all := acts + more;
      assert all[..|all| - 1] == acts + more[..|more| - 1] && all[|all| - 1] == more[|more| - 1];
      ExecConcat(w, s, acts, more[..|more| - 1]);
    }
  }

  /**
   The same for whole runs: the last save or deletion of the session and the events delivered after
   it give its row.
   */
  lemma LastTouchIsBase(w: World, resume: map<HostId, nat>, before: seq<Action>, touch: Action, after: seq<Action>,
                        id: SessionId)
    requires WellFormed(w) && ValidRun(w, Init(w, resume), before + [touch]) && Touches(touch, id)
             && NoTouchOf(after, id)
    requires var s := Exec(w, Init(w, resume), before + [touch]);
             Harmless(w, s, id) && ValidRun(Since(w, s), Anew(s, id), after)
    ensures var s := Exec(w, Init(w, resume), before + [touch]);
            && (if touch.Delete? then id !in s.rows else id in s.rows && s.rows[id].status == touch.row.status)
            && Exec(w, Init(w, resume), before + [touch] + after).rows == Exec(Since(w, s), Anew(s, id), after).rows
            && Canonical(Since(w, s), Exec(Since(w, s), Anew(s, id), after), id)
  {
    var s := Exec(w, Init(w, resume), before + [touch]);
    assert (before + [touch])[..|before + [touch]| - 1] == before;
    RowsAreCanonical(w, resume, before + [touch]);
    CanonicalSince(w, s, id, after);
    ExecConcat(w, Init(w, resume), before + [touch], after);
  }

  // ---------------------------------------------------------------- who started it, and for whom

  /** The group of a session, and the first creator saved for it. */
  predicate KeepsOrigin(was: Row, row: Row) {
    row.groupId == was.groupId && (was.createdBy.Some? ==> row.createdBy == was.createdBy)
  }

  /** Until it is deleted, no save, event or replay moves a session to another group or gives it another creator. */
  lemma {:induction false} OriginStays(w: World, s: State, acts: seq<Action>, id: SessionId)
    requires id in s.rows && forall i :: 0 <= i < |acts| ==> acts[i] != Delete(id)
    ensures id in Exec(w, s, acts).rows && KeepsOrigin(s.rows[id], Exec(w, s, acts).rows[id])
    decreases |acts|
  {
    if acts != [] {
      OriginStays(w, s, acts[..|acts| - 1], id);
      assert acts[|acts| - 1] != Delete(id);
    }
  }

  // ---------------------------------------------------------------- a deleted session stays deleted

  /** A save of the session, or the insert of a start of it that a host's stream has arrived at. */
  predicate Recreates(w: World, s: State, a: Action, id: SessionId) {
    match a
    case Save(x, _) => x == id
    case HandlerStep(h) =>
      && h in s.pos && h in w.logs && s.pos[h].cursor < |w.logs[h]| && h in w.hosts && !s.pos[h].pending.AfterInsert?
      && var ev := w.logs[h][s.pos[h].cursor]; ev.payload.SessionStarted? && ev.payload.id == id && ev.at.Some?
    case _ => false
  }

  predicate StaysDeleted(w: World, s: State, acts: seq<Action>, id: SessionId)
    decreases |acts|
  {
    id !in Exec(w, s, acts).rows && (acts != [] ==> StaysDeleted(w, s, acts[..|acts| - 1], id))
  }

  predicate NeverRecreated(w: World, s: State, acts: seq<Action>, id: SessionId)
    decreases |acts|
  {
    acts != [] ==>
      && NeverRecreated(w, s, acts[..|acts| - 1], id)
      && !Recreates(w, Exec(w, s, acts[..|acts| - 1]), acts[|acts| - 1], id)
  }

  /**
   A deleted session stays deleted exactly as long as nobody saves it and no stream arrives at, or
   returns to, a start of it.
   */
  lemma {:induction false} StaysDeletedIff(w: World, s: State, acts: seq<Action>, id: SessionId)
    requires id !in s.rows
    ensures StaysDeleted(w, s, acts, id) <==> NeverRecreated(w, s, acts, id)
    decreases |acts|
  {
    if acts != [] {
      StaysDeletedIff(w, s, acts[..|acts| - 1], id);
    }
  }

  /** No start of the session lies at or after the position. */
  ghost predicate NoStartFrom(w: World, h: HostId, from: nat, id: SessionId) {
    h in w.logs ==> forall i, t :: from <= i < |w.logs[h]| ==> !StartAt(w.logs[h][i], id, t)
  }

  /** Every resume point asked for lies behind the last start of the session. */
  ghost predicate NoReturn(w: World, acts: seq<Action>, id: SessionId) {
    forall i :: 0 <= i < |acts| && acts[i].Seek? ==> NoStartFrom(w, acts[i].host, acts[i].target, id)
  }

  /** So it is gone for good once all streams are past its last start and none returns to it. */
  lemma {:induction false} GoneForGood(w: World, s: State, acts: seq<Action>, id: SessionId)
    requires id !in s.rows && NoTouchOf(acts, id) && NoReturn(w, acts, id)
    requires forall h :: h in s.pos ==> NoStartFrom(w, h, s.pos[h].cursor, id)
    ensures id !in Exec(w, s, acts).rows
    ensures forall h :: h in Exec(w, s, acts).pos ==> NoStartFrom(w, h, Exec(w, s, acts).pos[h].cursor, id)
    decreases |acts|
  {
    if acts != [] {
      var before, a := acts[..|acts| - 1], acts[|acts| - 1];
      GoneForGood(w, s, before, id);
      assert !Touches(a, id);
      GoneStep(w, Exec(w, s, before), a, id);
    }
  }

  lemma GoneStep(w: World, s: State, a: Action, id: SessionId)
    requires id !in s.rows && !Touches(a, id) && (a.Seek? ==> NoStartFrom(w, a.host, a.target, id))
    requires forall h :: h in s.pos ==> NoStartFrom(w, h, s.pos[h].cursor, id)
    ensures id !in Step(w, s, a).rows
    ensures forall h :: h in Step(w, s, a).pos ==> NoStartFrom(w, h, Step(w, s, a).pos[h].cursor, id)
  {
    if a.HandlerStep? && a.host in s.pos && a.host in w.logs && s.pos[a.host].cursor < |w.logs[a.host]| {
      var ev := w.logs[a.host][s.pos[a.host].cursor];
      assert ev.at.Some? ==> !StartAt(ev, id, ev.at.value);
    }
  }

  /** One host, one session that began at time 5. */
  function OneSession(): World {
    World(map["b" := [HostEvent(SessionStarted("s", "n"), Some(5))]], map["b" := "g"], map[])
  }

  lemma OneMore(w: World, s: State, acts: seq<Action>, a: Action)
    requires ValidRun(w, s, acts) && ValidSeek(w, Exec(w, s, acts), a)
    ensures ValidRun(w, s, acts + [a]) && Exec(w, s, acts + [a]) == Step(w, Exec(w, s, acts), a)
  {
    assert (acts + [a])[..|acts + [a]| - 1] == acts;
  }

  /**
   A run from the start: the session is deleted, the stream reconnects before its start, and the
   session is there again.
   */
  lemma DeletedComesBack() returns (before: seq<Action>, after: seq<Action>)
    ensures WellFormed(OneSession())
            && ValidRun(OneSession(), Init(OneSession(), map[]), before + [Delete("s")] + after)
    ensures "s" !in Exec(OneSession(), Init(OneSession(), map[]), before + [Delete("s")]).rows && NoTouchOf(after, "s")
    ensures var rows := Exec(OneSession(), Init(OneSession(), map[]), before + [Delete("s")] + after).rows;
            "s" in rows && rows["s"].status == RUNNING
  {
    var w := OneSession();
    var s0 := Init(w, map[]);
    OneMore(w, s0, [], HandlerStep("b"));
    before := [] + [HandlerStep("b")];
    var s1 := Exec(w, s0, before);
    assert s1.pos["b"] == HostPos(0, {0}, AfterInsert);
    OneMore(w, s0, before, Delete("s"));
    var deleted := before + [Delete("s")];
    var s2 := Exec(w, s0, deleted);
    assert s2.pos == s1.pos && "s" !in s2.rows;
    OneMore(w, s0, deleted, Seek("b", 0));
    var s3 := Exec(w, s0, deleted + [Seek("b", 0)]);
    assert s3.pos["b"] == HostPos(0, {0}, Idle) && "s" !in s3.rows;
    OneMore(w, s0, deleted + [Seek("b", 0)], HandlerStep("b"));
    after := [Seek("b", 0), HandlerStep("b")];
    assert deleted + after == deleted + [Seek("b", 0)] + [HandlerStep("b")];
  }
}
