/**
 Several hosts' stream goroutines drive the lifecycle handler at once.  A step is
 one database call of one host's handler, or a seek: the goroutine reconnects (or
 the controller restarts) and the host resends its log from an earlier position, or
 goes on from a later one.  Between them the controller saves and deletes rows itself.
 Whatever the interleaving, the replays and the gaps, the row of a session that the
 controller did not touch ends up as one function of the events delivered so far.
 */
module EventConvergence {
  import opened Wrappers
  import opened SessionTable
  import opened SessionLifecycle

  /** What is fixed during a run: the hosts' event logs, the hosts table and the rows the run starts from. */
  datatype World = World(logs: map<HostId, seq<HostEvent>>, hosts: Hosts, base: Rows)

  datatype Pending = Idle | AfterInsert | AfterGet

  /**
   One host's stream: the next event to handle is at `cursor`, the events at the
   positions `done` took effect at least once, and `pending` says how far the handler
   got with the event at `cursor`.
   */
  datatype HostPos = HostPos(cursor: nat, done: set<nat>, pending: Pending)

  /** `touched` holds the sessions whose rows the controller saved or deleted itself. */
  datatype State = State(rows: Rows, pos: map<HostId, HostPos>, touched: set<SessionId>)

  datatype Action =
    | HandlerStep(host: HostId)
    | Seek(host: HostId, target: nat)
    | Save(id: SessionId, row: Row)
    | Delete(id: SessionId)

  predicate StartAt(ev: HostEvent, id: SessionId, t: Time) {
    ev.payload.SessionStarted? && ev.payload.id == id && ev.at == Some(t)
  }

  predicate EndAt(ev: HostEvent, id: SessionId, t: Time) {
    ev.payload.SessionEnded? && ev.payload.id == id && ev.at == Some(t)
  }

  /**
   The one demand on the logs: on one host, the end of a session strictly precedes
   any later start of it.  Strictly increasing occurred_at implies this.  Streams
   exist only for hosts listed from the hosts table.
   */
  ghost predicate WellFormed(w: World) {
    && w.logs.Keys <= w.hosts.Keys
    && forall h, i, j, id, t, u {:trigger EndAt(w.logs[h][i], id, t), StartAt(w.logs[h][j], id, u)} ::
         h in w.logs && 0 <= i < j < |w.logs[h]| && EndAt(w.logs[h][i], id, t) && StartAt(w.logs[h][j], id, u) ==> t < u
  }

  function Init(w: World, resume: map<HostId, nat>): State {
    State(w.base,
          map h | h in w.logs :: HostPos(if h in resume && resume[h] <= |w.logs[h]| then resume[h] else 0, {}, Idle),
          {})
  }

  function Delivered(p: HostPos): HostPos {
    p.(done := p.done + {p.cursor})
  }

  function Advance(p: HostPos): HostPos {
    Delivered(p).(cursor := p.cursor + 1, pending := Idle)
  }

  /** One database call of the handler for the event under the cursor. */
  function StepHandler(w: World, s: State, h: HostId): State
    requires h in s.pos && h in w.logs && s.pos[h].cursor < |w.logs[h]|
  {
    var p := s.pos[h];
    var ev := w.logs[h][p.cursor];
    if ev.at.None? then s.(pos := s.pos[h := Advance(p)])
    else match ev.payload
      case OtherPayload => s.(pos := s.pos[h := Advance(p)])
      case SessionStarted(id, name) =>
        if p.pending.AfterInsert? then
          s.(rows := ApplyStarted(s.rows, id, h, name, ev.at.value), pos := s.pos[h := Advance(p)])
        else
          var rows := InsertFromEvent(s.rows, w.hosts, id, h, name, ev.at.value);
          // An insert that creates the row is already the whole effect of the event.
          s.(rows := rows, pos := s.pos[h := (if id in s.rows then p else Delivered(p)).(pending := AfterInsert)])
      case SessionEnded(id) =>
        if p.pending.AfterGet? then
          s.(rows := ApplyEnded(s.rows, id, h, ev.at.value), pos := s.pos[h := Advance(p)])
        else if EndSkipped(s.rows, h, id, ev.at.value) then s.(pos := s.pos[h := Advance(p)])
        else s.(pos := s.pos[h := p.(pending := AfterGet)])
  }

  function Step(w: World, s: State, a: Action): State {
    match a
    case HandlerStep(h) =>
      if h in s.pos && h in w.logs && s.pos[h].cursor < |w.logs[h]| then StepHandler(w, s, h) else s
    case Seek(h, target) =>
      if h in s.pos then s.(pos := s.pos[h := s.pos[h].(cursor := target, pending := Idle)]) else s
    case Save(id, row) => s.(rows := Upsert(s.rows, id, row), touched := s.touched + {id})
    case Delete(id) => s.(rows := s.rows - {id}, touched := s.touched + {id})
  }

  /** From position n on nothing is missing up to the last event that took effect. */
  ghost predicate NoGapFrom(done: set<nat>, n: nat) {
    forall i, j: nat :: i in done && n <= j <= i ==> j in done
  }

  /** A resume point the watcher can ask for: it replays what was delivered, or begins after it. */
  ghost predicate ValidSeek(w: World, s: State, a: Action) {
    a.Seek? && a.host in s.pos && a.host in w.logs ==>
        a.target <= |w.logs[a.host]| && NoGapFrom(s.pos[a.host].done, a.target)
  }

  function Exec(w: World, s: State, acts: seq<Action>): State
    decreases |acts|
  {
    if acts == [] then s else Step(w, Exec(w, s, acts[..|acts| - 1]), acts[|acts| - 1])
  }

  ghost predicate ValidRun(w: World, s: State, acts: seq<Action>)
    decreases |acts|
  {
    acts != [] ==> ValidRun(w, s, acts[..|acts| - 1]) && ValidSeek(w, Exec(w, s, acts[..|acts| - 1]), acts[|acts| - 1])
  }

  // ---------------------------------------------------------------- the canonical row

  ghost predicate DeliveredStart(w: World, s: State, id: SessionId, h: HostId, i: int, t: Time) {
    h in s.pos && h in w.logs && 0 <= i < |w.logs[h]| && i in s.pos[h].done && StartAt(w.logs[h][i], id, t)
  }

  ghost predicate DeliveredEnd(w: World, s: State, id: SessionId, h: HostId, i: int, t: Time) {
    h in s.pos && h in w.logs && 0 <= i < |w.logs[h]| && i in s.pos[h].done && EndAt(w.logs[h][i], id, t)
  }

  /** The row existed before the run with a start time that `t` does not beat. */
  predicate NewerThanBase(w: World, id: SessionId, t: Time) {
    id !in w.base || Before(w.base[id].startedAt, t)
  }

  /**
   The delivered start at (h, i) beats the base row and no delivered start is later; it is its
   host's first at that time.
   */
  ghost predicate Winner(w: World, s: State, id: SessionId, h: HostId, i: int, t: Time) {
    && DeliveredStart(w, s, id, h, i, t)
    && NewerThanBase(w, id, t)
    && (forall h', i', t': Time :: DeliveredStart(w, s, id, h', i', t') ==> t' <= t)
    && (forall i' :: DeliveredStart(w, s, id, h, i', t) ==> i <= i')
  }

  /** An end that counts for a run of the session on host `h` that began at `from` and had end time `ended`. */
  ghost predicate CountingEnd(w: World, s: State, id: SessionId, h: HostId, from: Option<Time>, ended: Option<Time>,
                              i: int, t: Time) {
    DeliveredEnd(w, s, id, h, i, t) && (from.None? || from.value <= t) && Before(ended, t)
  }

  /** Status and end time: the greatest counting end if there is one, what the run began with otherwise. */
  ghost predicate EndMatches(w: World, s: State, id: SessionId, row: Row, from: Option<Time>, status: Status,
                             ended: Option<Time>) {
    if exists i, t :: CountingEnd(w, s, id, row.hostId, from, ended, i, t) then
      && row.status == ENDED && row.endedAt.Some?
      && (exists i :: CountingEnd(w, s, id, row.hostId, from, ended, i, row.endedAt.value))
      && (forall i, t: Time :: CountingEnd(w, s, id, row.hostId, from, ended, i, t) ==> t <= row.endedAt.value)
    else row.status == status && row.endedAt == ended
  }

  ghost predicate RowOfWinner(w: World, s: State, id: SessionId, row: Row, h: HostId, i: int, t: Time) {
    && Winner(w, s, id, h, i, t)
    && row.hostId == h && row.startedAt == Some(t) && row.name == w.logs[h][i].payload.name
    && EndMatches(w, s, id, row, Some(t), RUNNING, None)
  }

  ghost predicate RowOfBase(w: World, s: State, id: SessionId, row: Row) {
    && id in w.base
    && (forall h, i, t :: DeliveredStart(w, s, id, h, i, t) ==> !NewerThanBase(w, id, t))
    && row.hostId == w.base[id].hostId && row.startedAt == w.base[id].startedAt && row.name == w.base[id].name
    && EndMatches(w, s, id, row, w.base[id].startedAt, w.base[id].status, w.base[id].endedAt)
  }

  /**
   Columns that only the insert sets: kept from the base row, or the defaults and the group of a
   host that started the session.
   */
  ghost predicate UserColumns(w: World, s: State, id: SessionId, row: Row) {
    if id in w.base then SameUserColumns(row, w.base[id])
    else
      && row.createdBy == None && row.memo == None && row.startupParameters == EMPTY_PARAMETERS && !row.autoUpgrade
      && exists h, i, t :: DeliveredStart(w, s, id, h, i, t) && h in w.hosts && row.groupId == w.hosts[h]
  }

  ghost predicate Canonical(w: World, s: State, id: SessionId) {
    if id in s.rows then
      && (RowOfBase(w, s, id, s.rows[id]) || exists h, i, t :: RowOfWinner(w, s, id, s.rows[id], h, i, t))
      && UserColumns(w, s, id, s.rows[id])
    else
      id !in w.base && forall h, i, t :: !DeliveredStart(w, s, id, h, i, t)
  }

  // ---------------------------------------------------------------- invariant

  ghost predicate PosOk(w: World, s: State, h: HostId)
    requires h in s.pos
  {
    var p := s.pos[h];
    && h in w.logs && p.cursor <= |w.logs[h]| && (forall i :: i in p.done ==> i < |w.logs[h]|)
       && NoGapFrom(p.done, p.cursor)
    && (p.pending != Idle ==> p.cursor < |w.logs[h]|)
    && (p.pending.AfterInsert? ==>
          var ev := w.logs[h][p.cursor];
          ev.payload.SessionStarted? && ev.at.Some? && (ev.payload.id !in s.touched ==> ev.payload.id in s.rows))
    && (p.pending.AfterGet? ==>
          var ev := w.logs[h][p.cursor];
          ev.payload.SessionEnded? && ev.at.Some? &&
          (ev.payload.id !in s.touched ==>
             ev.payload.id in s.rows &&
             (s.rows[ev.payload.id].hostId == h ==> !EndSkipped(s.rows, h, ev.payload.id, ev.at.value))))
  }

  ghost predicate Inv(w: World, s: State) {
    && s.pos.Keys == w.logs.Keys
    && (forall h :: h in s.pos ==> PosOk(w, s, h))
    && (forall id :: id !in s.touched ==> Canonical(w, s, id))
  }

  /** The delivered events of `id` are the same in both states. */
  ghost predicate SameDelivered(w: World, s: State, s': State, id: SessionId) {
    && (forall h, i, t :: DeliveredStart(w, s, id, h, i, t) <==> DeliveredStart(w, s', id, h, i, t))
    && (forall h, i, t :: DeliveredEnd(w, s, id, h, i, t) <==> DeliveredEnd(w, s', id, h, i, t))
  }

  lemma CanonicalFrame(w: World, s: State, s': State, id: SessionId)
    requires Canonical(w, s, id) && SameDelivered(w, s, s', id)
    requires id in s.rows <==> id in s'.rows
    requires id in s.rows ==> s'.rows[id] == s.rows[id]
    ensures Canonical(w, s', id)
  {
    if id in s.rows {
      var row := s.rows[id];
      EndFrame(w, s, s', id, row);
      if !RowOfBase(w, s, id, row) {
        var h, i, t :| RowOfWinner(w, s, id, row, h, i, t);
        assert Winner(w, s', id, h, i, t);
        assert RowOfWinner(w, s', id, row, h, i, t);
      }
    }
  }

  lemma EndFrame(w: World, s: State, s': State, id: SessionId, row: Row)
    requires forall i, t :: DeliveredEnd(w, s, id, row.hostId, i, t) <==> DeliveredEnd(w, s', id, row.hostId, i, t)
    ensures forall from, status, ended :: EndMatches(w, s, id, row, from, status, ended) ==>
              EndMatches(w, s', id, row, from, status, ended)
  {
    forall from, status, ended | EndMatches(w, s, id, row, from, status, ended)
      ensures EndMatches(w, s', id, row, from, status, ended)
    {
      var h := row.hostId;
      assert forall i, t ::
          CountingEnd(w, s, id, h, from, ended, i, t) <==> CountingEnd(w, s', id, h, from, ended, i, t);
    }
  }

  // ---------------------------------------------------------------- one step keeps the invariant

  /** Only `h` moved, and the event at its cursor is the only one that can have become delivered. */
  ghost predicate MovedOne(w: World, s: State, s': State, h: HostId) {
    && h in s.pos && h in w.logs && s.pos[h].cursor < |w.logs[h]| && NoGapFrom(s.pos[h].done, s.pos[h].cursor)
    && h in s'.pos && s'.pos == s.pos[h := s'.pos[h]]
    && (s'.pos[h].done == s.pos[h].done || s'.pos[h].done == s.pos[h].done + {s.pos[h].cursor})
  }

  /** The step delivered, for the first time, the event under the cursor of `h`: all others delivered lie before it. */
  ghost predicate FirstDelivery(s: State, s': State, h: HostId)
    requires h in s.pos && h in s'.pos
  {
    s.pos[h].cursor !in s.pos[h].done && s.pos[h].cursor in s'.pos[h].done
  }

  lemma DeliveredSets(w: World, s: State, s': State, h: HostId, id: SessionId)
    requires MovedOne(w, s, s', h)
    ensures forall h', i, t :: DeliveredStart(w, s', id, h', i, t) <==>
                               DeliveredStart(w, s, id, h', i, t) ||
                               (FirstDelivery(s, s', h) && h' == h && i == s.pos[h].cursor
                                && StartAt(w.logs[h][i], id, t))
    ensures forall h', i, t :: DeliveredEnd(w, s', id, h', i, t) <==>
                               DeliveredEnd(w, s, id, h', i, t) ||
                               (FirstDelivery(s, s', h) && h' == h && i == s.pos[h].cursor
                                && EndAt(w.logs[h][i], id, t))
  {
  }

  /** A start newer than the row wins; the ends its host sent before it are all older. */
  lemma NewWinner(w: World, s: State, s': State, h: HostId, id: SessionId, t: Time)
    requires WellFormed(w) && MovedOne(w, s, s', h) && Canonical(w, s, id) && FirstDelivery(s, s', h)
    requires StartAt(w.logs[h][s.pos[h].cursor], id, t)
    requires id in s.rows ==> Before(s.rows[id].startedAt, t)
    requires id in s'.rows
    requires s'.rows[id].hostId == h && s'.rows[id].startedAt == Some(t) && s'.rows[id].endedAt == None
    requires s'.rows[id].name == w.logs[h][s.pos[h].cursor].payload.name && s'.rows[id].status == RUNNING
    requires UserColumns(w, s', id, s'.rows[id])
    ensures Canonical(w, s', id)
  {
    DeliveredSets(w, s, s', h, id);
    var c := s.pos[h].cursor;
    if id in s.rows && !RowOfBase(w, s, id, s.rows[id]) {
      var h0, i0, t0 :| RowOfWinner(w, s, id, s.rows[id], h0, i0, t0);
    }
    assert Winner(w, s', id, h, c, t);
    assert forall i, u: Time :: DeliveredEnd(w, s', id, h, i, u) ==> i < c && EndAt(w.logs[h][i], id, u) && u < t;
    assert forall i, u :: !CountingEnd(w, s', id, h, Some(t), None, i, u);
    assert RowOfWinner(w, s', id, s'.rows[id], h, c, t);
  }

  /** A start no newer than the row changes nothing, whether seen before or not. */
  lemma LateStart(w: World, s: State, s': State, h: HostId, id: SessionId, t: Time)
    requires MovedOne(w, s, s', h) && Canonical(w, s, id)
    requires StartAt(w.logs[h][s.pos[h].cursor], id, t)
    requires id in s.rows && !Before(s.rows[id].startedAt, t)
    requires id in s'.rows && s'.rows[id] == s.rows[id]
    ensures Canonical(w, s', id)
  {
    DeliveredSets(w, s, s', h, id);
    var row := s.rows[id];
    EndFrame(w, s, s', id, row);
    if !RowOfBase(w, s, id, row) {
      var h0, i0, t0 :| RowOfWinner(w, s, id, row, h0, i0, t0);
      assert Winner(w, s', id, h0, i0, t0);
      assert RowOfWinner(w, s', id, row, h0, i0, t0);
    }
    KeepUserColumns(w, s, s', id, row);
  }

  lemma KeepUserColumns(w: World, s: State, s': State, id: SessionId, row: Row)
    requires UserColumns(w, s, id, row)
    requires forall h, i, t :: DeliveredStart(w, s, id, h, i, t) ==> DeliveredStart(w, s', id, h, i, t)
    ensures UserColumns(w, s', id, row)
  {
  }

  /** The end statement applied to a row: it takes effect for the owner, when newer than the stored end. */
  function RowAfterEnd(row: Row, h: HostId, t: Time): Row {
    if row.hostId == h && Before(row.endedAt, t) then row.(status := ENDED, endedAt := Some(t)) else row
  }

  /** One more delivered end: applied when it counts, ignored when it does not. */
  lemma EndGrows(w: World, s: State, s': State, h: HostId, id: SessionId, t: Time, row: Row, row': Row,
                 status: Status, ended: Option<Time>)
    requires MovedOne(w, s, s', h)
    requires EndAt(w.logs[h][s.pos[h].cursor], id, t)
    requires EndMatches(w, s, id, row, row.startedAt, status, ended)
    requires row.hostId != h || (row.startedAt.Some? && t < row.startedAt.value) ==> row' == row
    requires row.hostId == h && !(row.startedAt.Some? && t < row.startedAt.value) ==> row' == RowAfterEnd(row, h, t)
    requires FirstDelivery(s, s', h) || DeliveredEnd(w, s, id, h, s.pos[h].cursor, t)
    ensures EndMatches(w, s', id, row', row'.startedAt, status, ended)
  {
    DeliveredSets(w, s, s', h, id);
    var c, host, from := s.pos[h].cursor, row.hostId, row.startedAt;
    assert forall i, u :: CountingEnd(w, s, id, host, from, ended, i, u) ==>
             CountingEnd(w, s', id, host, from, ended, i, u);
    if host == h && (from.None? || from.value <= t) && Before(ended, t) {
      assert CountingEnd(w, s', id, host, from, ended, c, t);
    }
    assert forall i, u :: CountingEnd(w, s', id, host, from, ended, i, u) ==>
                          CountingEnd(w, s, id, host, from, ended, i, u) || (host == h && i == c && u == t);
  }

  lemma EndDelivered(w: World, s: State, s': State, h: HostId, id: SessionId, t: Time)
    requires MovedOne(w, s, s', h) && Canonical(w, s, id)
    requires EndAt(w.logs[h][s.pos[h].cursor], id, t)
    requires FirstDelivery(s, s', h) || DeliveredEnd(w, s, id, h, s.pos[h].cursor, t)
    requires id in s.rows <==> id in s'.rows
    requires id in s.rows ==> s'.rows[id] == if EndSkipped(s.rows, h, id, t) then s.rows[id]
             else RowAfterEnd(s.rows[id], h, t)
    ensures Canonical(w, s', id)
  {
    DeliveredSets(w, s, s', h, id);
    if id in s.rows {
      var row, row' := s.rows[id], s'.rows[id];
      if RowOfBase(w, s, id, row) {
        EndGrows(w, s, s', h, id, t, row, row', w.base[id].status, w.base[id].endedAt);
        assert RowOfBase(w, s', id, row');
      } else {
        var h0, i0, t0 :| RowOfWinner(w, s, id, row, h0, i0, t0);
        EndGrows(w, s, s', h, id, t, row, row', RUNNING, None);
        assert Winner(w, s', id, h0, i0, t0);
        assert RowOfWinner(w, s', id, row', h0, i0, t0);
      }
      KeepUserColumns(w, s, s', id, row);
    }
  }

  lemma StartIsOld(w: World, s: State, id: SessionId, h: HostId, i: int, t: Time)
    requires Canonical(w, s, id) && DeliveredStart(w, s, id, h, i, t)
    ensures id in s.rows && !Before(s.rows[id].startedAt, t)
  {
    if !RowOfBase(w, s, id, s.rows[id]) {
      var h0, i0, t0 :| RowOfWinner(w, s, id, s.rows[id], h0, i0, t0);
    }
  }

  lemma StepMovesOne(w: World, s: State, h: HostId)
    requires Inv(w, s) && h in s.pos && s.pos[h].cursor < |w.logs[h]|
    ensures MovedOne(w, s, StepHandler(w, s, h), h)
  {
    assert PosOk(w, s, h);
  }

  lemma StepCanonical(w: World, s: State, h: HostId, id: SessionId)
    requires WellFormed(w) && Inv(w, s) && h in s.pos && s.pos[h].cursor < |w.logs[h]| && id !in s.touched
    ensures Canonical(w, StepHandler(w, s, h), id)
  {
    StepMovesOne(w, s, h);
    assert PosOk(w, s, h) && Canonical(w, s, id);
    var s' := StepHandler(w, s, h);
    var p := s.pos[h];
    var ev := w.logs[h][p.cursor];
    DeliveredSets(w, s, s', h, id);
    if ev.at.Some? && ev.payload.SessionStarted? && ev.payload.id == id {
      var t := ev.at.value;
      assert StartAt(ev, id, t);
      if p.cursor in p.done {
        assert DeliveredStart(w, s, id, h, p.cursor, t);
        StartIsOld(w, s, id, h, p.cursor, t);
        CanonicalFrame(w, s, s', id);
      } else if id !in s.rows {
        assert DeliveredStart(w, s', id, h, p.cursor, t);
        NewWinner(w, s, s', h, id, t);
      } else if p.pending.AfterInsert? && Before(s.rows[id].startedAt, t) {
        KeepUserColumns(w, s, s', id, s.rows[id]);
        NewWinner(w, s, s', h, id, t);
      } else if p.pending.AfterInsert? {
        LateStart(w, s, s', h, id, t);
      } else {
        CanonicalFrame(w, s, s', id);
      }
    } else if ev.at.Some? && ev.payload.SessionEnded? && ev.payload.id == id {
      var t := ev.at.value;
      assert EndAt(ev, id, t);
      if !p.pending.AfterGet? && !EndSkipped(s.rows, h, id, t) {
        CanonicalFrame(w, s, s', id);
      } else {
        EndDelivered(w, s, s', h, id, t);
      }
    } else {
      CanonicalFrame(w, s, s', id);
    }
  }

  lemma StepPosOk(w: World, s: State, h: HostId, h': HostId)
    requires WellFormed(w) && Inv(w, s) && h in s.pos && h' in s.pos && s.pos[h].cursor < |w.logs[h]|
    ensures h' in StepHandler(w, s, h).pos && PosOk(w, StepHandler(w, s, h), h')
  {
    assert PosOk(w, s, h) && PosOk(w, s, h');
  }

  lemma SeekKeepsInv(w: World, s: State, h: HostId, target: nat)
    requires Inv(w, s) && ValidSeek(w, s, Seek(h, target))
    ensures Inv(w, Step(w, s, Seek(h, target)))
  {
    var s' := Step(w, s, Seek(h, target));
    forall h' | h' in s'.pos ensures PosOk(w, s', h') {
      assert PosOk(w, s, h');
    }
    forall id | id !in s'.touched ensures Canonical(w, s', id) {
      CanonicalFrame(w, s, s', id);
    }
  }

  lemma TouchKeepsInv(w: World, s: State, a: Action)
    requires Inv(w, s) && (a.Save? || a.Delete?)
    ensures Inv(w, Step(w, s, a))
  {
    var s' := Step(w, s, a);
    forall h | h in s'.pos ensures PosOk(w, s', h) {
      assert PosOk(w, s, h);
    }
    forall x | x !in s'.touched ensures Canonical(w, s', x) {
      CanonicalFrame(w, s, s', x);
    }
  }

  lemma StepKeepsInv(w: World, s: State, a: Action)
    requires WellFormed(w) && Inv(w, s) && ValidSeek(w, s, a)
    ensures Inv(w, Step(w, s, a))
  {
    match a
    case Seek(h, target) => SeekKeepsInv(w, s, h, target);
    case Save(_, _) => TouchKeepsInv(w, s, a);
    case Delete(_) => TouchKeepsInv(w, s, a);
    case HandlerStep(h) =>
      if h in s.pos && s.pos[h].cursor < |w.logs[h]| {
        StepMovesOne(w, s, h);
        forall h' | h' in s.pos ensures PosOk(w, Step(w, s, a), h') {
          StepPosOk(w, s, h, h');
        }
        forall id | id !in s.touched ensures Canonical(w, Step(w, s, a), id) {
          StepCanonical(w, s, h, id);
        }
      }
  }

  lemma InitInv(w: World, resume: map<HostId, nat>)
    ensures Inv(w, Init(w, resume))
  {
    var s := Init(w, resume);
    forall id ensures Canonical(w, s, id) {
      if id in w.base {
        assert RowOfBase(w, s, id, w.base[id]);
      }
    }
  }

  /** Every run, every session the controller did not touch: the row is canonical for the events delivered so far. */
  lemma {:induction false} RowsAreCanonical(w: World, resume: map<HostId, nat>, acts: seq<Action>)
    requires WellFormed(w) && ValidRun(w, Init(w, resume), acts)
    ensures Inv(w, Exec(w, Init(w, resume), acts))
    decreases |acts|
  {
    if acts == [] {
      InitInv(w, resume);
    } else {
      RowsAreCanonical(w, resume, acts[..|acts| - 1]);
      StepKeepsInv(w, Exec(w, Init(w, resume), acts[..|acts| - 1]), acts[|acts| - 1]);
    }
  }

  // ---------------------------------------------------------------- convergence

  /** The columns the lifecycle events decide. */
  predicate SameLifecycle(a: Rows, b: Rows, id: SessionId) {
    (id in a <==> id in b) &&
    (id in a && id in b ==>
       a[id].name == b[id].name && a[id].status == b[id].status && a[id].hostId == b[id].hostId &&
       a[id].startedAt == b[id].startedAt && a[id].endedAt == b[id].endedAt)
  }

  /** Two hosts claim the same latest start time. */
  ghost predicate Tied(w: World, s: State, id: SessionId) {
    exists h, i, t, h', i', t' :: Winner(w, s, id, h, i, t) && Winner(w, s, id, h', i', t') && h != h'
  }

  /** Canonical rows are a function of the delivered events, up to a tie between hosts. */
  lemma CanonicalIsUnique(w: World, s: State, s': State, id: SessionId)
    requires Canonical(w, s, id) && Canonical(w, s', id) && SameDelivered(w, s, s', id) && !Tied(w, s, id)
    ensures SameLifecycle(s.rows, s'.rows, id)
  {
    if id in s.rows && id in s'.rows {
      var row, row' := s.rows[id], s'.rows[id];
      EndFrame(w, s', s, id, row');
      if RowOfBase(w, s, id, row) {
        assert RowOfBase(w, s', id, row')
               || exists h, i, t :: DeliveredStart(w, s, id, h, i, t) && NewerThanBase(w, id, t);
        SameEnds(w, s, id, row, row', row.startedAt, w.base[id].status, w.base[id].endedAt);
      } else {
        var h, i, t :| RowOfWinner(w, s, id, row, h, i, t);
        assert !RowOfBase(w, s', id, row');
        var h', i', t' :| RowOfWinner(w, s', id, row', h', i', t');
        assert Winner(w, s, id, h', i', t');
        SameEnds(w, s, id, row, row', row.startedAt, RUNNING, None);
      }
    }
  }

  lemma SameEnds(w: World, s: State, id: SessionId, row: Row, row': Row, from: Option<Time>, status: Status,
                 ended: Option<Time>)
    requires row.hostId == row'.hostId
    requires EndMatches(w, s, id, row, from, status, ended) && EndMatches(w, s, id, row', from, status, ended)
    ensures row.status == row'.status && row.endedAt == row'.endedAt
  {
  }

  /**
   Any two runs that delivered the same events of a session, in whatever interleaving and with
   whatever replays, agree.
   */
  lemma Convergence(w: World, resume: map<HostId, nat>, resume': map<HostId, nat>, acts: seq<Action>,
                    acts': seq<Action>, id: SessionId)
    requires WellFormed(w)
    requires ValidRun(w, Init(w, resume), acts) && ValidRun(w, Init(w, resume'), acts')
    requires SameDelivered(w, Exec(w, Init(w, resume), acts), Exec(w, Init(w, resume'), acts'), id)
    requires !Tied(w, Exec(w, Init(w, resume), acts), id)
    requires id !in Exec(w, Init(w, resume), acts).touched && id !in Exec(w, Init(w, resume'), acts').touched
    ensures SameLifecycle(Exec(w, Init(w, resume), acts).rows, Exec(w, Init(w, resume'), acts').rows, id)
  {
    RowsAreCanonical(w, resume, acts);
    RowsAreCanonical(w, resume', acts');
    CanonicalIsUnique(w, Exec(w, Init(w, resume), acts), Exec(w, Init(w, resume'), acts'), id);
  }

  // ---------------------------------------------------------------- a tie is the only way to diverge

  function Start(w: World): State {
    Init(w, map[])
  }

  /** Everything host `h` ever logged has been delivered. */
  ghost predicate AllDone(w: World, s: State, h: HostId)
    requires h in s.pos && h in w.logs
  {
    forall i :: 0 <= i < |w.logs[h]| ==> i in s.pos[h].done
  }

  ghost predicate Full(w: World, s: State) {
    s.pos.Keys == w.logs.Keys && forall h :: h in s.pos ==> AllDone(w, s, h)
  }

  /** Only events write rows, and all of them were delivered. */
  ghost predicate CompleteRun(w: World, acts: seq<Action>) {
    ValidRun(w, Start(w), acts) && Full(w, Exec(w, Start(w), acts)) && Exec(w, Start(w), acts).touched == {}
  }

  function Positions(n: nat): (s: set<nat>)
    ensures forall i: nat :: i in s <==> i < n
  {
    if n == 0 then {} else Positions(n - 1) + {n - 1}
  }

  function AllDelivered(w: World): State {
    State(w.base, map h | h in w.logs :: HostPos(|w.logs[h]|, Positions(|w.logs[h]|), Idle), {})
  }

  /** Stepping without seeks and saves, everything before the cursor is delivered. */
  ghost predicate Forward(w: World, s: State) {
    Inv(w, s) && s.touched == {} && forall h :: h in s.pos ==> forall i: nat :: i < s.pos[h].cursor ==>
        i in s.pos[h].done
  }

  /** The row is owned by `h` since `t`, and no log holds a later start: nobody can take it over. */
  ghost predicate Settled(w: World, s: State, id: SessionId, h: HostId, t: Time) {
    && id in s.rows && s.rows[id].hostId == h && s.rows[id].startedAt == Some(t)
    && forall h', i, u: Time :: h' in w.logs && 0 <= i < |w.logs[h']| && StartAt(w.logs[h'][i], id, u) ==> u <= t
  }

  lemma SettledStays(w: World, s: State, a: Action, id: SessionId, h: HostId, t: Time)
    requires Settled(w, s, id, h, t) && !a.Save? && !a.Delete?
    ensures Settled(w, Step(w, s, a), id, h, t)
  {
    if a.HandlerStep? && a.host in s.pos && a.host in w.logs && s.pos[a.host].cursor < |w.logs[a.host]| {
      var ev := w.logs[a.host][s.pos[a.host].cursor];
      if ev.at.Some? && ev.payload.SessionStarted? && ev.payload.id == id {
        assert StartAt(ev, id, ev.at.value);
      }
    }
  }

  /** The steps left before host `h` has handled its whole log. */
  function Left(w: World, s: State, h: HostId): nat
    requires h in s.pos && h in w.logs && s.pos[h].cursor <= |w.logs[h]|
  {
    2 * (|w.logs[h]| - s.pos[h].cursor) - (if s.pos[h].pending.Idle? || s.pos[h].cursor == |w.logs[h]| then 0 else 1)
  }

  lemma ForwardStep(w: World, s: State, h: HostId)
    requires WellFormed(w) && Forward(w, s) && h in s.pos && s.pos[h].cursor < |w.logs[h]|
    ensures var s' := StepHandler(w, s, h);
            && Forward(w, s') && s'.pos.Keys == s.pos.Keys
            && (forall h' :: h' in s.pos && h' != h ==> s'.pos[h'] == s.pos[h'])
            && s.pos[h].cursor <= |w.logs[h]| && s'.pos[h].cursor <= |w.logs[h]|
            && Left(w, s', h) < Left(w, s, h)
  {
    StepKeepsInv(w, s, HandlerStep(h));
    assert PosOk(w, s, h) && PosOk(w, StepHandler(w, s, h), h);
    StepMovesOne(w, s, h);
  }

  lemma AllSettledStay(w: World, s: State, a: Action)
    requires !a.Save? && !a.Delete?
    ensures SettledKept(w, s, Step(w, s, a))
  {
    forall id, g, t | Settled(w, s, id, g, t) ensures Settled(w, Step(w, s, a), id, g, t) {
      SettledStays(w, s, a, id, g, t);
    }
  }

  ghost predicate SettledKept(w: World, s: State, s': State) {
    forall id, g, t :: Settled(w, s, id, g, t) ==> Settled(w, s', id, g, t)
  }

  lemma {:induction false} FinishHost(w: World, acts: seq<Action>, h: HostId) returns (more: seq<Action>)
    requires WellFormed(w) && ValidRun(w, Start(w), acts) && Forward(w, Exec(w, Start(w), acts)) && h in w.logs
    ensures ValidRun(w, Start(w), more) && Forward(w, Exec(w, Start(w), more))
    ensures var s, s' := Exec(w, Start(w), acts), Exec(w, Start(w), more);
            && AllDone(w, s', h)
            && (forall h' :: h' in s.pos && h' != h ==> s'.pos[h'] == s.pos[h'])
            && SettledKept(w, s, s')
    decreases Left(w, Exec(w, Start(w), acts), h)
  {
    var s := Exec(w, Start(w), acts);
    assert PosOk(w, s, h);
    if s.pos[h].cursor == |w.logs[h]| {
      more := acts;
    } else {
      var a := HandlerStep(h);
      var longer := acts + [a];
      assert longer[..|longer| - 1] == acts;
      ForwardStep(w, s, h);
      AllSettledStay(w, s, a);
      more := FinishHost(w, longer, h);
    }
  }

  lemma {:induction false} FinishAll(w: World, acts: seq<Action>, todo: set<HostId>) returns (more: seq<Action>)
    requires WellFormed(w) && ValidRun(w, Start(w), acts) && Forward(w, Exec(w, Start(w), acts)) && todo <= w.logs.Keys
    requires forall h :: h in w.logs && h !in todo ==> AllDone(w, Exec(w, Start(w), acts), h)
    ensures CompleteRun(w, more)
    ensures SettledKept(w, Exec(w, Start(w), acts), Exec(w, Start(w), more))
    decreases todo
  {
    if todo == {} {
      more := acts;
    } else {
      var h :| h in todo;
      var next := FinishHost(w, acts, h);
      more := FinishAll(w, next, todo - {h});
    }
  }

  /** With the events of `h` delivered and no others, `h` owns every session of which it holds a latest start. */
  lemma OwnsWhenFirst(w: World, s: State, id: SessionId, h: HostId, i: int, t: Time)
    requires Winner(w, AllDelivered(w), id, h, i, t)
    requires Inv(w, s) && s.touched == {} && h in s.pos && AllDone(w, s, h)
    requires forall h' :: h' in s.pos && h' != h ==> s.pos[h'].done == {}
    ensures Settled(w, s, id, h, t)
  {
    assert Canonical(w, s, id);
    assert DeliveredStart(w, s, id, h, i, t);
    assert forall h', i', u :: DeliveredStart(w, s, id, h', i', u) ==>
             h' == h && DeliveredStart(w, AllDelivered(w), id, h', i', u);
    var h0, i0, t0 :| RowOfWinner(w, s, id, s.rows[id], h0, i0, t0);
    forall h', i', u: Time | h' in w.logs && 0 <= i' < |w.logs[h']| && StartAt(w.logs[h'][i'], id, u) ensures u <= t {
      assert DeliveredStart(w, AllDelivered(w), id, h', i', u);
    }
  }

  /** Any host holding a latest start can end up as the owner: let it deliver first. */
  lemma WinnerCanOwn(w: World, id: SessionId, h: HostId, i: int, t: Time) returns (acts: seq<Action>)
    requires WellFormed(w) && Winner(w, AllDelivered(w), id, h, i, t)
    ensures CompleteRun(w, acts) && Settled(w, Exec(w, Start(w), acts), id, h, t)
  {
    InitInv(w, map[]);
    var first := FinishHost(w, [], h);
    OwnsWhenFirst(w, Exec(w, Start(w), first), id, h, i, t);
    acts := FinishAll(w, first, w.logs.Keys);
  }

  /**
   Complete deliveries of the same logs always agree on a session exactly when no two
   hosts report the same latest start of it (later than the stored one).
   */
  lemma ConfluentIffNoTie(w: World, id: SessionId)
    requires WellFormed(w)
    ensures (forall acts, acts' :: CompleteRun(w, acts) && CompleteRun(w, acts') ==>
               SameLifecycle(Exec(w, Start(w), acts).rows, Exec(w, Start(w), acts').rows, id))
            <==> !Tied(w, AllDelivered(w), id)
  {
    if Tied(w, AllDelivered(w), id) {
      var acts, acts' := TieDiverges(w, id);
      assert !SameLifecycle(Exec(w, Start(w), acts).rows, Exec(w, Start(w), acts').rows, id);
    } else {
      forall acts, acts' | CompleteRun(w, acts) && CompleteRun(w, acts')
        ensures SameLifecycle(Exec(w, Start(w), acts).rows, Exec(w, Start(w), acts').rows, id)
      {
        CompleteRunsAgree(w, acts, acts', id);
      }
    }
  }

  lemma TieDiverges(w: World, id: SessionId) returns (acts: seq<Action>, acts': seq<Action>)
    requires WellFormed(w) && Tied(w, AllDelivered(w), id)
    ensures CompleteRun(w, acts) && CompleteRun(w, acts')
    ensures !SameLifecycle(Exec(w, Start(w), acts).rows, Exec(w, Start(w), acts').rows, id)
  {
    var h, i, t, h', i', t' :| Winner(w, AllDelivered(w), id, h, i, t) && Winner(w, AllDelivered(w), id, h', i', t')
      && h != h';
    acts := WinnerCanOwn(w, id, h, i, t);
    acts' := WinnerCanOwn(w, id, h', i', t');
    SettledApart(w, Exec(w, Start(w), acts), Exec(w, Start(w), acts'), id, h, t, h', t');
  }

  lemma SettledApart(w: World, s: State, s': State, id: SessionId, h: HostId, t: Time, h': HostId, t': Time)
    requires Settled(w, s, id, h, t) && Settled(w, s', id, h', t') && h != h'
    ensures !SameLifecycle(s.rows, s'.rows, id)
  {
  }

  lemma FullDeliversAll(w: World, s: State, id: SessionId)
    requires Full(w, s)
    ensures SameDelivered(w, AllDelivered(w), s, id)
  {
  }

  lemma CompleteRunsAgree(w: World, acts: seq<Action>, acts': seq<Action>, id: SessionId)
    requires WellFormed(w) && !Tied(w, AllDelivered(w), id) && CompleteRun(w, acts) && CompleteRun(w, acts')
    ensures SameLifecycle(Exec(w, Start(w), acts).rows, Exec(w, Start(w), acts').rows, id)
  {
    var s, s' := Exec(w, Start(w), acts), Exec(w, Start(w), acts');
    FullDeliversAll(w, s, id);
    FullDeliversAll(w, s', id);
    TieFrame(w, AllDelivered(w), s, id);
    Convergence(w, map[], map[], acts, acts', id);
  }

  lemma TieFrame(w: World, s: State, s': State, id: SessionId)
    requires SameDelivered(w, s, s', id)
    ensures Tied(w, s', id) ==> Tied(w, s, id)
  {
    if Tied(w, s', id) {
      var h, i, t, h', i', t' :| Winner(w, s', id, h, i, t) && Winner(w, s', id, h', i', t') && h != h';
      assert Winner(w, s, id, h, i, t) && Winner(w, s, id, h', i', t');
    }
  }

  /** With nothing running in between, one or two steps are the sequential handler. */
  lemma HandlerIsSteps(w: World, s: State, h: HostId)
    requires h in s.pos && h in w.logs && s.pos[h].cursor < |w.logs[h]| && s.pos[h].pending.Idle?
    ensures var s1 := StepHandler(w, s, h);
            var s2 := if s1.pos[h].pending.Idle? then s1 else StepHandler(w, s1, h);
            s2.rows == Handle(s.rows, w.hosts, h, w.logs[h][s.pos[h].cursor]) &&
            s2.pos[h].cursor == s.pos[h].cursor + 1 && s2.pos[h].pending.Idle?
  {
  }
}
