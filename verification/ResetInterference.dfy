/**
 Stream resets among the event streams.  A reset first lists the host's running rows,
 asks the host, and then demotes the unreported ones one statement at a time, while
 every host's events go on being applied and the controller saves and deletes
 rows (worker/session_state_sync_handler.go:70-121,
 usecase/session_usecase.go:162, usecase/session_usecase.go:207,
 usecase/session_usecase.go:451, usecase/session_usecase.go:477).
 */
module ResetInterference {
  import opened Wrappers
  import opened SessionTable
  import opened SessionLifecycle
  import E = EventConvergence

  /** The events' state, and for every host the rows its reset in progress has still to demote. */
  datatype State = State(e: E.State, doomed: map<HostId, set<SessionId>>)

  datatype Action =
    | Event(a: E.Action)
    | ListRunning(host: HostId, live: set<SessionId>)
    | Demote(host: HostId, id: SessionId)

  function Step(w: E.World, s: State, a: Action): State {
    match a
    case Event(ea) => s.(e := E.Step(w, s.e, ea))
    case ListRunning(h, live) =>
      s.(doomed := s.doomed[h := set id | id in s.e.rows && s.e.rows[id].hostId == h && s.e.rows[id].status == RUNNING
                            && id !in live])
    case Demote(h, id) =>
      if h in s.doomed && id in s.doomed[h] then
        State(s.e.(rows := DowngradeIfRunning(s.e.rows, id)), s.doomed[h := s.doomed[h] - {id}])
      else s
  }

  function Exec(w: E.World, s: State, acts: seq<Action>): State
    decreases |acts|
  {
    if acts == [] then s else Step(w, Exec(w, s, acts[..|acts| - 1]), acts[|acts| - 1])
  }

  function Init(w: E.World, resume: map<HostId, nat>): State {
    State(E.Init(w, resume), map[])
  }

  predicate IsReset(a: Action) {
    a.ListRunning? || a.Demote?
  }

  /** The same run as if no reset had ever happened. */
  function WithoutResets(acts: seq<Action>): seq<Action>
    decreases |acts|
  {
    if acts == [] then []
    else WithoutResets(acts[..|acts| - 1]) + (if IsReset(acts[|acts| - 1]) then [] else [acts[|acts| - 1]])
  }

  // ---------------------------------------------------------------- resets only hide that a session runs

  /** The row with resets in between is the row without, but for a RUNNING that may read UNKNOWN. */
  predicate Hidden(row: Row, plain: Row) {
    row == plain || (plain.status == RUNNING && row == plain.(status := UNKNOWN))
  }

  ghost predicate HiddenRows(rows: Rows, plain: Rows) {
    rows.Keys == plain.Keys && forall id :: id in rows ==> Hidden(rows[id], plain[id])
  }

  ghost predicate Simulates(e: E.State, plain: E.State) {
    e.pos == plain.pos && e.touched == plain.touched && HiddenRows(e.rows, plain.rows)
  }

  /** No guard of the lifecycle statements reads the status, so a hidden status never changes what they do. */
  lemma HandlerKeepsHidden(w: E.World, e: E.State, plain: E.State, h: HostId)
    requires Simulates(e, plain) && h in e.pos && h in w.logs && e.pos[h].cursor < |w.logs[h]|
    ensures Simulates(E.StepHandler(w, e, h), E.StepHandler(w, plain, h))
  {
    var ev := w.logs[h][e.pos[h].cursor];
    if ev.at.Some? && !ev.payload.OtherPayload? && ev.payload.id in e.rows {
      assert Hidden(e.rows[ev.payload.id], plain.rows[ev.payload.id]);
    }
  }

  lemma StepKeepsHidden(w: E.World, s: State, plain: State, a: Action)
    requires Simulates(s.e, plain.e)
    ensures Simulates(Step(w, s, a).e, if IsReset(a) then plain.e else Step(w, plain, a).e)
  {
    match a
    case Event(ea) =>
      if ea.HandlerStep? && ea.host in s.e.pos && ea.host in w.logs && s.e.pos[ea.host].cursor < |w.logs[ea.host]| {
        HandlerKeepsHidden(w, s.e, plain.e, ea.host);
      }
      assert (ea.Save? || ea.Delete?) && ea.id in s.e.rows ==> Hidden(s.e.rows[ea.id], plain.e.rows[ea.id]);
    case ListRunning(_, _) =>
    case Demote(_, id) => assert id in s.e.rows ==> Hidden(s.e.rows[id], plain.e.rows[id]);
  }

  /**
   For every run with any resets in it: owner, start, end and user columns of every row
   are what they would be without the resets, and so is the status, except that a
   RUNNING may read UNKNOWN.  In particular no reset ever undoes an end, whether it came
   from an event or from a stop.
   */
  lemma {:induction false} ResetsOnlyHideRunning(w: E.World, s: State, acts: seq<Action>)
    ensures Simulates(Exec(w, s, acts).e, Exec(w, s, WithoutResets(acts)).e)
    decreases |acts|
  {
    if acts != [] {
      var n := |acts| - 1;
      var before := WithoutResets(acts[..n]);
      ResetsOnlyHideRunning(w, s, acts[..n]);
      StepKeepsHidden(w, Exec(w, s, acts[..n]), Exec(w, s, before), acts[n]);
      if IsReset(acts[n]) {
        assert WithoutResets(acts) == before;
      } else {
        assert WithoutResets(acts)[..|before|] == before;
      }
    }
  }

  /** The run as the events and the saves see it. */
  function Plain(acts: seq<Action>): seq<E.Action>
    decreases |acts|
  {
    if acts == [] then []
    else
      Plain(acts[..|acts| - 1]) + (if IsReset(acts[|acts| - 1]) then [] else [acts[|acts| - 1].a])
  }

  lemma {:induction false} WithoutResetsIsPlain(w: E.World, s: State, acts: seq<Action>)
    ensures Exec(w, s, WithoutResets(acts)).e == E.Exec(w, s.e, Plain(acts))
    decreases |acts|
  {
    if acts != [] {
      var n := |acts| - 1;
      var before, plain := WithoutResets(acts[..n]), Plain(acts[..n]);
      WithoutResetsIsPlain(w, s, acts[..n]);
      if IsReset(acts[n]) {
        assert WithoutResets(acts) == before && Plain(acts) == plain;
      } else {
        assert WithoutResets(acts) == before + [acts[n]] && Plain(acts) == plain + [acts[n].a];
        assert WithoutResets(acts)[..|before|] == before && Plain(acts)[..|plain|] == plain;
      }
    }
  }

  /**
   With resets, saves and deletions in the run, the row of every session that was not
   touched itself is canonical for the delivered events, up to a hidden run.
   */
  lemma CanonicalUpToHiding(w: E.World, resume: map<HostId, nat>, acts: seq<Action>, id: SessionId)
    requires E.WellFormed(w) && E.ValidRun(w, E.Init(w, resume), Plain(acts))
    requires NoTouchOf(acts, id)
    ensures var plain := E.Exec(w, E.Init(w, resume), Plain(acts));
            && E.Canonical(w, plain, id)
            && HiddenRows(Exec(w, Init(w, resume), acts).e.rows, plain.rows)
  {
    ResetsOnlyHideRunning(w, Init(w, resume), acts);
    WithoutResetsIsPlain(w, Init(w, resume), acts);
    E.RowsAreCanonical(w, resume, Plain(acts));
    UntouchedStays(w, E.Init(w, resume), acts, id);
  }

  lemma TouchedStep(w: E.World, e: E.State, ea: E.Action, id: SessionId)
    requires !Touches(Event(ea), id)
    ensures id in E.Step(w, e, ea).touched <==> id in e.touched
  {
  }

  lemma {:induction false} UntouchedStays(w: E.World, e: E.State, acts: seq<Action>, id: SessionId)
    requires NoTouchOf(acts, id)
    ensures id in E.Exec(w, e, Plain(acts)).touched <==> id in e.touched
    decreases |acts|
  {
    if acts != [] {
      var n := |acts| - 1;
      var plain := Plain(acts[..n]);
      UntouchedStays(w, e, acts[..n], id);
      assert !Touches(acts[n], id);
      if IsReset(acts[n]) {
        assert Plain(acts) == plain;
      } else {
        assert Plain(acts) == plain + [acts[n].a] && Plain(acts)[..|plain|] == plain;
        TouchedStep(w, E.Exec(w, e, plain), acts[n].a, id);
      }
    }
  }

  // ---------------------------------------------------------------- which steps decide a row

  /** What a handler step does to a session's row, if its statement takes effect. */
  datatype Effect =
    | NoEffect
    | StartTakes(host: HostId, name: string, at: Time)
    | EndTakes(host: HostId, at: Time)

  function EffectOn(w: E.World, s: State, a: Action, id: SessionId): Effect {
    if !a.Event? || !a.a.HandlerStep? then NoEffect
    else
      var h := a.a.host;
      if h !in s.e.pos || h !in w.logs || s.e.pos[h].cursor >= |w.logs[h]| || id !in s.e.rows then NoEffect
      else
        var ev, row, pending := w.logs[h][s.e.pos[h].cursor], s.e.rows[id], s.e.pos[h].pending;
        if ev.at.None? || ev.payload.OtherPayload? || ev.payload.id != id then NoEffect
        else match ev.payload
          case SessionStarted(_, name) =>
            if pending.AfterInsert? && Before(row.startedAt, ev.at.value) then StartTakes(h, name, ev.at.value)
              else NoEffect
          case SessionEnded(_) =>
            if pending.AfterGet? && row.hostId == h && Before(row.endedAt, ev.at.value) then EndTakes(h, ev.at.value)
              else NoEffect
          case OtherPayload => NoEffect
  }

  function RowWith(row: Row, e: Effect): Row {
    match e
    case NoEffect => row
    case StartTakes(h, name, t) => row.(name := name, status := RUNNING, startedAt := Some(t), endedAt := None,
                                        hostId := h)
    case EndTakes(_, t) => row.(status := ENDED, endedAt := Some(t))
  }

  predicate Touches(a: Action, id: SessionId) {
    a.Event? && (a.a.Save? || a.a.Delete?) && a.a.id == id
  }

  /** A step that does not save or delete the row has its effect on it, or hides that the session runs. */
  lemma StepHasEffect(w: E.World, s: State, a: Action, id: SessionId)
    requires id in s.e.rows && !Touches(a, id)
    ensures id in Step(w, s, a).e.rows
    ensures var row, row' := s.e.rows[id], Step(w, s, a).e.rows[id];
            row' == RowWith(row, EffectOn(w, s, a, id)) || (Hits(s, a) && a.id == id && row' == row.(status := UNKNOWN))
  {
  }

  /** The last statement on `id` that took effect, and the last start that did. */
  ghost function LastEffect(w: E.World, s: State, acts: seq<Action>, id: SessionId): Effect
    decreases |acts|
  {
    if acts == [] then NoEffect
    else
      var before := acts[..|acts| - 1];
      var e := EffectOn(w, Exec(w, s, before), acts[|acts| - 1], id);
      if e.NoEffect? then LastEffect(w, s, before, id) else e
  }

  ghost function LastStart(w: E.World, s: State, acts: seq<Action>, id: SessionId): Effect
    ensures !LastStart(w, s, acts, id).EndTakes?
    decreases |acts|
  {
    if acts == [] then NoEffect
    else
      var before := acts[..|acts| - 1];
      var e := EffectOn(w, Exec(w, s, before), acts[|acts| - 1], id);
      if e.StartTakes? then e else LastStart(w, s, before, id)
  }

  ghost predicate NoTouchOf(acts: seq<Action>, id: SessionId) {
    forall i :: 0 <= i < |acts| ==> !Touches(acts[i], id)
  }

  /** Owner, name and start come from the last start, status and end from the last effect of either kind. */
  ghost predicate DecidedBy(row: Row, row': Row, start: Effect, last: Effect) {
    && SameUserColumns(row', row)
    && (match start
        case StartTakes(h, name, t) =>
          row'.hostId == h && row'.name == name && row'.startedAt == Some(t) && Before(row.startedAt, t)
        case _ => row'.hostId == row.hostId && row'.name == row.name && row'.startedAt == row.startedAt)
    && (match last
        case NoEffect => row'.endedAt == row.endedAt
          && (row'.status == row.status || (row.status == RUNNING && row'.status == UNKNOWN))
        case StartTakes(_, _, _) => row'.endedAt == None && (row'.status == RUNNING || row'.status == UNKNOWN)
        case EndTakes(_, t) => row'.endedAt == Some(t) && row'.status == ENDED)
  }

  lemma DecidedStep(row: Row, row': Row, row'': Row, start: Effect, last: Effect, e: Effect)
    requires DecidedBy(row, row', start, last) && !start.EndTakes?
    requires e.StartTakes? ==> Before(row'.startedAt, e.at)
    requires row'' == RowWith(row', e) || (e.NoEffect? && row'.status == RUNNING && row'' == row'.(status := UNKNOWN))
    ensures DecidedBy(row, row'', if e.StartTakes? then e else start, if e.NoEffect? then last else e)
  {
  }

  /**
   From any state on, and so from the last save of a session's row on, whatever else is
   saved, delivered, replayed or reset: the row is decided by the last start and the last
   statement that took effect, and is what it was where there is none.
   */
  lemma {:induction false} LastEffectsDecide(w: E.World, s: State, acts: seq<Action>, id: SessionId)
    requires id in s.e.rows && NoTouchOf(acts, id)
    ensures id in Exec(w, s, acts).e.rows
    ensures DecidedBy(s.e.rows[id], Exec(w, s, acts).e.rows[id], LastStart(w, s, acts, id), LastEffect(w, s, acts, id))
    decreases |acts|
  {
    if acts != [] {
      var before, a := acts[..|acts| - 1], acts[|acts| - 1];
      LastEffectsDecide(w, s, before, id);
      var t := Exec(w, s, before);
      StepHasEffect(w, t, a, id);
      DecidedStep(s.e.rows[id], t.e.rows[id], Step(w, t, a).e.rows[id], LastStart(w, s, before, id),
                  LastEffect(w, s, before, id),
                  EffectOn(w, t, a, id));
    }
  }

  /**
   The upsert of a start has no guard: saved over a row that an event had ended, it makes
   the session read as not ended, and it stays so exactly until an end takes effect again
   after the last start that did.
   */
  lemma RevivedUntilEnded(w: E.World, s: State, id: SessionId, row: Row, acts: seq<Action>)
    requires id in s.e.rows && s.e.rows[id].status == ENDED && row.status != ENDED && NoTouchOf(acts, id)
    ensures var s1 := Step(w, s, Event(E.Save(id, row)));
            id in Exec(w, s1, acts).e.rows &&
            (Exec(w, s1, acts).e.rows[id].status == ENDED <==> LastEffect(w, s1, acts, id).EndTakes?)
  {
    LastEffectsDecide(w, Step(w, s, Event(E.Save(id, row))), acts, id);
  }

  /** A session that ends while the controller is still waiting to save that it started. */
  function ShortWorld(): E.World {
    E.World(map["b" := [HostEvent(SessionStarted("s", "n"), Some(5)), HostEvent(SessionEnded("s"), Some(6))]],
            map["b" := "g"], map[])
  }

  function StartedRow(): Row {
    Row("n", RUNNING, Some(5), None, "b", Some("u"), None, EMPTY_PARAMETERS, false, "g")
  }

  /** In the short world: the one row and how far the one stream is. */
  ghost predicate At(s: State, row: Row, cursor: nat, pending: E.Pending) {
    && "s" in s.e.rows && s.e.rows["s"] == row
    && "b" in s.e.pos && s.e.pos["b"].cursor == cursor && s.e.pos["b"].pending == pending
  }

  lemma ShortSteps(s: State, row: Row)
    requires row.hostId == "b" && row.startedAt == Some(5) && row.endedAt == None
    ensures At(s, row, 0, E.AfterInsert) ==> At(Step(ShortWorld(), s, Event(E.HandlerStep("b"))), row, 1, E.Idle)
    ensures At(s, row, 1, E.Idle) ==> At(Step(ShortWorld(), s, Event(E.HandlerStep("b"))), row, 1, E.AfterGet)
    ensures At(s, row, 1, E.AfterGet) ==>
              At(Step(ShortWorld(), s, Event(E.HandlerStep("b"))), row.(status := ENDED, endedAt := Some(6)), 2, E.Idle)
  {
  }

  function EmptyStart(): State {
    Init(ShortWorld(), map[])
  }

  /** The row the first event creates. */
  function ReportedRow(): Row {
    StartedRow().(createdBy := None)
  }

  lemma FirstShortStep()
    ensures At(Step(ShortWorld(), EmptyStart(), Event(E.HandlerStep("b"))), ReportedRow(), 0, E.AfterInsert)
  {
  }

  /** One more step of the host's handler, from a state whose row and position are known. */
  lemma ShortRunGoesOn(acts: seq<Action>, row: Row) returns (longer: seq<Action>)
    requires row.hostId == "b" && row.startedAt == Some(5) && row.endedAt == None
    requires forall i :: 0 <= i < |acts| ==> acts[i] == Event(E.HandlerStep("b"))
    ensures forall i :: 0 <= i < |longer| ==> longer[i] == Event(E.HandlerStep("b"))
    ensures var s, s' := Exec(ShortWorld(), EmptyStart(), acts), Exec(ShortWorld(), EmptyStart(), longer);
            && (At(s, row, 0, E.AfterInsert) ==> At(s', row, 1, E.Idle))
            && (At(s, row, 1, E.Idle) ==> At(s', row, 1, E.AfterGet))
            && (At(s, row, 1, E.AfterGet) ==> At(s', row.(status := ENDED, endedAt := Some(6)), 2, E.Idle))
  {
    Extend(ShortWorld(), EmptyStart(), acts, Event(E.HandlerStep("b")));
    ShortSteps(Exec(ShortWorld(), EmptyStart(), acts), row);
    longer := acts + [Event(E.HandlerStep("b"))];
  }

  lemma ShortRunBegins() returns (acts: seq<Action>)
    ensures acts == [Event(E.HandlerStep("b"))]
    ensures At(Exec(ShortWorld(), EmptyStart(), acts), ReportedRow(), 0, E.AfterInsert)
  {
    Extend(ShortWorld(), EmptyStart(), [], Event(E.HandlerStep("b")));
    FirstShortStep();
    acts := [] + [Event(E.HandlerStep("b"))];
  }

  /**
   A run from the start: both events are applied, and then the save of the start makes the ended
   session read RUNNING.
   */
  lemma RevivedByStart() returns (before: seq<Action>)
    ensures E.WellFormed(ShortWorld()) && E.ValidRun(ShortWorld(), EmptyStart().e, Plain(before))
    ensures var ended := Exec(ShortWorld(), EmptyStart(), before);
            var revived := Step(ShortWorld(), ended, Event(E.Save("s", StartedRow())));
            && "b" in ended.e.pos && ended.e.pos["b"].cursor == 2
            && "s" in ended.e.rows && ended.e.rows["s"].status == ENDED && ended.e.rows["s"].endedAt == Some(6)
            && "s" in revived.e.rows && revived.e.rows["s"].status == RUNNING && revived.e.rows["s"].endedAt == None
  {
    before := ShortRunBegins();
    before := ShortRunGoesOn(before, ReportedRow());
    before := ShortRunGoesOn(before, ReportedRow());
    before := ShortRunGoesOn(before, ReportedRow());
    PlainIsSteps(before);
    NoSeeksAreValid(ShortWorld(), EmptyStart().e, Plain(before));
    ShortIsWellFormed();
  }

  lemma ShortIsWellFormed()
    ensures E.WellFormed(ShortWorld())
  {
  }

  // ---------------------------------------------------------------- which rows a reset demotes

  /** The statement demotes a row. */
  predicate Hits(s: State, a: Action) {
    && a.Demote? && a.host in s.doomed && a.id in s.doomed[a.host]
    && a.id in s.e.rows && s.e.rows[a.id].status == RUNNING
  }

  /** Only a list puts rows on a host's doom list. */
  predicate Relists(a: Action, h: HostId) {
    a.ListRunning? && a.host == h
  }

  lemma {:induction false} DoomedWereListed(w: E.World, s: State, h: HostId, live: set<SessionId>, acts: seq<Action>,
                                            id: SessionId)
    requires forall i :: 0 <= i < |acts| ==> !Relists(acts[i], h)
    ensures var t := Exec(w, Step(w, s, ListRunning(h, live)), acts);
            h in t.doomed && (id in t.doomed[h] ==>
                              id in s.e.rows && s.e.rows[id].hostId == h && s.e.rows[id].status == RUNNING
                                && id !in live)
    decreases |acts|
  {
    if acts != [] {
      DoomedWereListed(w, s, h, live, acts[..|acts| - 1], id);
      assert !Relists(acts[|acts| - 1], h);
    }
  }

  ghost predicate StartTook(w: E.World, s: State, acts: seq<Action>, id: SessionId) {
    exists i :: 0 <= i < |acts| && EffectOn(w, Exec(w, s, acts[..i]), acts[i], id).StartTakes?
  }

  lemma {:induction false} NoLastStart(w: E.World, s: State, acts: seq<Action>, id: SessionId)
    ensures LastStart(w, s, acts, id).StartTakes? <==> StartTook(w, s, acts, id)
    decreases |acts|
  {
    if acts != [] {
      var n := |acts| - 1;
      var before := acts[..n];
      NoLastStart(w, s, before, id);
      assert forall i :: 0 <= i < n ==> before[..i] == acts[..i];
      if StartTook(w, s, before, id) {
        var i :| 0 <= i < n && EffectOn(w, Exec(w, s, before[..i]), before[i], id).StartTakes?;
        assert EffectOn(w, Exec(w, s, acts[..i]), acts[i], id).StartTakes?;
      }
      if StartTook(w, s, acts, id) && !EffectOn(w, Exec(w, s, before), acts[n], id).StartTakes? {
        var i :| 0 <= i <= n && EffectOn(w, Exec(w, s, acts[..i]), acts[i], id).StartTakes?;
        assert EffectOn(w, Exec(w, s, before[..i]), before[i], id).StartTakes?;
      }
    }
  }

  // ---------------------------------------------------------------- whose run a row is

  /** A run of a session: on which host and since when. */
  datatype Tenure = Tenure(host: HostId, since: Option<Time>)

  function TenureOf(row: Row): Tenure {
    Tenure(row.hostId, row.startedAt)
  }

  /**
   The run a step makes the row of: a save, a start that takes effect, or the insert of a row that
   had been deleted.
   */
  function Takes(w: E.World, s: State, a: Action, id: SessionId): Option<Tenure> {
    if a.Event? && a.a.Save? && a.a.id == id then Some(TenureOf(a.a.row))
    else match EffectOn(w, s, a, id)
      case StartTakes(h, _, t) => Some(Tenure(h, Some(t)))
      case _ => if id !in s.e.rows && id in Step(w, s, a).e.rows then Some(TenureOf(Step(w, s, a).e.rows[id])) else None
  }

  ghost function LastTaken(w: E.World, s: State, acts: seq<Action>, id: SessionId): Option<Tenure>
    decreases |acts|
  {
    if acts == [] then None
    else
      var before := acts[..|acts| - 1];
      var taken := Takes(w, Exec(w, s, before), acts[|acts| - 1], id);
      if taken.Some? then taken else LastTaken(w, s, before, id)
  }

  lemma TakesDecides(w: E.World, s: State, a: Action, id: SessionId)
    requires id in Step(w, s, a).e.rows
    ensures var taken, row' := Takes(w, s, a, id), Step(w, s, a).e.rows[id];
            if taken.Some? then TenureOf(row') == taken.value
              else id in s.e.rows && TenureOf(row') == TenureOf(s.e.rows[id])
  {
    if id in s.e.rows && !Touches(a, id) {
      StepHasEffect(w, s, a, id);
    }
  }

  /** Every run, with saves and deletions too: a row is the run that took it last. */
  lemma {:induction false} LastTakenOwns(w: E.World, s: State, acts: seq<Action>, id: SessionId)
    requires id in Exec(w, s, acts).e.rows
    ensures var taken, row' := LastTaken(w, s, acts, id), Exec(w, s, acts).e.rows[id];
            if taken.Some? then TenureOf(row') == taken.value
              else id in s.e.rows && TenureOf(row') == TenureOf(s.e.rows[id])
    decreases |acts|
  {
    if acts != [] {
      var before, a := acts[..|acts| - 1], acts[|acts| - 1];
      TakesDecides(w, Exec(w, s, before), a, id);
      if Takes(w, Exec(w, s, before), a, id).None? {
        LastTakenOwns(w, s, before, id);
      }
    }
  }

  /**
   A demoted row was running on the host and unreported when the reset listed it.  It is
   still that run of the session exactly when no save, start or insert took the row for
   another host or start time since the list.  If the controller left the row alone, the
   start time alone tells.
   */
  lemma DemotesListedRunIff(w: E.World, s: State, h: HostId, live: set<SessionId>, acts: seq<Action>, id: SessionId)
    requires forall i :: 0 <= i < |acts| ==> !Relists(acts[i], h)
    requires Hits(Exec(w, Step(w, s, ListRunning(h, live)), acts), Demote(h, id))
    ensures id in s.e.rows && s.e.rows[id].hostId == h && s.e.rows[id].status == RUNNING && id !in live
    ensures var listed := Step(w, s, ListRunning(h, live));
            var row, row' := s.e.rows[id], Exec(w, listed, acts).e.rows[id];
            var taken := LastTaken(w, listed, acts, id);
            && (row'.hostId == h && row'.startedAt == row.startedAt
                <==> taken.None? || taken == Some(Tenure(h, row.startedAt)))
            && (NoTouchOf(acts, id) ==>
                  && (row'.startedAt == row.startedAt <==> !StartTook(w, listed, acts, id))
                  && (row'.startedAt == row.startedAt && row'.hostId == h && row'.name == row.name
                      <==> !StartTook(w, listed, acts, id)))
  {
    DoomedWereListed(w, s, h, live, acts, id);
    var listed := Step(w, s, ListRunning(h, live));
    LastTakenOwns(w, listed, acts, id);
    if NoTouchOf(acts, id) {
      LastEffectsDecide(w, listed, acts, id);
      NoLastStart(w, listed, acts, id);
    }
  }

  /**
   When the row was taken, the demoted run is that of whoever took it last: the last starter, if
   the controller left it alone.
   */
  lemma DemotesLastOwner(w: E.World, s: State, h: HostId, live: set<SessionId>, acts: seq<Action>, id: SessionId)
    requires forall i :: 0 <= i < |acts| ==> !Relists(acts[i], h)
    requires Hits(Exec(w, Step(w, s, ListRunning(h, live)), acts), Demote(h, id))
    ensures var listed := Step(w, s, ListRunning(h, live));
            var demoted := Step(w, Exec(w, listed, acts), Demote(h, id)).e.rows[id];
            && demoted.status == UNKNOWN
            && (LastTaken(w, listed, acts, id).Some? ==> Some(TenureOf(demoted)) == LastTaken(w, listed, acts, id))
            && (NoTouchOf(acts, id) && StartTook(w, listed, acts, id) ==>
                  var last := LastStart(w, listed, acts, id);
                  last.StartTakes? && TenureOf(demoted) == Tenure(last.host, Some(last.at)))
  {
    var listed := Step(w, s, ListRunning(h, live));
    DoomedWereListed(w, s, h, live, acts, id);
    LastTakenOwns(w, listed, acts, id);
    if NoTouchOf(acts, id) {
      LastEffectsDecide(w, listed, acts, id);
      NoLastStart(w, listed, acts, id);
    }
    HitDemotes(w, Exec(w, listed, acts), Demote(h, id));
  }

  lemma HitDemotes(w: E.World, s: State, a: Action)
    requires Hits(s, a)
    ensures Step(w, s, a).e.rows == s.e.rows[a.id := s.e.rows[a.id].(status := UNKNOWN)]
  {
  }

  /** Two hosts; "b" starts the session that "a" ran when the controller came up. */
  function TakeoverWorld(): E.World {
    E.World(map["a" := [], "b" := [HostEvent(SessionStarted("s", "n"), Some(5))]],
            map["a" := "g", "b" := "g"],
            map["s" := Row("n", RUNNING, Some(1), None, "a", None, None, EMPTY_PARAMETERS, false, "g")])
  }

  lemma Extend(w: E.World, s: State, acts: seq<Action>, a: Action)
    ensures Exec(w, s, acts + [a]) == Step(w, Exec(w, s, acts), a)
  {
    assert (acts + [a])[..|acts + [a]| - 1] == acts;
  }

  /** A run from the start in which the reset of "a" demotes the session that "b" has just taken over. */
  lemma DemotesNewOwner() returns (acts: seq<Action>)
    ensures E.WellFormed(TakeoverWorld()) && E.ValidRun(TakeoverWorld(), E.Init(TakeoverWorld(), map[]), Plain(acts))
    ensures var rows := Exec(TakeoverWorld(), Init(TakeoverWorld(), map[]), acts).e.rows;
            "s" in rows && rows["s"].hostId == "b" && rows["s"].startedAt == Some(5) && rows["s"].status == UNKNOWN
  {
    var w := TakeoverWorld();
    var s0 := Init(w, map[]);
    var step := Event(E.HandlerStep("b"));
    var a0, a1, a2, a3 := [ListRunning("a", {})], [ListRunning("a", {})] + [step],
      [ListRunning("a", {})] + [step] + [step],
                          [ListRunning("a", {})] + [step] + [step] + [Demote("a", "s")];
    assert a0 == [] + [ListRunning("a", {})];
    Extend(w, s0, [], ListRunning("a", {}));
    Extend(w, s0, a0, step);
    Extend(w, s0, a1, step);
    Extend(w, s0, a2, Demote("a", "s"));
    var s1 := Step(w, s0, ListRunning("a", {}));
    assert "s" in s1.doomed["a"];
    var s2 := Step(w, s1, step);
    assert s2.e.rows == s0.e.rows && s2.e.pos["b"].pending.AfterInsert? && s2.e.pos["b"].cursor == 0
           && s2.doomed == s1.doomed;
    var s3 := Step(w, s2, step);
    assert s3.e.rows["s"].hostId == "b" && s3.e.rows["s"].status == RUNNING && s3.doomed == s1.doomed;
    PlainIsSteps(a3);
    NoSeeksAreValid(w, s0.e, Plain(a3));
    acts := a3;
  }

  /**
   A run from the start in which it demotes a session that the controller has just started on "b",
   with no event at all.
   */
  lemma DemotesSavedOwner() returns (acts: seq<Action>)
    ensures E.WellFormed(TakeoverWorld()) && E.ValidRun(TakeoverWorld(), E.Init(TakeoverWorld(), map[]), Plain(acts))
    ensures forall i :: 0 <= i < |acts| ==> acts[i].Event? ==> acts[i].a.Save?
    ensures var rows := Exec(TakeoverWorld(), Init(TakeoverWorld(), map[]), acts).e.rows;
            "s" in rows && rows["s"].hostId == "b" && rows["s"].startedAt == Some(5) && rows["s"].status == UNKNOWN
  {
    var w := TakeoverWorld();
    var s0, save := Init(w, map[]), Event(E.Save("s", StartedRow()));
    acts := [ListRunning("a", {}), save, Demote("a", "s")];
    assert acts == [] + [ListRunning("a", {})] + [save] + [Demote("a", "s")];
    Extend(w, s0, [], ListRunning("a", {}));
    Extend(w, s0, [] + [ListRunning("a", {})], save);
    Extend(w, s0, [] + [ListRunning("a", {})] + [save], Demote("a", "s"));
    var s1 := Step(w, s0, ListRunning("a", {}));
    assert "s" in s1.doomed["a"];
    var s2 := Step(w, s1, save);
    assert s2.e.rows["s"].hostId == "b" && s2.e.rows["s"].status == RUNNING && s2.doomed == s1.doomed;
    PlainHasNoSeeks(acts);
    NoSeeksAreValid(w, s0.e, Plain(acts));
  }

  lemma {:induction false} PlainHasNoSeeks(acts: seq<Action>)
    requires forall i :: 0 <= i < |acts| ==> acts[i].Event? ==> !acts[i].a.Seek?
    ensures forall j :: 0 <= j < |Plain(acts)| ==> !Plain(acts)[j].Seek?
    decreases |acts|
  {
    if acts != [] {
      PlainHasNoSeeks(acts[..|acts| - 1]);
    }
  }

  lemma {:induction false} PlainIsSteps(acts: seq<Action>)
    requires forall i :: 0 <= i < |acts| ==> acts[i].Event? ==> acts[i].a.HandlerStep?
    ensures forall j :: 0 <= j < |Plain(acts)| ==> Plain(acts)[j].HandlerStep?
    decreases |acts|
  {
    if acts != [] {
      PlainIsSteps(acts[..|acts| - 1]);
    }
  }

  lemma {:induction false} NoSeeksAreValid(w: E.World, e: E.State, acts: seq<E.Action>)
    requires forall i :: 0 <= i < |acts| ==> !acts[i].Seek?
    ensures E.ValidRun(w, e, acts)
    decreases |acts|
  {
    if acts != [] {
      NoSeeksAreValid(w, e, acts[..|acts| - 1]);
    }
  }
}
