/**
 Batches of claimed jobs running under a semaphore
 (worker/async_job_executor.go:162-189, worker/scheduled_operation_executor.go:145-172)
 on top of the claim queue, in time: when can a stale sweep hand out a row that an
 earlier claim is still working on?
 */
module ExclusiveExecution {
  import opened Wrappers
  import Q = ClaimQueue

  type Id = Q.Id
  type Tx = Q.Tx
  type Time = Q.Time

  // ---------------------------------------------------------------- rounds

  /** The round job k runs in when c jobs run at a time: k / c (see RoundIsQuotient). */
  function Round(k: nat, c: nat): nat
    requires c > 0
  {
    if k < c then 0 else Round(k - c, c) + 1
  }

  /** How many rounds a batch of n jobs takes: n / c rounded up. */
  function Rounds(n: nat, c: nat): nat
    requires c > 0
  {
    Round(n + c - 1, c)
  }

  /** n times `hold` (see SpanIsProduct). */
  function Span(n: nat, hold: Time): Time {
    if n == 0 then 0 else Span(n - 1, hold) + hold
  }

  lemma {:induction false} SpanIsProduct(n: nat, hold: Time)
    ensures Span(n, hold) == n * hold
  {
    if n > 0 {
      SpanIsProduct(n - 1, hold);
      assert n * hold == (n - 1) * hold + hold;
    }
  }

  lemma {:induction false} RoundBrackets(k: nat, c: nat)
    requires c > 0
    ensures c * Round(k, c) <= k < c * Round(k, c) + c
  {
    if k >= c {
      var q := Round(k - c, c);
      RoundBrackets(k - c, c);
      assert c * (q + 1) == c * q + c;
    }
  }

  /** There is only one multiple of c that k follows by less than c. */
  lemma QuotientIsUnique(k: nat, c: nat, p: nat, q: nat)
    requires c * p <= k < c * p + c && c * q <= k < c * q + c
    ensures p <= q
  {
    if q < p {
      assert c * (q + 1) == c * q + c;
      Q.TimesMonotone(c, q + 1, p);
    }
  }

  lemma RoundIsQuotient(k: nat, c: nat)
    requires c > 0
    ensures Round(k, c) == k / c
  {
    RoundBrackets(k, c);
    assert c * (k / c) <= k < c * (k / c) + c;
    QuotientIsUnique(k, c, Round(k, c), k / c);
    QuotientIsUnique(k, c, k / c, Round(k, c));
  }

  lemma {:induction false} RoundMonotone(a: nat, b: nat, c: nat)
    requires c > 0 && a <= b
    ensures Round(a, c) <= Round(b, c)
  {
    if a >= c {
      RoundMonotone(a - c, b - c, c);
    }
  }

  lemma NextRound(k: nat, c: nat)
    requires c > 0
    ensures Round(k + c, c) == Round(k, c) + 1
  {
    assert k + c - c == k;
  }

  lemma {:induction false} SpanMonotone(a: nat, b: nat, hold: Time)
    requires a <= b
    ensures Span(a, hold) <= Span(b, hold)
  {
    if a < b {
      SpanMonotone(a, b - 1, hold);
    }
  }

  /** Whatever round job k is in, its batch of n jobs lasts to the end of that round. */
  lemma RoundInBatch(k: nat, n: nat, c: nat, hold: Time)
    requires c > 0 && k < n
    ensures Span(Round(k, c), hold) + hold <= Span(Rounds(n, c), hold)
  {
    var p, q := Round(k, c), Rounds(n, c);
    NextRound(k, c);
    RoundMonotone(k + c, n + c - 1, c);
    SpanMonotone(p + 1, q, hold);
  }

  lemma LaterRound(a: nat, b: nat, c: nat, hold: Time)
    requires c > 0 && a <= b
    ensures Span(Round(a, c), hold) <= Span(Round(b, c), hold)
  {
    RoundMonotone(a, b, c);
    SpanMonotone(Round(a, c), Round(b, c), hold);
  }

  function Interval(lo: nat, hi: nat): (s: set<nat>)
    requires lo <= hi
    ensures |s| == hi - lo
    ensures forall x :: x in s <==> lo <= x < hi
    decreases hi - lo
  {
    if lo == hi then {} else {lo} + Interval(lo + 1, hi)
  }

  /** Of c different numbers below n, the least is at most n - c. */
  lemma LeastOfMany(s: set<nat>, n: nat, c: nat) returns (m: nat)
    requires |s| >= c > 0 && forall x :: x in s ==> x < n
    ensures m in s && m + c <= n
  {
    m :| m in s;
    var rest := s - {m};
    while rest != {}
      invariant rest <= s && m in s
      invariant forall x: nat :: x in s && x !in rest ==> m <= x
      decreases rest
    {
      var x :| x in rest;
      if x < m {
        m := x;
      }
      rest := rest - {x};
    }
    assert s <= Interval(m, n);
    SubsetSize(s, Interval(m, n));
  }

  // ---------------------------------------------------------------- the executors, in time

  /** What every instance runs with: `hold` bounds how long one job holds its slot, `latency` a claim's transaction. */
  datatype Config = Config(batch: nat, concurrency: nat, hold: Time, latency: Time, staleAfter: Time)

  /** Non-positive options are replaced by positive defaults. */
  predicate Sane(cfg: Config) {
    cfg.batch > 0 && cfg.concurrency > 0
  }

  /** Jobs before `next` have been given a slot; `running` says since when the unfinished ones hold theirs. */
  datatype Batch = Batch(claimedAt: Time, readyAt: Time, ids: seq<Id>, next: nat, running: map<nat, Time>,
                         stopped: bool)

  datatype State = State(q: Q.State, batches: map<Tx, Batch>)

  datatype Outcome = Succeeded | Failed(error: string) | NotReady(next: Time) | Unmarked

  datatype Action =
    | Queue(a: Q.Action)
    | Dispatch(tx: Tx, order: seq<Id>)
    | Start(tx: Tx)
    | Finish(tx: Tx, k: nat, outcome: Outcome)
    | Stop(tx: Tx)
    | Crash(tx: Tx)
    | Tick(elapsed: Time)

  ghost predicate IsOrder(order: seq<Id>, ids: set<Id>) {
    && |order| == |ids|
    && (forall id :: id in order <==> id in ids)
    && (forall i, j :: 0 <= i < j < |order| ==> order[i] != order[j])
  }

  /** Statements an instance issues outside the executions. */
  predicate OnQueue(cfg: Config, s: State, a: Q.Action) {
    match a
    case Create(_, _) => true
    case Select(tx, _, batch, _) => batch == cfg.batch && tx !in s.batches
    case Abort(_) => true
    case CancelOp(_) => true
    case Sweep(staleAfter) => staleAfter == cfg.staleAfter
    case _ => false
  }

  predicate SlotFree(cfg: Config, b: Batch) {
    !b.stopped && b.next < |b.ids| && |b.running| < cfg.concurrency
  }

  /** Time does not pass a deadline, nor while a job could take a free slot. */
  ghost predicate MayTick(cfg: Config, s: State, now: Time) {
    && (forall tx :: tx in s.q.txs ==> now <= s.q.txs[tx].start + cfg.latency)
    && (forall tx :: tx in s.batches ==> BatchMayTick(cfg, s.batches[tx], s.q.now, now))
  }

  ghost predicate BatchMayTick(cfg: Config, b: Batch, before: Time, now: Time) {
    && (forall k :: k in b.running ==> now <= b.running[k] + cfg.hold)
    && (before < now ==> !SlotFree(cfg, b))
  }

  function OutcomeAction(id: Id, o: Outcome): Q.Action {
    match o
    case Succeeded => Q.Succeed(id)
    case Failed(error) => Q.Fail(id, error)
    case NotReady(next) => Q.PutBack(id, next)
    case Unmarked => Q.Tick(0)
  }

  ghost function Step(cfg: Config, s: State, a: Action): State {
    match a
    case Queue(qa) => if OnQueue(cfg, s, qa) then s.(q := Q.Step(s.q, qa)) else s
    case Dispatch(tx, order) =>
      if tx in s.q.txs && tx !in s.batches && IsOrder(order, s.q.txs[tx].ids) then
        State(Q.Step(s.q, Q.Commit(tx)), s.batches[tx := Batch(s.q.txs[tx].start, s.q.now, order, 0, map[], false)])
      else s
    case Start(tx) =>
      if tx in s.batches && SlotFree(cfg, s.batches[tx]) then
        var b := s.batches[tx];
        s.(batches := s.batches[tx := b.(next := b.next + 1, running := b.running[b.next := s.q.now])])
      else s
    case Finish(tx, k, outcome) =>
      if tx in s.batches && k in s.batches[tx].running && k < |s.batches[tx].ids| then
        var b := s.batches[tx];
        State(Q.Step(s.q, OutcomeAction(b.ids[k], outcome)), s.batches[tx := b.(running := b.running - {k})])
      else s
    // Shutdown: the loop stops handing out slots, running jobs go on.
    case Stop(tx) => if tx in s.batches then s.(batches := s.batches[tx := s.batches[tx].(stopped := true)]) else s
    case Crash(tx) => if tx in s.batches then
        s.(batches := s.batches[tx := s.batches[tx].(stopped := true, running := map[])]) else s
    case Tick(elapsed) => if MayTick(cfg, s, s.q.now + elapsed) then s.(q := Q.Step(s.q, Q.Tick(elapsed))) else s
  }

  ghost function Exec(cfg: Config, s: State, acts: seq<Action>): State
    decreases |acts|
  {
    if acts == [] then s else Step(cfg, Exec(cfg, s, acts[..|acts| - 1]), acts[|acts| - 1])
  }

  function Init(kind: Q.Kind): State {
    State(Q.Init(kind), map[])
  }

  // ---------------------------------------------------------------- how late a slot comes

  /** Job k of the batch still runs, or will. */
  predicate Active(b: Batch, k: nat) {
    k < |b.ids| && (k in b.running || (k >= b.next && !b.stopped))
  }

  ghost predicate BatchOk(cfg: Config, b: Batch, now: Time)
    requires Sane(cfg)
  {
    && b.claimedAt <= b.readyAt <= b.claimedAt + cfg.latency
    && b.readyAt <= now
    && |b.ids| <= cfg.batch && b.next <= |b.ids|
    && (forall i, j :: 0 <= i < j < |b.ids| ==> b.ids[i] != b.ids[j])
    && |b.running| <= cfg.concurrency
    && (forall k :: k in b.running ==>
          k < b.next && b.running[k] <= b.readyAt + Span(Round(k, cfg.concurrency), cfg.hold)
            && now <= b.running[k] + cfg.hold)
    && (b.next < |b.ids| && !b.stopped ==> now <= b.readyAt + Span(Round(b.next, cfg.concurrency), cfg.hold))
  }

  ghost predicate TimelyInv(cfg: Config, s: State)
    requires Sane(cfg)
  {
    && Q.Inv(s.q)
    && (forall tx :: tx in s.q.txs ==> TxOk(cfg, s.q.txs[tx], s.q.now))
    && (forall tx :: tx in s.batches ==> BatchOk(cfg, s.batches[tx], s.q.now))
  }

  predicate TxOk(cfg: Config, tx: Q.ClaimTx, now: Time) {
    tx.start <= now <= tx.start + cfg.latency && |tx.ids| <= cfg.batch
  }

  lemma StartKeepsBatchOk(cfg: Config, b: Batch, now: Time)
    requires Sane(cfg) && BatchOk(cfg, b, now) && SlotFree(cfg, b)
    ensures BatchOk(cfg, b.(next := b.next + 1, running := b.running[b.next := now]), now)
  {
    var t := b.(next := b.next + 1, running := b.running[b.next := now]);
    assert t.running.Keys == b.running.Keys + {b.next};
    forall k | k in t.running
      ensures k < t.next && t.running[k] <= t.readyAt + Span(Round(k, cfg.concurrency), cfg.hold)
              && now <= t.running[k] + cfg.hold
    {
      assert k == b.next || (k in b.running && t.running[k] == b.running[k]);
    }
    if t.next < |t.ids| {
      LaterRound(b.next, t.next, cfg.concurrency, cfg.hold);
    }
  }

  /** With every slot taken the oldest job gives its slot back in time for the next one. */
  lemma TickKeepsBatchOk(cfg: Config, b: Batch, before: Time, now: Time)
    requires Sane(cfg) && BatchOk(cfg, b, before) && before <= now && BatchMayTick(cfg, b, before, now)
    ensures BatchOk(cfg, b, now)
  {
    if before < now && b.next < |b.ids| && !b.stopped {
      var c := cfg.concurrency;
      var m: nat := LeastOfMany(b.running.Keys, b.next, c);
      NextRound(m, c);
      RoundMonotone(m + c, b.next, c);
      SpanMonotone(Round(m, c) + 1, Round(b.next, c), cfg.hold);
    }
  }

  lemma FinishKeepsBatchOk(cfg: Config, b: Batch, now: Time, k: nat)
    requires Sane(cfg) && BatchOk(cfg, b, now) && k in b.running
    ensures BatchOk(cfg, b.(running := b.running - {k}), now)
  {
    assert (b.running - {k}).Keys == b.running.Keys - {k};
  }

  /** Every step is one step of the claim queue, or none: what the queue promises holds here too. */
  lemma StepIsQueueStep(cfg: Config, s: State, a: Action) returns (qa: Q.Action)
    ensures Step(cfg, s, a).q == Q.Step(s.q, qa)
    ensures qa.Select? ==> qa.batch == cfg.batch
    ensures qa.Tick? || Step(cfg, s, a).q.now == s.q.now
    ensures !a.Tick? ==> Step(cfg, s, a).q.now == s.q.now
  {
    qa := match a
      case Queue(qa') => if OnQueue(cfg, s, qa') then qa' else Q.Tick(0)
      case Dispatch(tx, order) =>
        if tx in s.q.txs && tx !in s.batches && IsOrder(order, s.q.txs[tx].ids) then Q.Commit(tx) else Q.Tick(0)
      case Finish(tx, k, outcome) =>
        if tx in s.batches && k in s.batches[tx].running && k < |s.batches[tx].ids| then
          OutcomeAction(s.batches[tx].ids[k], outcome)
        else Q.Tick(0)
      case Tick(elapsed) => if MayTick(cfg, s, s.q.now + elapsed) then Q.Tick(elapsed) else Q.Tick(0)
      case _ => Q.Tick(0);
  }

  lemma TxComesFromSelect(q: Q.State, qa: Q.Action, tx: Tx)
    requires tx in Q.Step(q, qa).txs
    ensures if tx in q.txs then Q.Step(q, qa).txs[tx] == q.txs[tx]
            else qa.Select? && Q.Step(q, qa).txs[tx].start == q.now && |Q.Step(q, qa).txs[tx].ids| <= qa.batch
  {
  }

  lemma TxsStayOk(cfg: Config, s: State, a: Action, tx: Tx)
    requires Sane(cfg) && TimelyInv(cfg, s) && tx in Step(cfg, s, a).q.txs
    ensures TxOk(cfg, Step(cfg, s, a).q.txs[tx], Step(cfg, s, a).q.now)
  {
    var qa := StepIsQueueStep(cfg, s, a);
    TxComesFromSelect(s.q, qa, tx);
    if tx in s.q.txs && a.Tick? {
      assert TxOk(cfg, s.q.txs[tx], s.q.now);
    }
  }

  lemma NewBatchOk(cfg: Config, s: State, a: Action, tx: Tx)
    requires Sane(cfg) && TimelyInv(cfg, s) && tx !in s.batches && tx in Step(cfg, s, a).batches
    ensures BatchOk(cfg, Step(cfg, s, a).batches[tx], s.q.now)
  {
    assert a.Dispatch?;
    assert TxOk(cfg, s.q.txs[tx], s.q.now);
  }

  lemma BatchesStayOk(cfg: Config, s: State, a: Action, tx: Tx)
    requires Sane(cfg) && TimelyInv(cfg, s) && tx in Step(cfg, s, a).batches
    ensures BatchOk(cfg, Step(cfg, s, a).batches[tx], Step(cfg, s, a).q.now)
  {
    var qa := StepIsQueueStep(cfg, s, a);
    var t := Step(cfg, s, a);
    if tx !in s.batches {
      NewBatchOk(cfg, s, a, tx);
    } else if a.Tick? {
      TickKeepsBatchOk(cfg, s.batches[tx], s.q.now, t.q.now);
    } else if t.batches[tx] != s.batches[tx] {
      BatchChanges(cfg, s, a, tx);
    }
  }

  /** The ways in which a step may change a batch that exists. */
  lemma BatchMoves(cfg: Config, s: State, a: Action, tx: Tx)
    requires tx in s.batches && tx in Step(cfg, s, a).batches && Step(cfg, s, a).batches[tx] != s.batches[tx]
    ensures var b, b' := s.batches[tx], Step(cfg, s, a).batches[tx];
            || (SlotFree(cfg, b) && b' == b.(next := b.next + 1, running := b.running[b.next := s.q.now]))
            || (a.Finish? && a.k in b.running && b' == b.(running := b.running - {a.k}))
            || b' == b.(stopped := true)
            || b' == b.(stopped := true, running := map[])
  {
  }

  lemma BatchChanges(cfg: Config, s: State, a: Action, tx: Tx)
    requires Sane(cfg) && tx in s.batches && BatchOk(cfg, s.batches[tx], s.q.now)
    requires tx in Step(cfg, s, a).batches && Step(cfg, s, a).batches[tx] != s.batches[tx]
    ensures BatchOk(cfg, Step(cfg, s, a).batches[tx], s.q.now)
  {
    var b, b', now := s.batches[tx], Step(cfg, s, a).batches[tx], s.q.now;
    BatchMoves(cfg, s, a, tx);
    if b' == b.(stopped := true) || b' == b.(stopped := true, running := map[]) {
      StopKeepsBatchOk(cfg, b, b', now);
    } else if SlotFree(cfg, b) && b' == b.(next := b.next + 1, running := b.running[b.next := now]) {
      StartKeepsBatchOk(cfg, b, now);
    } else {
      FinishKeepsBatchOk(cfg, b, now, a.k);
    }
  }

  lemma StopKeepsBatchOk(cfg: Config, b: Batch, b': Batch, now: Time)
    requires Sane(cfg) && BatchOk(cfg, b, now)
    requires b' == b.(stopped := true) || b' == b.(stopped := true, running := map[])
    ensures BatchOk(cfg, b', now)
  {
  }

  lemma StepKeepsTimely(cfg: Config, s: State, a: Action)
    requires Sane(cfg) && TimelyInv(cfg, s)
    ensures TimelyInv(cfg, Step(cfg, s, a))
  {
    var t := Step(cfg, s, a);
    var qa := StepIsQueueStep(cfg, s, a);
    Q.StepKeepsInv(s.q, qa);
    forall tx | tx in t.q.txs
      ensures TxOk(cfg, t.q.txs[tx], t.q.now)
    {
      TxsStayOk(cfg, s, a, tx);
    }
    forall tx | tx in t.batches
      ensures BatchOk(cfg, t.batches[tx], t.q.now)
    {
      BatchesStayOk(cfg, s, a, tx);
    }
  }

  lemma {:induction false} RunIsTimely(cfg: Config, kind: Q.Kind, acts: seq<Action>)
    requires Sane(cfg)
    ensures TimelyInv(cfg, Exec(cfg, Init(kind), acts))
    decreases |acts|
  {
    if acts != [] {
      RunIsTimely(cfg, kind, acts[..|acts| - 1]);
      StepKeepsTimely(cfg, Exec(cfg, Init(kind), acts[..|acts| - 1]), acts[|acts| - 1]);
    }
  }

  lemma ActiveIsYoung(cfg: Config, b: Batch, now: Time, k: nat)
    requires Sane(cfg) && BatchOk(cfg, b, now) && Active(b, k)
    ensures now <= b.claimedAt + cfg.latency + Span(Rounds(cfg.batch, cfg.concurrency), cfg.hold)
  {
    RoundInBatch(if k in b.running then k else b.next, cfg.batch, cfg.concurrency, cfg.hold);
  }

  lemma BatchInRounds(cfg: Config, b: Batch, now: Time, k: nat)
    requires Sane(cfg) && BatchOk(cfg, b, now) && Active(b, k)
    ensures k in b.running ==> b.running[k] <= b.readyAt + k / cfg.concurrency * cfg.hold
    ensures |b.running| <= cfg.concurrency
    ensures now <= b.claimedAt + cfg.latency + (cfg.batch + cfg.concurrency - 1) / cfg.concurrency * cfg.hold
  {
    ActiveIsYoung(cfg, b, now, k);
    RoundIsQuotient(k, cfg.concurrency);
    SpanIsProduct(Round(k, cfg.concurrency), cfg.hold);
    RoundIsQuotient(cfg.batch + cfg.concurrency - 1, cfg.concurrency);
    SpanIsProduct(Rounds(cfg.batch, cfg.concurrency), cfg.hold);
  }

  /**
   Semaphore bound: in every run, job k of a batch gets its slot within k / concurrency
   rounds of the dispatch, and no job of a batch is left once all rounds have gone by
   since its claim.
   */
  lemma SlotsComeInRounds(cfg: Config, kind: Q.Kind, acts: seq<Action>, tx: Tx, k: nat)
    requires Sane(cfg) && tx in Exec(cfg, Init(kind), acts).batches
             && Active(Exec(cfg, Init(kind), acts).batches[tx], k)
    ensures var s := Exec(cfg, Init(kind), acts);
            var b := s.batches[tx];
            && (k in b.running ==> b.running[k] <= b.readyAt + k / cfg.concurrency * cfg.hold)
            && |b.running| <= cfg.concurrency
            && s.q.now <= b.claimedAt + cfg.latency + (cfg.batch + cfg.concurrency - 1) / cfg.concurrency * cfg.hold
  {
    RunIsTimely(cfg, kind, acts);
    var s := Exec(cfg, Init(kind), acts);
    BatchInRounds(cfg, s.batches[tx], s.q.now, k);
  }

  // ---------------------------------------------------------------- one execution at a time

  /** All rounds of a batch are over before its claims count as stale. */
  predicate Safe(cfg: Config)
    requires Sane(cfg)
  {
    cfg.latency + Span(Rounds(cfg.batch, cfg.concurrency), cfg.hold) <= cfg.staleAfter
  }

  predicate Working(s: State, tx: Tx, k: nat) {
    tx in s.batches && Active(s.batches[tx], k)
  }

  function RowOf(s: State, tx: Tx, k: nat): Id
    requires Working(s, tx, k)
  {
    s.batches[tx].ids[k]
  }

  /** No row is in the hands of two executions. */
  ghost predicate Exclusive(s: State) {
    forall tx, k: nat, tx', k': nat ::
      Working(s, tx, k) && Working(s, tx', k') && RowOf(s, tx, k) == RowOf(s, tx', k') ==> tx == tx' && k == k'
  }

  /** An active job's row is still under the claim it was dispatched for. */
  ghost predicate Held(s: State, tx: Tx, k: nat)
    requires Working(s, tx, k)
  {
    var id := RowOf(s, tx, k);
    id in s.q.rows && s.q.rows[id].status.RUNNING? && s.q.rows[id].claimedAt == Some(s.batches[tx].claimedAt)
  }

  ghost predicate AllHeld(s: State) {
    forall tx, k: nat :: Working(s, tx, k) ==> Held(s, tx, k)
  }

  lemma SweepSparesActive(cfg: Config, s: State, tx: Tx, k: nat)
    requires Sane(cfg) && Safe(cfg) && TimelyInv(cfg, s) && Working(s, tx, k) && Held(s, tx, k)
    ensures !Q.Stale(s.q.rows[RowOf(s, tx, k)], s.q.now, cfg.staleAfter)
  {
    ActiveIsYoung(cfg, s.batches[tx], s.q.now, k);
  }

  lemma ActiveStays(cfg: Config, s: State, a: Action, tx: Tx, k: nat)
    requires Sane(cfg) && TimelyInv(cfg, s) && Working(s, tx, k) && Working(Step(cfg, s, a), tx, k)
    ensures RowOf(Step(cfg, s, a), tx, k) == RowOf(s, tx, k)
    ensures Step(cfg, s, a).batches[tx].claimedAt == s.batches[tx].claimedAt
    ensures !(a.Finish? && a.tx == tx && a.k == k && k in s.batches[tx].running)
  {
    assert BatchOk(cfg, s.batches[tx], s.q.now);
  }

  /** The statements instances issue outside the executions leave a running row alone, unless it is stale. */
  lemma QueueSparesRunning(cfg: Config, s: State, qa: Q.Action, id: Id)
    requires OnQueue(cfg, s, qa) && id in s.q.rows && s.q.rows[id].status.RUNNING?
    requires !Q.Stale(s.q.rows[id], s.q.now, cfg.staleAfter)
    ensures id in Q.Step(s.q, qa).rows && Q.Step(s.q, qa).rows[id] == s.q.rows[id]
  {
  }

  lemma FinishSparesOthers(q: Q.State, other: Id, outcome: Outcome, id: Id)
    requires other != id && id in q.rows
    ensures var t := Q.Step(q, OutcomeAction(other, outcome));
            id in t.rows && t.rows[id] == q.rows[id]
  {
  }

  lemma CommitSparesRunning(q: Q.State, tx: Tx, id: Id)
    requires Q.Inv(q) && id in q.rows && q.rows[id].status.RUNNING?
    ensures id in Q.Step(q, Q.Commit(tx)).rows && Q.Step(q, Q.Commit(tx)).rows[id] == q.rows[id]
  {
  }

  /** A job that stays active keeps its row: no sweep may take it, and no other execution touches it. */
  lemma HeldStep(cfg: Config, s: State, a: Action, tx: Tx, k: nat)
    requires Sane(cfg) && Safe(cfg) && TimelyInv(cfg, s) && AllHeld(s) && Exclusive(s)
    requires Working(s, tx, k) && Working(Step(cfg, s, a), tx, k)
    ensures RowOf(Step(cfg, s, a), tx, k) == RowOf(s, tx, k) && Held(Step(cfg, s, a), tx, k)
  {
    assert Held(s, tx, k);
    ActiveStays(cfg, s, a, tx, k);
    var id := RowOf(s, tx, k);
    match a
    case Queue(qa) =>
      SweepSparesActive(cfg, s, tx, k);
      if OnQueue(cfg, s, qa) {
        QueueSparesRunning(cfg, s, qa, id);
      }
    case Dispatch(u, _) => CommitSparesRunning(s.q, u, id);
    case Finish(u, j, outcome) =>
      if Working(s, u, j) && j in s.batches[u].running {
        FinishSparesOthers(s.q, RowOf(s, u, j), outcome, id);
      }
    case _ =>
  }

  lemma NeverActiveAgain(cfg: Config, s: State, a: Action, tx: Tx, k: nat)
    requires Sane(cfg) && TimelyInv(cfg, s) && tx in s.batches && !Working(s, tx, k)
    ensures !Working(Step(cfg, s, a), tx, k)
  {
    assert BatchOk(cfg, s.batches[tx], s.q.now);
  }

  /** Only a dispatch makes jobs active, on rows no one held. */
  lemma BecomesActive(cfg: Config, s: State, a: Action, tx: Tx, k: nat)
    requires Sane(cfg) && TimelyInv(cfg, s) && !Working(s, tx, k) && Working(Step(cfg, s, a), tx, k)
    ensures Held(Step(cfg, s, a), tx, k) && a.Dispatch? && a.tx == tx
    ensures var id := RowOf(Step(cfg, s, a), tx, k);
            id in s.q.rows && s.q.rows[id].status.PENDING?
  {
    if tx in s.batches {
      NeverActiveAgain(cfg, s, a, tx, k);
    } else if a.Dispatch? && a.tx == tx {
      assert RowOf(Step(cfg, s, a), tx, k) in s.q.txs[tx].ids;
    }
  }

  lemma StepKeepsHeld(cfg: Config, s: State, a: Action)
    requires Sane(cfg) && Safe(cfg) && TimelyInv(cfg, s) && AllHeld(s) && Exclusive(s)
    ensures AllHeld(Step(cfg, s, a)) && Exclusive(Step(cfg, s, a))
  {
    var t := Step(cfg, s, a);
    forall tx, k: nat | Working(t, tx, k)
      ensures Held(t, tx, k)
      ensures if Working(s, tx, k) then Held(s, tx, k) && RowOf(s, tx, k) == RowOf(t, tx, k)
              else a.Dispatch? && a.tx == tx && RowOf(t, tx, k) in s.q.rows && s.q.rows[RowOf(t, tx, k)].status.PENDING?
    {
      if Working(s, tx, k) {
        HeldStep(cfg, s, a, tx, k);
      } else {
        BecomesActive(cfg, s, a, tx, k);
      }
    }
    forall tx, k: nat, tx', k': nat | Working(t, tx, k) && Working(t, tx', k') && RowOf(t, tx, k) == RowOf(t, tx', k')
      ensures tx == tx' && k == k'
    {
      TimelyDistinct(cfg, s, a, tx, k, k');
    }
  }

  lemma TimelyDistinct(cfg: Config, s: State, a: Action, tx: Tx, k: nat, k': nat)
    requires Sane(cfg) && TimelyInv(cfg, s) && tx in Step(cfg, s, a).batches
    requires k < |Step(cfg, s, a).batches[tx].ids| && k' < |Step(cfg, s, a).batches[tx].ids|
    requires Step(cfg, s, a).batches[tx].ids[k] == Step(cfg, s, a).batches[tx].ids[k']
    ensures k == k'
  {
    StepKeepsTimely(cfg, s, a);
    assert BatchOk(cfg, Step(cfg, s, a).batches[tx], Step(cfg, s, a).q.now);
  }

  lemma {:induction false} RunIsExclusive(cfg: Config, kind: Q.Kind, acts: seq<Action>)
    requires Sane(cfg) && Safe(cfg)
    ensures AllHeld(Exec(cfg, Init(kind), acts)) && Exclusive(Exec(cfg, Init(kind), acts))
    decreases |acts|
  {
    if acts != [] {
      RunIsExclusive(cfg, kind, acts[..|acts| - 1]);
      RunIsTimely(cfg, kind, acts[..|acts| - 1]);
      StepKeepsHeld(cfg, Exec(cfg, Init(kind), acts[..|acts| - 1]), acts[|acts| - 1]);
    }
  }

  // ---------------------------------------------------------------- the bound is exact

  ghost predicate Reached(cfg: Config, kind: Q.Kind, s: State) {
    exists acts :: Exec(cfg, Init(kind), acts) == s
  }

  lemma ReachStep(cfg: Config, kind: Q.Kind, s: State, a: Action)
    requires Reached(cfg, kind, s)
    ensures Reached(cfg, kind, Step(cfg, s, a))
  {
    var acts :| Exec(cfg, Init(kind), acts) == s;
    assert (acts + [a])[..|acts + [a]| - 1] == acts;
    assert Exec(cfg, Init(kind), acts + [a]) == Step(cfg, s, a);
  }

  /**
   One full batch, claimed at time 0 and dispatched as late as may be: `f` jobs succeeded, jobs up
   to `n` have slots.
   */
  ghost function SlowBatch(cfg: Config, f: nat, n: nat): Batch
    requires Sane(cfg)
  {
    Batch(0, cfg.latency, InOrder(0, cfg.batch), n, map k: nat | f <= k < n :: SlotTime(cfg, k), false)
  }

  /** When every job takes as long as it may, job k gets its slot at this time. */
  function SlotTime(cfg: Config, k: nat): Time
    requires Sane(cfg)
  {
    cfg.latency + Span(Round(k, cfg.concurrency), cfg.hold)
  }

  function FirstClaim(): Q.Job {
    Q.Job(Q.RUNNING, 0, Some("first"), Some(0), None, None)
  }

  ghost function SlowRows(cfg: Config, f: nat, rest: Q.Job): Q.Rows
    requires Sane(cfg)
  {
    map id: nat | id < cfg.batch ::
      if id < f then Q.Job(Q.SUCCEEDED, 0, None, None, Some(SlotTime(cfg, id) + cfg.hold), None) else rest
  }

  ghost function Slow(cfg: Config, kind: Q.Kind, f: nat, n: nat, now: Time): State
    requires Sane(cfg)
  {
    State(Q.State(kind, SlowRows(cfg, f, FirstClaim()), map[], now), map[0 := SlowBatch(cfg, f, n)])
  }

  ghost function Fresh(kind: Q.Kind, n: nat, txs: map<Tx, Q.ClaimTx>, now: Time): State {
    State(Q.State(kind, map id | id in Interval(0, n) :: Q.NewJob(0), txs, now), map[])
  }

  lemma {:induction false} SlowCreate(cfg: Config, kind: Q.Kind, n: nat)
    requires Sane(cfg)
    ensures Reached(cfg, kind, Fresh(kind, n, map[], 0))
  {
    if n == 0 {
      assert Exec(cfg, Init(kind), []) == Fresh(kind, 0, map[], 0);
    } else {
      SlowCreate(cfg, kind, n - 1);
      var before, a := Fresh(kind, n - 1, map[], 0), Queue(Q.Create(n - 1, 0));
      ReachStep(cfg, kind, before, a);
      assert Step(cfg, before, a).q.rows == Fresh(kind, n, map[], 0).q.rows;
    }
  }

  lemma SlowSelect(cfg: Config, kind: Q.Kind)
    requires Sane(cfg)
    ensures var claim := Q.ClaimTx("first", 0, Interval(0, cfg.batch));
            Reached(cfg, kind, Fresh(kind, cfg.batch, map[0 := claim], cfg.latency))
  {
    var n, all := cfg.batch, Interval(0, cfg.batch);
    var claim := Q.ClaimTx("first", 0, all);
    SlowCreate(cfg, kind, n);
    var s0, select := Fresh(kind, n, map[], 0), Queue(Q.Select(0, "first", n, all));
    ReachStep(cfg, kind, s0, select);
    assert Q.ValidPick(kind, s0.q.rows, {}, 0, n, all);
    assert Q.Locked(s0.q.txs) == {};
    var s1 := Fresh(kind, n, map[0 := claim], 0);
    assert Step(cfg, s0, select) == s1;
    ReachStep(cfg, kind, s1, Tick(cfg.latency));
    assert MayTick(cfg, s1, cfg.latency);
  }

  /** Rows lo, ..., hi - 1 in order. */
  function InOrder(lo: nat, hi: nat): (order: seq<Id>)
    requires lo <= hi
  {
    seq(hi - lo, (i: nat) => lo + i)
  }

  lemma InOrderIsOrder(lo: nat, hi: nat)
    requires lo <= hi
    ensures IsOrder(InOrder(lo, hi), Interval(lo, hi))
  {
    var order := InOrder(lo, hi);
    forall id: nat
      ensures id in order <==> id in Interval(lo, hi)
    {
      if id in Interval(lo, hi) {
        assert order[id - lo] == id;
      }
    }
  }

  lemma SlowDispatch(cfg: Config, kind: Q.Kind)
    requires Sane(cfg)
    ensures Reached(cfg, kind, Slow(cfg, kind, 0, 0, cfg.latency))
  {
    SlowSelect(cfg, kind);
    var n, all := cfg.batch, Interval(0, cfg.batch);
    var claim := Q.ClaimTx("first", 0, all);
    var s, a, t := Fresh(kind, n, map[0 := claim], cfg.latency), Dispatch(0, InOrder(0, n)),
      Slow(cfg, kind, 0, 0, cfg.latency);
    ReachStep(cfg, kind, s, a);
    InOrderIsOrder(0, n);
    assert Q.Claim(s.q.rows, all, "first", 0) == t.q.rows;
    assert s.q.txs - {0} == map[];
    assert t.batches[0].running == map[];
    assert Step(cfg, s, a) == t;
  }

  lemma {:induction false} SlowStarts(cfg: Config, kind: Q.Kind, f: nat, n: nat)
    requires Sane(cfg) && f <= n <= cfg.batch && n - f <= cfg.concurrency
    requires forall k: nat :: f <= k < n ==> SlotTime(cfg, k) == SlotTime(cfg, f)
    requires Reached(cfg, kind, Slow(cfg, kind, f, f, SlotTime(cfg, f)))
    ensures Reached(cfg, kind, Slow(cfg, kind, f, n, SlotTime(cfg, f)))
    decreases n
  {
    if f < n {
      SlowStarts(cfg, kind, f, n - 1);
      assert SlotTime(cfg, n - 1) == SlotTime(cfg, f);
      SlowStart(cfg, kind, f, n - 1, SlotTime(cfg, f));
    }
  }

  lemma SlowStart(cfg: Config, kind: Q.Kind, f: nat, n: nat, now: Time)
    requires Sane(cfg) && f <= n < cfg.batch && n - f < cfg.concurrency && now == SlotTime(cfg, n)
    requires Reached(cfg, kind, Slow(cfg, kind, f, n, now))
    ensures Reached(cfg, kind, Slow(cfg, kind, f, n + 1, now))
  {
    var s, t := Slow(cfg, kind, f, n, now), Slow(cfg, kind, f, n + 1, now);
    var b, b' := SlowBatch(cfg, f, n), SlowBatch(cfg, f, n + 1);
    ReachStep(cfg, kind, s, Start(0));
    RunningSize(cfg, f, n);
    assert SlotFree(cfg, b);
    assert b.running[n := now] == b'.running;
    assert s.batches[0 := b'] == t.batches;
    assert Step(cfg, s, Start(0)) == t;
  }

  lemma RunningSize(cfg: Config, f: nat, n: nat)
    requires Sane(cfg) && f <= n
    ensures |SlowBatch(cfg, f, n).running| == n - f
  {
    assert SlowBatch(cfg, f, n).running.Keys == Interval(f, n);
  }

  lemma SlowTick(cfg: Config, kind: Q.Kind, f: nat, n: nat)
    requires Sane(cfg) && f < n <= cfg.batch && (n - f == cfg.concurrency || n == cfg.batch)
    requires forall k: nat :: f <= k < n ==> SlotTime(cfg, k) == SlotTime(cfg, f)
    requires Reached(cfg, kind, Slow(cfg, kind, f, n, SlotTime(cfg, f)))
    ensures Reached(cfg, kind, Slow(cfg, kind, f, n, SlotTime(cfg, f) + cfg.hold))
  {
    var s := Slow(cfg, kind, f, n, SlotTime(cfg, f));
    ReachStep(cfg, kind, s, Tick(cfg.hold));
    RunningSize(cfg, f, n);
    assert MayTick(cfg, s, s.q.now + cfg.hold);
  }

  lemma {:induction false} SlowFinishes(cfg: Config, kind: Q.Kind, f: nat, g: nat, n: nat)
    requires Sane(cfg) && f <= g <= n <= cfg.batch
    requires forall k: nat :: f <= k < n ==> SlotTime(cfg, k) == SlotTime(cfg, f)
    requires Reached(cfg, kind, Slow(cfg, kind, f, n, SlotTime(cfg, f) + cfg.hold))
    ensures Reached(cfg, kind, Slow(cfg, kind, g, n, SlotTime(cfg, f) + cfg.hold))
    decreases g
  {
    if f < g {
      SlowFinishes(cfg, kind, f, g - 1, n);
      assert SlotTime(cfg, g - 1) == SlotTime(cfg, f);
      SlowFinish(cfg, kind, g - 1, n);
    }
  }

  lemma SlowFinish(cfg: Config, kind: Q.Kind, f: nat, n: nat)
    requires Sane(cfg) && f < n <= cfg.batch
    requires Reached(cfg, kind, Slow(cfg, kind, f, n, SlotTime(cfg, f) + cfg.hold))
    ensures Reached(cfg, kind, Slow(cfg, kind, f + 1, n, SlotTime(cfg, f) + cfg.hold))
  {
    var now := SlotTime(cfg, f) + cfg.hold;
    var s, t, a := Slow(cfg, kind, f, n, now), Slow(cfg, kind, f + 1, n, now), Finish(0, f, Succeeded);
    ReachStep(cfg, kind, s, a);
    assert s.batches[0].ids[f] == f;
    assert Q.MarkSucceeded(s.q.rows, f, now) == t.q.rows;
    assert s.batches[0].running - {f} == t.batches[0].running;
    assert s.batches[0 := t.batches[0]] == t.batches;
  }

  /** Jobs f, f+1, ... up to the next multiple of the concurrency share a round. */
  ghost predicate Aligned(cfg: Config, f: nat)
    requires Sane(cfg)
  {
    forall k: nat :: f <= k < f + cfg.concurrency ==> Round(k, cfg.concurrency) == Round(f, cfg.concurrency)
  }

  lemma AlignedNext(cfg: Config, f: nat)
    requires Sane(cfg) && Aligned(cfg, f)
    ensures Aligned(cfg, f + cfg.concurrency)
    ensures SlotTime(cfg, f + cfg.concurrency) == SlotTime(cfg, f) + cfg.hold
  {
    var c := cfg.concurrency;
    NextRound(f, c);
    forall k: nat | f + c <= k < f + c + c
      ensures Round(k, c) == Round(f + c, c)
    {
      NextRound(k - c, c);
    }
  }

  /** Round after round, every job taking its full time, up to the start of the last round. */
  lemma {:induction false} SlowRounds(cfg: Config, kind: Q.Kind, f: nat) returns (last: nat)
    requires Sane(cfg) && Aligned(cfg, f) && f < cfg.batch
    requires Reached(cfg, kind, Slow(cfg, kind, f, f, SlotTime(cfg, f)))
    ensures Aligned(cfg, last) && last < cfg.batch <= last + cfg.concurrency
    ensures Reached(cfg, kind, Slow(cfg, kind, last, last, SlotTime(cfg, last)))
    decreases cfg.batch - f
  {
    var c := cfg.concurrency;
    if cfg.batch <= f + c {
      last := f;
    } else {
      SlowStarts(cfg, kind, f, f + c);
      SlowTick(cfg, kind, f, f + c);
      SlowFinishes(cfg, kind, f, f + c, f + c);
      AlignedNext(cfg, f);
      last := SlowRounds(cfg, kind, f + c);
    }
  }

  /**
   When the rounds outlast the stale limit, a sweep and a second claim hand out a row whose first
   execution still runs.
   */
  lemma UnsafeIsReached(cfg: Config, kind: Q.Kind) returns (s: State)
    requires Sane(cfg) && !Safe(cfg)
    ensures Reached(cfg, kind, s) && !Exclusive(s)
  {
    var c := cfg.concurrency;
    SlowDispatch(cfg, kind);
    var f := SlowRounds(cfg, kind, 0);
    var n, now := cfg.batch, SlotTime(cfg, f) + cfg.hold;
    SlowStarts(cfg, kind, f, n);
    SlowTick(cfg, kind, f, n);
    NextRound(n - 1, c);
    s := SecondClaim(cfg, kind, f, now);
  }

  ghost function Swept(cfg: Config, kind: Q.Kind, f: nat, txs: map<Tx, Q.ClaimTx>, now: Time): State
    requires Sane(cfg)
  {
    State(Q.State(kind, SlowRows(cfg, f, Q.NewJob(0)), txs, now), map[0 := SlowBatch(cfg, f, cfg.batch)])
  }

  lemma SecondSelect(cfg: Config, kind: Q.Kind, f: nat, now: Time)
    requires Sane(cfg) && f < cfg.batch && cfg.staleAfter < now
    requires Reached(cfg, kind, Slow(cfg, kind, f, cfg.batch, now))
    ensures Reached(cfg, kind, Swept(cfg, kind, f, map[1 := Q.ClaimTx("second", now, Interval(f, cfg.batch))], now))
  {
    var n, rest := cfg.batch, Interval(f, cfg.batch);
    var s0, sweep, s1 := Slow(cfg, kind, f, n, now), Queue(Q.Sweep(cfg.staleAfter)), Swept(cfg, kind, f, map[], now);
    ReachStep(cfg, kind, s0, sweep);
    assert Q.ReleaseStale(s0.q.rows, now, cfg.staleAfter) == s1.q.rows;
    var select := Queue(Q.Select(1, "second", n, rest));
    ReachStep(cfg, kind, s1, select);
    assert Q.ValidPick(kind, s1.q.rows, {}, now, n, rest);
    assert Q.Locked(s1.q.txs) == {};
  }

  lemma SecondClaim(cfg: Config, kind: Q.Kind, f: nat, now: Time) returns (s: State)
    requires Sane(cfg) && f < cfg.batch && cfg.staleAfter < now
    requires Reached(cfg, kind, Slow(cfg, kind, f, cfg.batch, now))
    ensures Reached(cfg, kind, s) && !Exclusive(s)
  {
    SecondSelect(cfg, kind, f, now);
    var n, rest := cfg.batch, Interval(f, cfg.batch);
    var s2, a := Swept(cfg, kind, f, map[1 := Q.ClaimTx("second", now, rest)], now), Dispatch(1, InOrder(f, n));
    ReachStep(cfg, kind, s2, a);
    InOrderIsOrder(f, n);
    s := Step(cfg, s2, a);
    assert Working(s, 0, f) && Working(s, 1, 0);
    assert RowOf(s, 0, f) == f == RowOf(s, 1, 0);
  }

  /**
   Exactly when all rounds of a batch fit into the stale limit, no row is ever claimed
   again while an earlier claim's execution of it is pending or still runs.
   */
  lemma ExclusiveIffRoundsFit(cfg: Config, kind: Q.Kind)
    requires Sane(cfg)
    ensures (forall acts :: Exclusive(Exec(cfg, Init(kind), acts)))
       <==> cfg.latency + (cfg.batch + cfg.concurrency - 1) / cfg.concurrency * cfg.hold <= cfg.staleAfter
  {
    RoundIsQuotient(cfg.batch + cfg.concurrency - 1, cfg.concurrency);
    SpanIsProduct(Rounds(cfg.batch, cfg.concurrency), cfg.hold);
    assert Safe(cfg)
      <==> cfg.latency + (cfg.batch + cfg.concurrency - 1) / cfg.concurrency * cfg.hold <= cfg.staleAfter;
    if Safe(cfg) {
      forall acts
        ensures Exclusive(Exec(cfg, Init(kind), acts))
      {
        RunIsExclusive(cfg, kind, acts);
      }
    } else {
      var s := UnsafeIsReached(cfg, kind);
      var acts :| Exec(cfg, Init(kind), acts) == s;
      assert !Exclusive(Exec(cfg, Init(kind), acts));
    }
  }

  const ASYNC_BATCH: nat := 8
  const ASYNC_CONCURRENCY: nat := 4
  const ASYNC_ACTION_TIMEOUT: nat := 1200
  const ASYNC_STALE_AFTER: nat := 1800
  const SCHEDULED_BATCH: nat := 16
  const SCHEDULED_CONCURRENCY: nat := 4
  const SCHEDULED_ACTION_TIMEOUT: nat := 120
  const SCHEDULED_STALE_AFTER: nat := 600
  const PERSIST_TIMEOUT: nat := 10

  /**
   `untimed` bounds what a job does in its slot without a timeout of its own: the lookup
   of its user and, for a scheduled operation, the evaluation of its trigger.  With the
   defaults of scheduled operations, 80 seconds must cover the claim's latency and this
   time of four rounds; with those of async jobs, a second execution is possible even
   when both take no time.  In seconds.
   */
  lemma DefaultsExclusive(kind: Q.Kind, latency: Time, untimed: Time)
    ensures var scheduled := Config(SCHEDULED_BATCH, SCHEDULED_CONCURRENCY,
                                    SCHEDULED_ACTION_TIMEOUT + PERSIST_TIMEOUT + untimed, latency,
                                      SCHEDULED_STALE_AFTER);
            (forall acts :: Exclusive(Exec(scheduled, Init(kind), acts))) <==> latency + 4 * untimed <= 80
    ensures var jobs := Config(ASYNC_BATCH, ASYNC_CONCURRENCY, ASYNC_ACTION_TIMEOUT + PERSIST_TIMEOUT + untimed,
                               latency, ASYNC_STALE_AFTER);
            exists acts :: !Exclusive(Exec(jobs, Init(kind), acts))
  {
    var scheduled := Config(SCHEDULED_BATCH, SCHEDULED_CONCURRENCY,
                            SCHEDULED_ACTION_TIMEOUT + PERSIST_TIMEOUT + untimed, latency, SCHEDULED_STALE_AFTER);
    var jobs := Config(ASYNC_BATCH, ASYNC_CONCURRENCY, ASYNC_ACTION_TIMEOUT + PERSIST_TIMEOUT + untimed, latency,
                       ASYNC_STALE_AFTER);
    ExclusiveIffRoundsFit(scheduled, kind);
    assert (scheduled.batch + scheduled.concurrency - 1) / scheduled.concurrency == 4;
    ExclusiveIffRoundsFit(jobs, kind);
    assert (jobs.batch + jobs.concurrency - 1) / jobs.concurrency == 2;
  }
}
