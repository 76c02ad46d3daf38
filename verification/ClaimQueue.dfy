/**
 The claim queue behind async jobs and scheduled session operations
 (db/async_jobs.sql.go, db/scheduled_session_operations.sql.go).  Each statement is
 an atomic guarded update; a claim is a transaction that locks the rows it selects
 and skips rows other claims have locked.
 */
module ClaimQueue {
  import opened Wrappers

  type Id = nat
  type Instance = string
  type Tx = nat
  type Time = nat

  datatype Status = PENDING | RUNNING | SUCCEEDED | FAILED | CANCELED

  /** `due` is the claim order: created_at of an async job, next_fire_at of a scheduled operation. */
  datatype Job = Job(
    status: Status,
    due: Time,
    claimedBy: Option<Instance>,
    claimedAt: Option<Time>,
    executedAt: Option<Time>,
    lastError: Option<string>)

  type Rows = map<Id, Job>

  /** Only scheduled operations are held back until they are due, and only they can be cancelled or requeued. */
  datatype Kind = AsyncJobs | ScheduledOperations

  predicate Terminal(s: Status) {
    s.SUCCEEDED? || s.FAILED? || s.CANCELED?
  }

  function NewJob(due: Time): Job {
    Job(PENDING, due, None, None, None, None)
  }

  // ---------------------------------------------------------------- the statements

  predicate Claimable(kind: Kind, rows: Rows, now: Time, id: Id) {
    id in rows && rows[id].status.PENDING? && (kind.ScheduledOperations? ==> rows[id].due <= now)
  }

  function Claim(rows: Rows, ids: set<Id>, who: Instance, at: Time): Rows {
    map id | id in rows :: if id in ids then
        rows[id].(status := RUNNING, claimedBy := Some(who), claimedAt := Some(at)) else rows[id]
  }

  function MarkSucceeded(rows: Rows, id: Id, now: Time): Rows {
    if id in rows && rows[id].status.RUNNING? then
      rows[id := rows[id].(status := SUCCEEDED, executedAt := Some(now), lastError := None, claimedBy := None,
                           claimedAt := None)]
    else rows
  }

  function MarkFailed(rows: Rows, id: Id, now: Time, error: string): Rows {
    if id in rows && rows[id].status.RUNNING? then
      rows[id := rows[id].(status := FAILED, executedAt := Some(now), lastError := Some(error), claimedBy := None,
                           claimedAt := None)]
    else rows
  }

  function Requeue(rows: Rows, id: Id, next: Time): Rows {
    if id in rows && rows[id].status.RUNNING? then
      rows[id := rows[id].(status := PENDING, due := next, claimedBy := None, claimedAt := None)]
    else rows
  }

  function Cancel(rows: Rows, id: Id): Rows {
    if id in rows && rows[id].status.PENDING? then rows[id := rows[id].(status := CANCELED)] else rows
  }

  predicate Stale(job: Job, now: Time, staleAfter: Time) {
    job.status.RUNNING? && job.claimedAt.Some? && job.claimedAt.value + staleAfter < now
  }

  function ReleaseStale(rows: Rows, now: Time, staleAfter: Time): Rows {
    map id | id in rows ::
      if Stale(rows[id], now, staleAfter) then rows[id].(status := PENDING, claimedBy := None, claimedAt := None)
        else rows[id]
  }

  // ---------------------------------------------------------------- the table in place

  /**
   `picked` is what the claim's SELECT may return: oldest first, at most `batch`, nothing locked,
   and no room left unused.
   */
  ghost predicate ValidPick(kind: Kind, rows: Rows, locked: set<Id>, now: Time, batch: nat, picked: set<Id>) {
    && (forall id :: id in picked ==> Claimable(kind, rows, now, id) && id !in locked)
    && |picked| <= batch
    && (forall id :: Claimable(kind, rows, now, id) && id !in locked && id !in picked ==>
          |picked| == batch && forall p :: p in picked ==> rows[p].due <= rows[id].due)
  }

  class JobTable {
    const kind: Kind
    var rows: Rows

    constructor (kind: Kind)
      ensures this.kind == kind && rows == map[]
    {
      this.kind := kind;
      rows := map[];
    }

    /** The oldest row of a nonempty set. */
    method Oldest(ids: set<Id>) returns (oldest: Id)
      requires ids != {} && ids <= rows.Keys
      ensures oldest in ids && forall id :: id in ids ==> rows[oldest].due <= rows[id].due
    {
      oldest :| oldest in ids;
      var todo := ids - {oldest};
      while todo != {}
        invariant todo <= ids && oldest in ids
        invariant forall id :: id in ids - todo ==> rows[oldest].due <= rows[id].due
        decreases todo
      {
        var id :| id in todo;
        if rows[id].due < rows[oldest].due {
          oldest := id;
        }
        todo := todo - {id};
      }
    }

    /** SELECT ... ORDER BY ... LIMIT batch FOR UPDATE SKIP LOCKED. */
    method SelectDue(locked: set<Id>, now: Time, batch: nat) returns (picked: set<Id>)
      ensures ValidPick(kind, rows, locked, now, batch, picked)
      // A scheduled operation waits until it is due; an async job waits for nothing.
      ensures forall id :: id in picked ==> id in rows && rows[id].status == PENDING && id !in locked
      ensures kind.ScheduledOperations? ==> forall id :: id in picked ==> rows[id].due <= now
      ensures |picked| < batch ==>
                forall id :: id in rows && rows[id].status == PENDING && id !in locked && id !in picked ==>
                  kind.ScheduledOperations? && rows[id].due > now
    {
      picked := {};
      var rest := set id | id in rows && Claimable(kind, rows, now, id) && id !in locked;
      ghost var all := rest;
      while |picked| < batch && rest != {}
        invariant picked + rest == all && picked !! rest && |picked| <= batch
        invariant forall p, id :: p in picked && id in rest ==> rows[p].due <= rows[id].due
        decreases rest
      {
        var id := Oldest(rest);
        picked := picked + {id};
        rest := rest - {id};
      }
      forall id | Claimable(kind, rows, now, id) && id !in locked && id !in picked
        ensures |picked| == batch && forall p :: p in picked ==> rows[p].due <= rows[id].due
      {
        assert id in rest;
      }
    }

    method ClaimDue(who: Instance, locked: set<Id>, now: Time, batch: nat) returns (picked: set<Id>)
      modifies this`rows
      ensures ValidPick(kind, old(rows), locked, now, batch, picked)
      ensures rows == Claim(old(rows), picked, who, now)
      ensures rows.Keys == old(rows).Keys && picked <= rows.Keys
      ensures forall id :: id in rows ==>
                rows[id] == if id !in picked then old(rows)[id]
                            else old(rows)[id].(status := RUNNING, claimedBy := Some(who), claimedAt := Some(now))
      ensures kind.ScheduledOperations? ==> forall id :: id in picked ==> rows[id].due <= now
    {
      picked := SelectDue(locked, now, batch);
      rows := Claim(rows, picked, who, now);
    }

    method MarkJobSucceeded(id: Id, now: Time) returns (affected: nat)
      modifies this`rows
      ensures rows == MarkSucceeded(old(rows), id, now)
      ensures affected == 1 ==> id in rows && rows[id].status == SUCCEEDED && rows[id].executedAt == Some(now)
                                && rows == old(rows)[id := rows[id]] && rows[id].due == old(rows)[id].due
      ensures affected == 0 ==> rows == old(rows)
      ensures affected == if id in old(rows) && old(rows)[id].status.RUNNING? then 1 else 0
    {
      affected := 0;
      if id in rows && rows[id].status == RUNNING {
        var job := rows[id];
        rows := rows[id := job.(status := SUCCEEDED, executedAt := Some(now), lastError := None, claimedBy := None,
                                claimedAt := None)];
        affected := 1;
      }
    }

    method MarkJobFailed(id: Id, now: Time, error: string) returns (affected: nat)
      modifies this`rows
      ensures rows == MarkFailed(old(rows), id, now, error)
      ensures affected == 1 ==> id in rows && rows[id].status == FAILED && rows[id].executedAt == Some(now)
                                && rows[id].lastError == Some(error)
                                && rows == old(rows)[id := rows[id]] && rows[id].due == old(rows)[id].due
      ensures affected == 0 ==> rows == old(rows)
      ensures affected == if id in old(rows) && old(rows)[id].status.RUNNING? then 1 else 0
    {
      affected := 0;
      if id in rows && rows[id].status == RUNNING {
        var job := rows[id];
        rows := rows[id := job.(status := FAILED, executedAt := Some(now), lastError := Some(error),
                                claimedBy := None, claimedAt := None)];
        affected := 1;
      }
    }

    method RequeueJob(id: Id, next: Time)
      modifies this`rows
      ensures rows == Requeue(old(rows), id, next)
      ensures if id in old(rows) && old(rows)[id].status == RUNNING then
                id in rows && rows[id].status == PENDING && rows[id].due == next && rows == old(rows)[id := rows[id]]
              else rows == old(rows)
    {
      if id in rows && rows[id].status == RUNNING {
        rows := rows[id := rows[id].(status := PENDING, due := next, claimedBy := None, claimedAt := None)];
      }
    }

    method CancelJob(id: Id) returns (affected: nat)
      modifies this`rows
      ensures rows == Cancel(old(rows), id)
      ensures affected == 1 ==> id in rows && rows[id].status == CANCELED && rows == old(rows)[id := rows[id]]
      ensures affected == 0 ==> rows == old(rows)
      ensures affected == if id in old(rows) && old(rows)[id].status.PENDING? then 1 else 0
    {
      affected := 0;
      if id in rows && rows[id].status == PENDING {
        rows := rows[id := rows[id].(status := CANCELED)];
        affected := 1;
      }
    }

    method ReleaseStaleClaims(now: Time, staleAfter: Time)
      modifies this`rows
      ensures rows == ReleaseStale(old(rows), now, staleAfter)
      ensures rows.Keys == old(rows).Keys
      ensures forall id :: id in rows ==>
                var job := old(rows)[id];
                if job.status == RUNNING && job.claimedAt.Some? && now - job.claimedAt.value > staleAfter then
                  rows[id] == job.(status := PENDING, claimedBy := None, claimedAt := None)
                else rows[id] == job
    {
      var todo := rows.Keys;
      while todo != {}
        invariant todo <= rows.Keys && rows.Keys == old(rows).Keys
        invariant forall id :: id in rows ==>
                    rows[id] == if id in todo then old(rows)[id] else ReleaseStale(old(rows), now, staleAfter)[id]
        decreases todo
      {
        var id :| id in todo;
        if Stale(rows[id], now, staleAfter) {
          rows := rows[id := rows[id].(status := PENDING, claimedBy := None, claimedAt := None)];
        }
        todo := todo - {id};
      }
    }
  }

  // ---------------------------------------------------------------- any number of instances

  /** A claim transaction between its SELECT and its commit; claimed_at is the transaction's start. */
  datatype ClaimTx = ClaimTx(who: Instance, start: Time, ids: set<Id>)

  datatype State = State(kind: Kind, rows: Rows, txs: map<Tx, ClaimTx>, now: Time)

  datatype Action =
    | Create(id: Id, due: Time)
    | Select(tx: Tx, who: Instance, batch: nat, picked: set<Id>)
    | Commit(tx: Tx)
    | Abort(tx: Tx)
    | Succeed(id: Id)
    | Fail(id: Id, error: string)
    | PutBack(id: Id, next: Time)
    | CancelOp(id: Id)
    | Sweep(staleAfter: Time)
    | Tick(elapsed: Time)

  function Locked(txs: map<Tx, ClaimTx>): set<Id> {
    set tx, id | tx in txs && id in txs[tx].ids :: id
  }

  ghost function Step(s: State, a: Action): State {
    match a
    case Create(id, due) => if id in s.rows then s else s.(rows := s.rows[id := NewJob(due)])
    case Select(tx, who, batch, picked) =>
      if tx !in s.txs && ValidPick(s.kind, s.rows, Locked(s.txs), s.now, batch, picked) then
        s.(txs := s.txs[tx := ClaimTx(who, s.now, picked)])
      else s
    case Commit(tx) =>
      if tx in s.txs then s.(rows := Claim(s.rows, s.txs[tx].ids, s.txs[tx].who, s.txs[tx].start),
                             txs := s.txs - {tx}) else s
    case Abort(tx) => s.(txs := s.txs - {tx})
    // Any instance may mark any row at any time: an instance whose claim was released marks late.
    case Succeed(id) => s.(rows := MarkSucceeded(s.rows, id, s.now))
    case Fail(id, error) => s.(rows := MarkFailed(s.rows, id, s.now, error))
    case PutBack(id, next) => if s.kind.ScheduledOperations? then s.(rows := Requeue(s.rows, id, next)) else s
    // A statement on a row another transaction has locked waits for it.
    case CancelOp(id) => if s.kind.ScheduledOperations? && id !in Locked(s.txs) then s.(rows := Cancel(s.rows, id))
      else s
    case Sweep(staleAfter) => s.(rows := ReleaseStale(s.rows, s.now, staleAfter))
    case Tick(elapsed) => s.(now := s.now + elapsed)
  }

  ghost function Exec(s: State, acts: seq<Action>): State
    decreases |acts|
  {
    if acts == [] then s else Step(Exec(s, acts[..|acts| - 1]), acts[|acts| - 1])
  }

  function Init(kind: Kind): State {
    State(kind, map[], map[], 0)
  }

  /** Which columns are set in which status. */
  predicate JobOk(job: Job) {
    && (job.status.RUNNING? <==> job.claimedBy.Some?)
    && (job.status.RUNNING? <==> job.claimedAt.Some?)
    && (job.status.SUCCEEDED? || job.status.FAILED? <==> job.executedAt.Some?)
    && (job.status.FAILED? <==> job.lastError.Some?)
  }

  ghost predicate Inv(s: State) {
    && (forall id :: id in s.rows ==> JobOk(s.rows[id]))
    && (forall tx, id :: tx in s.txs && id in s.txs[tx].ids ==> id in s.rows && s.rows[id].status.PENDING?)
    && (forall tx, tx', id :: tx in s.txs && tx' in s.txs && id in s.txs[tx].ids && id in s.txs[tx'].ids ==> tx == tx')
  }

  lemma StepKeepsInv(s: State, a: Action)
    requires Inv(s)
    ensures Inv(Step(s, a))
  {
  }

  lemma {:induction false} TableInvariant(kind: Kind, acts: seq<Action>)
    ensures Inv(Exec(Init(kind), acts))
    decreases |acts|
  {
    if acts != [] {
      TableInvariant(kind, acts[..|acts| - 1]);
      StepKeepsInv(Exec(Init(kind), acts[..|acts| - 1]), acts[|acts| - 1]);
    }
  }

  /** Claims that are open at the same time hold disjoint sets of pending rows. */
  lemma ConcurrentClaimsDisjoint(kind: Kind, acts: seq<Action>, tx: Tx, tx': Tx)
    requires tx in Exec(Init(kind), acts).txs && tx' in Exec(Init(kind), acts).txs && tx != tx'
    ensures Exec(Init(kind), acts).txs[tx].ids !! Exec(Init(kind), acts).txs[tx'].ids
  {
    TableInvariant(kind, acts);
  }

  // ---------------------------------------------------------------- what can happen to a row

  lemma OneMore(kind: Kind, acts: seq<Action>, a: Action)
    ensures Exec(Init(kind), acts + [a]) == Step(Exec(Init(kind), acts), a)
  {
    assert (acts + [a])[..|acts + [a]| - 1] == acts;
  }

  lemma OnlyPick(rows: Rows, now: Time, id: Id)
    requires rows.Keys == {id} && rows[id].status == PENDING && rows[id].due <= now
    ensures ValidPick(ScheduledOperations, rows, {}, now, 1, {id})
  {
  }

  /** One claim of the only row, from selection to commit. */
  lemma ClaimOnly(acts: seq<Action>, tx: Tx, id: Id) returns (more: seq<Action>)
    requires var s := Exec(Init(ScheduledOperations), acts);
             s.kind == ScheduledOperations && s.txs == map[] && s.rows.Keys == {id} && s.rows[id].status == PENDING
             && s.rows[id].due <= s.now
    ensures var s, s' := Exec(Init(ScheduledOperations), acts), Exec(Init(ScheduledOperations), more);
            && s' == s.(rows := s'.rows) && s'.rows.Keys == {id}
            && s'.rows[id] == s.rows[id].(status := RUNNING, claimedBy := Some("i"), claimedAt := Some(s.now))
  {
    var s := Exec(Init(ScheduledOperations), acts);
    assert Locked(s.txs) == {};
    OnlyPick(s.rows, s.now, id);
    OneMore(ScheduledOperations, acts, Select(tx, "i", 1, {id}));
    OneMore(ScheduledOperations, acts + [Select(tx, "i", 1, {id})], Commit(tx));
    more := acts + [Select(tx, "i", 1, {id})] + [Commit(tx)];
    assert s.txs[tx := ClaimTx("i", s.now, {id})] - {tx} == map[];
  }

  /** One operation in the table, at some time, and no claim open. */
  ghost predicate Alone(acts: seq<Action>, job: Job, now: Time) {
    var s := Exec(Init(ScheduledOperations), acts);
    s.kind == ScheduledOperations && s.txs == map[] && s.now == now && s.rows == map[0 := job]
  }

  lemma AloneStep(acts: seq<Action>, job: Job, now: Time, a: Action, job': Job, now': Time)
    requires Alone(acts, job, now)
    requires var s := State(ScheduledOperations, map[0 := job], map[], now);
             Step(s, a) == State(ScheduledOperations, map[0 := job'], map[], now')
    ensures Alone(acts + [a], job', now')
  {
    OneMore(ScheduledOperations, acts, a);
  }

  lemma AloneClaimed(acts: seq<Action>, tx: Tx, job: Job, now: Time) returns (more: seq<Action>)
    requires Alone(acts, job, now) && job.status == PENDING && job.due <= now
    ensures Alone(more, job.(status := RUNNING, claimedBy := Some("i"), claimedAt := Some(now)), now)
  {
    more := ClaimOnly(acts, tx, 0);
    assert Exec(Init(ScheduledOperations), more).rows == map[0 := Exec(Init(ScheduledOperations), more).rows[0]];
  }

  /** An operation waits until it is due ... */
  lemma BecomesDue() returns (acts: seq<Action>)
    ensures Alone(acts, NewJob(5), 6)
  {
    OneMore(ScheduledOperations, [], Create(0, 5));
    assert Alone([] + [Create(0, 5)], NewJob(5), 0);
    AloneStep([] + [Create(0, 5)], NewJob(5), 0, Tick(6), NewJob(5), 6);
    acts := [] + [Create(0, 5)] + [Tick(6)];
  }

  /** ... may be cancelled ... */
  lemma CanBeCanceled() returns (acts: seq<Action>)
    ensures Alone(acts, NewJob(5).(status := CANCELED), 6)
  {
    acts := BecomesDue();
    assert Locked(map[]) == {};
    AloneStep(acts, NewJob(5), 6, CancelOp(0), NewJob(5).(status := CANCELED), 6);
    acts := acts + [CancelOp(0)];
  }

  /** ... or is claimed and put back to a later time ... */
  lemma CanBePutBack() returns (acts: seq<Action>)
    ensures Alone(acts, NewJob(7), 10)
  {
    acts := BecomesDue();
    acts := AloneClaimed(acts, 1, NewJob(5), 6);
    AloneStep(acts, NewJob(5).(status := RUNNING, claimedBy := Some("i"), claimedAt := Some(6)), 6, PutBack(0, 7),
              NewJob(7), 6);
    AloneStep(acts + [PutBack(0, 7)], NewJob(7), 6, Tick(4), NewJob(7), 10);
    acts := acts + [PutBack(0, 7)] + [Tick(4)];
  }

  /** ... claimed again and swept ... */
  lemma CanBeSwept() returns (acts: seq<Action>)
    ensures Alone(acts, NewJob(7), 20)
  {
    acts := CanBePutBack();
    acts := AloneClaimed(acts, 2, NewJob(7), 10);
    var running := NewJob(7).(status := RUNNING, claimedBy := Some("i"), claimedAt := Some(10));
    AloneStep(acts, running, 10, Tick(10), running, 20);
    AloneStep(acts + [Tick(10)], running, 20, Sweep(5), NewJob(7), 20);
    acts := acts + [Tick(10)] + [Sweep(5)];
  }

  /** ... and after all this claimed once more, to succeed: every transition of a row happens in some run. */
  lemma CanSucceedInTheEnd() returns (acts: seq<Action>)
    ensures Alone(acts, NewJob(7).(status := SUCCEEDED, executedAt := Some(20)), 20)
  {
    acts := CanBeSwept();
    acts := AloneClaimed(acts, 3, NewJob(7), 20);
    var running := NewJob(7).(status := RUNNING, claimedBy := Some("i"), claimedAt := Some(20));
    AloneStep(acts, running, 20, Succeed(0), NewJob(7).(status := SUCCEEDED, executedAt := Some(20)), 20);
    acts := acts + [Succeed(0)];
  }

  // ---------------------------------------------------------------- nothing runs before its time

  /** What is being claimed was due when the claim began, and what runs was due when it was claimed. */
  ghost predicate InTime(s: State) {
    && (forall tx :: tx in s.txs ==> s.txs[tx].start <= s.now)
    && (forall id :: id in s.rows && s.rows[id].status == RUNNING && s.rows[id].claimedAt.Some? ==>
          s.rows[id].claimedAt.value <= s.now)
    && (s.kind.ScheduledOperations? ==>
          && (forall tx, id :: tx in s.txs && id in s.txs[tx].ids && id in s.rows ==> s.rows[id].due <= s.txs[tx].start)
          && (forall id :: id in s.rows && s.rows[id].status == RUNNING && s.rows[id].claimedAt.Some? ==>
                s.rows[id].due <= s.rows[id].claimedAt.value))
  }

  lemma StepInTime(s: State, a: Action)
    requires Inv(s) && InTime(s)
    ensures InTime(Step(s, a))
  {
  }

  lemma {:induction false} RunInTime(kind: Kind, acts: seq<Action>)
    ensures InTime(Exec(Init(kind), acts)) && Exec(Init(kind), acts).kind == kind
    decreases |acts|
  {
    if acts != [] {
      RunInTime(kind, acts[..|acts| - 1]);
      TableInvariant(kind, acts[..|acts| - 1]);
      StepInTime(Exec(Init(kind), acts[..|acts| - 1]), acts[|acts| - 1]);
    }
  }

  /** In every run of any number of instances, no scheduled operation is claimed or runs before its time. */
  lemma NothingRunsEarly(acts: seq<Action>)
    ensures var s := Exec(Init(ScheduledOperations), acts);
            && (forall tx, id :: tx in s.txs && id in s.txs[tx].ids ==>
                  id in s.rows && s.rows[id].due <= s.txs[tx].start <= s.now)
            && (forall id :: id in s.rows && s.rows[id].status == RUNNING ==>
                  s.rows[id].claimedAt.Some? && s.rows[id].due <= s.rows[id].claimedAt.value <= s.now)
  {
    TableInvariant(ScheduledOperations, acts);
    RunInTime(ScheduledOperations, acts);
  }

  // ---------------------------------------------------------------- terminal states

  predicate Done(s: State, id: Id) {
    id in s.rows && Terminal(s.rows[id].status)
  }

  lemma TerminalStep(s: State, a: Action, id: Id)
    requires Inv(s) && Done(s, id)
    ensures Done(Step(s, a), id) && Step(s, a).rows[id] == s.rows[id]
  {
  }

  /** A finished or cancelled row never changes again, however late an instance marks it. */
  lemma {:induction false} TerminalRowsAreFrozen(kind: Kind, acts: seq<Action>, n: nat, id: Id)
    requires n <= |acts| && Done(Exec(Init(kind), acts[..n]), id)
    ensures Done(Exec(Init(kind), acts), id) && Exec(Init(kind), acts).rows[id] == Exec(Init(kind), acts[..n]).rows[id]
    decreases |acts|
  {
    if n == |acts| {
      assert acts[..n] == acts;
    } else {
      var before := acts[..|acts| - 1];
      assert before[..n] == acts[..n];
      TerminalRowsAreFrozen(kind, before, n, id);
      TableInvariant(kind, before);
      TerminalStep(Exec(Init(kind), before), acts[|acts| - 1], id);
    }
  }

  /** How often the run takes row `id` from an open to a terminal status. */
  ghost function Completions(kind: Kind, acts: seq<Action>, id: Id): nat
    decreases |acts|
  {
    if acts == [] then 0
    else
      var before := acts[..|acts| - 1];
      Completions(kind, before, id)
        + (if !Done(Exec(Init(kind), before), id) && Done(Exec(Init(kind), acts), id) then 1 else 0)
  }

  lemma {:induction false} CompletesAtMostOnce(kind: Kind, acts: seq<Action>, id: Id)
    ensures Completions(kind, acts, id) == if Done(Exec(Init(kind), acts), id) then 1 else 0
    decreases |acts|
  {
    if acts != [] {
      var before := acts[..|acts| - 1];
      CompletesAtMostOnce(kind, before, id);
      TableInvariant(kind, before);
      if Done(Exec(Init(kind), before), id) {
        TerminalStep(Exec(Init(kind), before), acts[|acts| - 1], id);
      }
    }
  }

  // ---------------------------------------------------------------- every claim is paid back once

  /** Row `id` has been claimed and not put back since. */
  predicate Spent(s: State, id: Id) {
    id in s.rows && (s.rows[id].status.RUNNING? || s.rows[id].status.SUCCEEDED? || s.rows[id].status.FAILED?)
  }

  predicate CommitsClaimOf(s: State, a: Action, id: Id) {
    a.Commit? && a.tx in s.txs && id in s.txs[a.tx].ids
  }

  /** A stale sweep or a requeue turns row `id` back to PENDING. */
  ghost predicate PutsBack(s: State, a: Action, id: Id) {
    (a.Sweep? || a.PutBack?) && id in s.rows && s.rows[id].status.RUNNING? && Step(s, a).rows[id].status.PENDING?
  }

  ghost function Claims(s: State, acts: seq<Action>, id: Id): nat
    decreases |acts|
  {
    if acts == [] then 0
    else
      var before := acts[..|acts| - 1];
      Claims(s, before, id) + (if CommitsClaimOf(Exec(s, before), acts[|acts| - 1], id) then 1 else 0)
  }

  ghost function Returns(s: State, acts: seq<Action>, id: Id): nat
    decreases |acts|
  {
    if acts == [] then 0
    else
      var before := acts[..|acts| - 1];
      Returns(s, before, id) + (if PutsBack(Exec(s, before), acts[|acts| - 1], id) then 1 else 0)
  }

  lemma ConservedStep(s: State, a: Action, id: Id)
    requires Inv(s)
    ensures (if Spent(s, id) then 1 else 0) + (if CommitsClaimOf(s, a, id) then 1 else 0)
         == (if Spent(Step(s, a), id) then 1 else 0) + (if PutsBack(s, a, id) then 1 else 0)
  {
    match a
    case Sweep(_) =>
    case Commit(_) =>
    case _ =>
  }

  /**
   Conservation: a row is claimed once more than it is put back while it runs or after
   it finished, and equally often otherwise.  A row no one puts back is claimed once.
   */
  lemma {:induction false} ClaimsAreConserved(kind: Kind, acts: seq<Action>, id: Id)
    ensures Claims(Init(kind), acts, id)
         == Returns(Init(kind), acts, id) + if Spent(Exec(Init(kind), acts), id) then 1 else 0
    decreases |acts|
  {
    if acts != [] {
      ClaimsAreConserved(kind, acts[..|acts| - 1], id);
      TableInvariant(kind, acts[..|acts| - 1]);
      ConservedStep(Exec(Init(kind), acts[..|acts| - 1]), acts[|acts| - 1], id);
    }
  }

  // ---------------------------------------------------------------- no job is starved

  /** Row `id` is there for the next claim to take. */
  predicate Waiting(s: State, id: Id) {
    id in s.rows && s.rows[id].status.PENDING? && id !in Locked(s.txs)
  }

  /** The other rows a claim may take in place of `id`. */
  function Ahead(s: State, id: Id): set<Id>
    requires id in s.rows
  {
    set x | x in s.rows && x != id && Waiting(s, x) && s.rows[x].due <= s.rows[id].due
  }

  /** Claims commit, no claim is released, every claim has the same batch size and new jobs are younger than `id`. */
  predicate Orderly(a: Action, batch: nat, due: Time) {
    && !a.Abort? && !a.Sweep?
    && (a.Select? ==> a.batch == batch)
    && (a.Create? ==> a.due > due)
  }

  ghost predicate Selects(s: State, a: Action) {
    a.Select? && a.tx !in s.txs && ValidPick(s.kind, s.rows, Locked(s.txs), s.now, a.batch, a.picked)
  }

  ghost function SelectCount(s: State, acts: seq<Action>): nat
    decreases |acts|
  {
    if acts == [] then 0
    else
      var before := acts[..|acts| - 1];
      SelectCount(s, before) + if Selects(Exec(s, before), acts[|acts| - 1]) then 1 else 0
  }

  lemma LockedBySelect(txs: map<Tx, ClaimTx>, tx: Tx, claim: ClaimTx)
    requires tx !in txs
    ensures Locked(txs[tx := claim]) == Locked(txs) + claim.ids
  {
    var now := txs[tx := claim];
    forall x | x in Locked(txs) + claim.ids
      ensures x in Locked(now)
    {
      if x in Locked(txs) {
        var u :| u in txs && x in txs[u].ids;
        assert u in now && x in now[u].ids;
      } else {
        assert x in now[tx].ids;
      }
    }
  }

  lemma LockedAfterCommit(txs: map<Tx, ClaimTx>, tx: Tx)
    requires tx in txs
    ensures Locked(txs) == Locked(txs - {tx}) + txs[tx].ids
  {
    forall x | x in Locked(txs)
      ensures x in Locked(txs - {tx}) + txs[tx].ids
    {
      var u :| u in txs && x in txs[u].ids;
      assert u != tx ==> u in txs - {tx} && x in (txs - {tx})[u].ids;
    }
    assert forall x :: x in txs[tx].ids ==> x in Locked(txs);
  }

  /** Without releases no row joins the waiting rows except by being created. */
  lemma JoinsOnlyWhenCreated(s: State, a: Action, x: Id)
    requires Inv(s) && s.kind.AsyncJobs? && !a.Abort? && !a.Sweep? && Waiting(Step(s, a), x)
    ensures if a.Create? && x !in s.rows then a.id == x && Step(s, a).rows[x].due == a.due
            else Waiting(s, x) && Step(s, a).rows[x] == s.rows[x]
  {
    if Selects(s, a) {
      LockedBySelect(s.txs, a.tx, ClaimTx(a.who, s.now, a.picked));
    } else if a.Commit? && a.tx in s.txs {
      LockedAfterCommit(s.txs, a.tx);
    }
  }

  /** One step of a job that goes on waiting: the queue ahead only shrinks, and by a whole batch at each claim. */
  lemma WaitingStep(s: State, a: Action, batch: nat, id: Id)
    requires Inv(s) && s.kind.AsyncJobs? && id in s.rows
    requires Orderly(a, batch, s.rows[id].due) && Waiting(Step(s, a), id)
    ensures Waiting(s, id) && Step(s, a).rows[id] == s.rows[id]
    ensures |Ahead(Step(s, a), id)| + (if Selects(s, a) then batch else 0) <= |Ahead(s, id)|
  {
    var t := Step(s, a);
    JoinsOnlyWhenCreated(s, a, id);
    forall x | x in Ahead(t, id)
      ensures x in Ahead(s, id)
    {
      JoinsOnlyWhenCreated(s, a, x);
    }
    if Selects(s, a) {
      TakesFromAhead(s, a, id);
      SubsetSize(Ahead(t, id), Ahead(s, id) - a.picked);
    } else {
      SubsetSize(Ahead(t, id), Ahead(s, id));
    }
  }

  /** A claim that passes over `id` takes a whole batch of the rows ahead of it. */
  lemma TakesFromAhead(s: State, a: Action, id: Id)
    requires s.kind.AsyncJobs? && id in s.rows && Selects(s, a) && Waiting(s, id) && Waiting(Step(s, a), id)
    ensures a.picked <= Ahead(s, id) && |a.picked| == a.batch
    ensures Ahead(Step(s, a), id) !! a.picked
  {
    LockedBySelect(s.txs, a.tx, ClaimTx(a.who, s.now, a.picked));
    assert Claimable(s.kind, s.rows, s.now, id);
    assert forall x :: x in a.picked ==> Claimable(s.kind, s.rows, s.now, x);
  }

  lemma {:induction false} RunKeepsInv(s: State, acts: seq<Action>, id: Id)
    requires Inv(s) && id in s.rows
    ensures Inv(Exec(s, acts)) && Exec(s, acts).kind == s.kind && id in Exec(s, acts).rows
    decreases |acts|
  {
    if acts != [] {
      RunKeepsInv(s, acts[..|acts| - 1], id);
      StepKeepsInv(Exec(s, acts[..|acts| - 1]), acts[|acts| - 1]);
    }
  }

  /** How many rows the claims of a run take, a batch each (see TakenIsProduct). */
  ghost function TakenRows(s: State, acts: seq<Action>, batch: nat): nat
    decreases |acts|
  {
    if acts == [] then 0
    else
      var before := acts[..|acts| - 1];
      TakenRows(s, before, batch) + if Selects(Exec(s, before), acts[|acts| - 1]) then batch else 0
  }

  lemma {:induction false} TakenIsProduct(s: State, acts: seq<Action>, batch: nat)
    ensures TakenRows(s, acts, batch) == batch * SelectCount(s, acts)
    decreases |acts|
  {
    if acts != [] {
      var before := acts[..|acts| - 1];
      TakenIsProduct(s, before, batch);
      assert batch * (SelectCount(s, before) + 1) == batch * SelectCount(s, before) + batch;
    }
  }

  lemma {:induction false} WaitingRun(s: State, acts: seq<Action>, batch: nat, id: Id)
    requires Inv(s) && s.kind.AsyncJobs? && id in s.rows && Waiting(Exec(s, acts), id)
    requires forall i :: 0 <= i < |acts| ==> Orderly(acts[i], batch, s.rows[id].due)
    ensures Exec(s, acts).rows[id] == s.rows[id]
    ensures |Ahead(Exec(s, acts), id)| + TakenRows(s, acts, batch) <= |Ahead(s, id)|
    decreases |acts|
  {
    if acts != [] {
      var before, a := acts[..|acts| - 1], acts[|acts| - 1];
      var t := Exec(s, before);
      RunKeepsInv(s, before, id);
      JoinsOnlyWhenCreated(t, a, id);
      WaitingRun(s, before, batch, id);
      WaitingStep(t, a, batch, id);
    }
  }

  lemma BatchesCover(k: nat, batch: nat, n: nat)
    requires batch > 0 && n >= k / batch + 1
    ensures batch * n > k
  {
    var q := k / batch;
    assert k < batch * q + batch;
    TimesMonotone(batch, q + 1, n);
  }

  lemma {:induction false} TimesMonotone(c: nat, a: nat, b: nat)
    requires a <= b
    ensures c * a <= c * b
  {
    if a < b {
      TimesMonotone(c, a, b - 1);
      assert c * b == c * (b - 1) + c;
    }
  }

  /**
   A job with k pending jobs ahead of it is taken by the (k / batch + 1)-th claim at the
   latest, whichever instances make the claims and however they overlap.
   */
  lemma NoStarvation(s: State, acts: seq<Action>, batch: nat, id: Id)
    requires Inv(s) && s.kind.AsyncJobs? && Waiting(s, id) && batch > 0
    requires forall i :: 0 <= i < |acts| ==> Orderly(acts[i], batch, s.rows[id].due)
    requires SelectCount(s, acts) >= |Ahead(s, id)| / batch + 1
    ensures !Waiting(Exec(s, acts), id)
  {
    BatchesCover(|Ahead(s, id)|, batch, SelectCount(s, acts));
    if Waiting(Exec(s, acts), id) {
      WaitingRun(s, acts, batch, id);
      TakenIsProduct(s, acts, batch);
    }
  }
}
