/**
 The dispatch loop of one claimed batch (worker/async_job_executor.go:173-188,
 worker/scheduled_operation_executor.go:156-171): jobs take a slot in order, each
 waiting until fewer than `concurrency` earlier jobs hold one.
 */
module BatchDispatch {
  import opened ExclusiveExecution
  import opened Wrappers

  /** Which of the jobs started so far hold their slot at time t; `durations` says for how long each does. */
  function Busy(starts: seq<Time>, durations: seq<Time>, t: Time): set<nat>
    requires |starts| <= |durations|
  {
    set j: nat | j < |starts| && t < starts[j] + durations[j]
  }

  function Before(starts: seq<Time>, k: nat, start: Time): Time
    requires k <= |starts|
  {
    if k == 0 then start else starts[k - 1]
  }

  /** Job k waits for its turn and for a slot, and for nothing else. */
  ghost predicate StartsWhenFree(starts: seq<Time>, durations: seq<Time>, concurrency: nat, start: Time, k: nat)
    requires k < |starts| <= |durations|
  {
    && Before(starts, k, start) <= starts[k]
    && |Busy(starts[..k], durations, starts[k])| < concurrency
    && forall t: Time :: Before(starts, k, start) <= t < starts[k] ==> |Busy(starts[..k], durations, t)| >= concurrency
  }

  method DispatchOnce(durations: seq<Time>, concurrency: nat, start: Time, accepted: nat) returns (starts: seq<Time>)
    requires concurrency > 0 && accepted <= |durations|
    ensures |starts| == accepted
    ensures forall k :: 0 <= k < |starts| ==> StartsWhenFree(starts, durations, concurrency, start, k)
  {
    starts := [];
    var now := start;
    while |starts| < accepted
      invariant |starts| <= accepted && now == Before(starts, |starts|, start)
      invariant forall k :: 0 <= k < |starts| ==> StartsWhenFree(starts, durations, concurrency, start, k)
    {
      var asked := now;
      while |Busy(starts, durations, now)| >= concurrency
        invariant asked <= now
        invariant forall t: Time :: asked <= t < now ==> |Busy(starts, durations, t)| >= concurrency
        decreases |Busy(starts, durations, now)|
      {
        var next := NextRelease(starts, durations, now);
        FewerBusy(starts, durations, now, next);
        now := next;
      }
      ghost var before := starts;
      starts := starts + [now];
      forall k | 0 <= k < |starts|
        ensures StartsWhenFree(starts, durations, concurrency, start, k)
      {
        assert starts[..k] == before[..k];
        assert k < |before| ==> StartsWhenFree(before, durations, concurrency, start, k);
        assert before[..|before|] == before;
      }
    }
  }

  /** The time at which the next slot is given back; until then nothing changes. */
  method NextRelease(starts: seq<Time>, durations: seq<Time>, now: Time) returns (next: Time)
    requires |starts| <= |durations| && Busy(starts, durations, now) != {}
    ensures now < next && forall t: Time :: now <= t < next ==>
              Busy(starts, durations, t) == Busy(starts, durations, now)
    ensures exists j :: j in Busy(starts, durations, now) && next == starts[j] + durations[j]
  {
    var busy := Busy(starts, durations, now);
    var j :| j in busy;
    ghost var first := j;
    next := starts[j] + durations[j];
    var todo := busy - {j};
    while todo != {}
      invariant todo <= busy && first in busy && next == starts[first] + durations[first]
      invariant forall i :: i in busy && i !in todo ==> next <= starts[i] + durations[i]
      decreases todo
    {
      var i :| i in todo;
      if starts[i] + durations[i] < next {
        next := starts[i] + durations[i];
        first := i;
      }
      todo := todo - {i};
    }
  }

  lemma FewerBusy(starts: seq<Time>, durations: seq<Time>, now: Time, next: Time)
    requires |starts| <= |durations| && now < next
    requires exists j :: j in Busy(starts, durations, now) && next == starts[j] + durations[j]
    ensures |Busy(starts, durations, next)| < |Busy(starts, durations, now)|
  {
    var j :| j in Busy(starts, durations, now) && next == starts[j] + durations[j];
    assert Busy(starts, durations, next) <= Busy(starts, durations, now) - {j};
    SubsetSize(Busy(starts, durations, next), Busy(starts, durations, now) - {j});
  }

  /** If no job holds its slot longer than `hold`, job k starts within k / concurrency times `hold` of the dispatch. */
  lemma StartsInRounds(starts: seq<Time>, durations: seq<Time>, concurrency: nat, start: Time, hold: Time, k: nat)
    requires concurrency > 0 && k < |starts| <= |durations|
    requires forall j :: 0 <= j < |durations| ==> durations[j] <= hold
    requires forall j :: 0 <= j < |starts| ==> StartsWhenFree(starts, durations, concurrency, start, j)
    ensures starts[k] <= start + k / concurrency * hold
  {
    StartsInSpans(starts, durations, concurrency, start, hold, k);
    RoundIsQuotient(k, concurrency);
    SpanIsProduct(Round(k, concurrency), hold);
  }

  lemma {:induction false} StartsInSpans(starts: seq<Time>, durations: seq<Time>, concurrency: nat, start: Time,
                                         hold: Time, k: nat)
    requires concurrency > 0 && k < |starts| <= |durations|
    requires forall j :: 0 <= j < |durations| ==> durations[j] <= hold
    requires forall j :: 0 <= j < |starts| ==> StartsWhenFree(starts, durations, concurrency, start, j)
    ensures starts[k] <= start + Span(Round(k, concurrency), hold)
  {
    assert StartsWhenFree(starts, durations, concurrency, start, k);
    if starts[k] == Before(starts, k, start) {
      if k > 0 {
        StartsInSpans(starts, durations, concurrency, start, hold, k - 1);
        LaterRound(k - 1, k, concurrency, hold);
      }
    } else {
      var t: Time := starts[k] - 1;
      var m: nat := LeastOfMany(Busy(starts[..k], durations, t), k, concurrency);
      StartsInSpans(starts, durations, concurrency, start, hold, m);
      NextRound(m, concurrency);
      LaterRound(m + concurrency, k, concurrency, hold);
    }
  }
}
