/**
 RetryWithBackoff (worker/loop.go:23-68): call again after a wait that doubles with
 every error and starts over once a call has lasted long enough.  Durations are int64
 nanoseconds, so doubling may wrap.
 */
module RetryBackoff {

  const TWO_63: int := 0x8000_0000_0000_0000
  const TWO_62: int := 0x4000_0000_0000_0000

  type Duration = d: int | -0x8000_0000_0000_0000 <= d < 0x8000_0000_0000_0000

  /** How one call of fn ends: it took `lasted`; `stop` says that the context or the error ends the loop there. */
  datatype Call = Call(lasted: Duration, failed: bool, stop: bool)

  /** The wait after an error, or none after a clean return. */
  datatype Wait = NoWait | WaitFor(delay: Duration)

  function Doubled(d: Duration): Duration {
    if 2 * d >= TWO_63 then 2 * d - 2 * TWO_63 else if 2 * d < -TWO_63 then 2 * d + 2 * TWO_63 else 2 * d
  }

  function Least(a: int, b: int): int {
    if a < b then a else b
  }

  function Pow2(n: nat): nat {
    if n == 0 then 1 else 2 * Pow2(n - 1)
  }

  /** 2^n times d (see ScaledIsProduct). */
  function Scaled(d: int, n: nat): int {
    if n == 0 then d else 2 * Scaled(d, n - 1)
  }

  lemma {:induction false} ScaledIsProduct(d: int, n: nat)
    ensures Scaled(d, n) == d * Pow2(n)
  {
    if n > 0 {
      ScaledIsProduct(d, n - 1);
      assert d * (2 * Pow2(n - 1)) == 2 * (d * Pow2(n - 1));
    }
  }

  /** Errors since the start, or since the last call that lasted at least `resetAfter`, before call i. */
  function Errors(calls: seq<Call>, resetAfter: Duration, i: nat): nat
    requires i <= |calls|
    decreases i, 0
  {
    if i == 0 then 0 else ErrorsBefore(calls, resetAfter, i - 1) + if calls[i - 1].failed then 1 else 0
  }

  /** The errors that count once call i itself has ended: a long call forgets the earlier ones. */
  function ErrorsBefore(calls: seq<Call>, resetAfter: Duration, i: nat): nat
    requires i < |calls|
    decreases i, 1
  {
    if calls[i].lasted >= resetAfter then 0 else Errors(calls, resetAfter, i)
  }

  /** The failed calls from j up to, but without, i. */
  function FailedCalls(calls: seq<Call>, j: nat, i: nat): set<nat>
    requires i <= |calls|
  {
    set k | j <= k < i && calls[k].failed
  }

  /** Only the errors since the last long call count: j is that call, or 0 if there was none up to call i. */
  lemma {:induction false} CountsSinceLongCall(calls: seq<Call>, resetAfter: Duration, i: nat, j: nat)
    requires j <= i < |calls| && (j == 0 || calls[j].lasted >= resetAfter)
    requires forall k :: j < k <= i ==> calls[k].lasted < resetAfter
    ensures ErrorsBefore(calls, resetAfter, i) == |FailedCalls(calls, j, i)|
    decreases i
  {
    if i == j {
      assert FailedCalls(calls, j, i) == {};
    } else {
      CountsSinceLongCall(calls, resetAfter, i - 1, j);
      OneMoreCall(calls, j, i);
    }
  }

  lemma OneMoreCall(calls: seq<Call>, j: nat, i: nat)
    requires j < i <= |calls|
    ensures |FailedCalls(calls, j, i)| == |FailedCalls(calls, j, i - 1)| + if calls[i - 1].failed then 1 else 0
  {
    var before := FailedCalls(calls, j, i - 1);
    assert i - 1 !in before;
    if calls[i - 1].failed {
      assert FailedCalls(calls, j, i) == before + {i - 1};
    } else {
      assert FailedCalls(calls, j, i) == before;
    }
  }

  /** The first error waits for the base delay, the n-th after it for 2^n times that, up to the maximum. */
  function Backoff(base: Duration, max: Duration, n: nat): int {
    if n == 0 then base else Least(Scaled(base, n), max)
  }

  /** The value of the delay variable after n doublings in int64. */
  function Delay(base: Duration, max: Duration, n: nat): Duration {
    if n == 0 then base else Least(Doubled(Delay(base, max, n - 1)), max)
  }

  method RetryWithBackoff(base: Duration, max: Duration, resetAfter: Duration, calls: seq<Call>)
      returns (waits: seq<Wait>)
    ensures |waits| <= |calls|
    ensures forall i :: 0 <= i < |waits| ==> !calls[i].stop
    ensures |waits| < |calls| ==> calls[|waits|].stop
    ensures forall i :: 0 <= i < |waits| ==>
              waits[i] == if calls[i].failed then WaitFor(Delay(base, max, ErrorsBefore(calls, resetAfter, i)))
                else NoWait
  {
    var delay := base;
    waits := [];
    while |waits| < |calls| && !calls[|waits|].stop
      invariant |waits| <= |calls|
      invariant delay == Delay(base, max, Errors(calls, resetAfter, |waits|))
      invariant forall i :: 0 <= i < |waits| ==> !calls[i].stop
      invariant forall i :: 0 <= i < |waits| ==>
                  waits[i] == if calls[i].failed then WaitFor(Delay(base, max, ErrorsBefore(calls, resetAfter, i)))
                    else NoWait
      decreases |calls| - |waits|
    {
      var call := calls[|waits|];
      if call.lasted >= resetAfter {
        delay := base;
      }
      if !call.failed {
        waits := waits + [NoWait];
      } else {
        waits := waits + [WaitFor(delay)];
        delay := if Doubled(delay) < max then Doubled(delay) else max;
      }
    }
  }

  // ---------------------------------------------------------------- closed form

  /** Options for which no doubling wraps. */
  predicate Small(base: Duration, max: Duration) {
    base == 0 || (0 < base < TWO_62 && max < TWO_62)
  }

  lemma {:induction false} ScaledSign(d: int, n: nat)
    requires d >= 0
    ensures Scaled(d, n) >= d && (d == 0 ==> Scaled(d, n) == 0)
  {
    if n > 0 {
      ScaledSign(d, n - 1);
    }
  }

  /** The delay never exceeds the larger option, so its double never exceeds twice that. */
  lemma {:induction false} ClosedForm(base: Duration, max: Duration, n: nat)
    requires Small(base, max) && max >= 0
    ensures Delay(base, max, n) == Backoff(base, max, n)
    ensures 0 <= Delay(base, max, n) && 2 * Delay(base, max, n) <= 2 * (if base < max then max else base)
  {
    if n > 0 {
      ClosedForm(base, max, n - 1);
      ScaledSign(base, n - 1);
    }
  }

  /** Some delay is so large that doubling it wraps to a negative one. */
  lemma {:induction false} FirstWrap(base: Duration, max: Duration, n: nat) returns (m: nat)
    requires base > 0 && max >= 0 && (base >= TWO_62 || max >= TWO_62)
    requires Delay(base, max, n) == Scaled(base, n) == Backoff(base, max, n)
    ensures Delay(base, max, m) != Backoff(base, max, m)
    decreases TWO_62 - Scaled(base, n)
  {
    ScaledSign(base, n);
    if Scaled(base, n) >= TWO_62 {
      m := n + 1;
    } else {
      assert max >= TWO_62;
      if Scaled(base, n + 1) <= max {
        m := FirstWrap(base, max, n + 1);
      } else {
        m := n + 2;
      }
    }
  }

  /**
   Every wait follows the closed form, whatever the calls do, exactly when both delays
   are below 2^62 nanoseconds (or the base delay is zero).
   */
  lemma ClosedFormIffSmall(base: Duration, max: Duration)
    requires base >= 0 && max >= 0
    ensures (forall n: nat :: Delay(base, max, n) == Backoff(base, max, n)) <==> Small(base, max)
  {
    if Small(base, max) {
      forall n: nat
        ensures Delay(base, max, n) == Backoff(base, max, n)
      {
        ClosedForm(base, max, n);
      }
    } else {
      var m := FirstWrap(base, max, 0);
    }
  }
}
