/**
 getFreeSessionPort (usecase/session_usecase.go:585-603): probe the configured port
 range once around, starting somewhere in the middle.
 */
module PortProbe {

  /** `Unassigned` is the answer when no range is configured; `DivisionByZero` is the run-time panic of the modulo. */
  datatype Result = Unassigned | Port(port: int) | NoFreePort | DivisionByZero

  /** The port the i-th probe of a range of n ports tries. */
  function Candidate(min: int, n: nat, offset: nat, i: nat): int
    requires n > 0
  {
    min + (offset + i) % n
  }

  lemma AtLeastTwice(n: nat, q: nat)
    ensures q >= 2 ==> n * q >= 2 * n
  {
    if q >= 2 {
      assert n * q == 2 * n + n * (q - 2);
    }
  }

  lemma WrapsOnce(n: nat, offset: nat, i: nat)
    requires offset < n && i < n
    ensures (offset + i) % n == if offset + i < n then offset + i else offset + i - n
  {
    var q := (offset + i) / n;
    assert offset + i == n * q + (offset + i) % n;
    AtLeastTwice(n, q);
    assert q == 0 || q == 1;
  }

  /** Different probes try different ports of the range. */
  lemma CandidatesDiffer(min: int, n: nat, offset: nat, i: nat, j: nat)
    requires offset < n && i < j < n
    ensures min <= Candidate(min, n, offset, i) < min + n
    ensures Candidate(min, n, offset, i) != Candidate(min, n, offset, j)
  {
    WrapsOnce(n, offset, i);
    WrapsOnce(n, offset, j);
  }

  /** Every port of the range is tried by some probe. */
  lemma EveryPortIsACandidate(min: int, n: nat, offset: nat, port: int) returns (i: nat)
    requires offset < n && min <= port < min + n
    ensures i < n && Candidate(min, n, offset, i) == port
  {
    i := if port - min >= offset then port - min - offset else port - min - offset + n;
    WrapsOnce(n, offset, i);
  }

  /**
   `nanos` is the clock and `answer(i)` what the i-th probe finds.  The ports probed
   are returned in order.
   */
  method GetFreeSessionPort(min: int, max: int, nanos: nat, answer: nat -> bool) returns (r: Result, probed: seq<int>)
    ensures r == Unassigned <==> min == 0 && max == 0
    ensures r == DivisionByZero <==> max == min - 1
    // No port is probed twice, none outside the range, and none after a free one.
    ensures forall i :: 0 <= i < |probed| ==> min <= probed[i] <= max
    ensures forall i, j :: 0 <= i < j < |probed| ==> probed[i] != probed[j]
    ensures forall i :: 0 <= i < |probed| - 1 ==> !answer(i)
    // A port is returned iff its probe, the last one, found it free.
    ensures r.Port? <==> probed != [] && answer(|probed| - 1)
    ensures r.Port? ==> r.port == probed[|probed| - 1]
    // Otherwise every port of the range was probed in vain.
    ensures r == NoFreePort ==> forall port :: min <= port <= max ==> port in probed
  {
    probed := [];
    if min == 0 && max == 0 {
      return Unassigned, probed;
    }
    var n := max - min + 1;
    if n == 0 {
      return DivisionByZero, probed;
    }
    if n < 0 {
      // The remainder by a negative number is fine, the loop has no turns.
      return NoFreePort, probed;
    }
    var offset := nanos % n;
    var i := 0;
    while i <= max - min
      invariant 0 <= i <= n && |probed| == i
      invariant forall k :: 0 <= k < i ==> probed[k] == Candidate(min, n, offset, k) && !answer(k)
    {
      var port := min + (offset + i) % n;
      probed := probed + [port];
      if answer(i) {
        Distinct(min, n, offset, probed);
        return Port(port), probed;
      }
      i := i + 1;
    }
    Distinct(min, n, offset, probed);
    forall port | min <= port <= max
      ensures port in probed
    {
      var k := EveryPortIsACandidate(min, n, offset, port);
      assert probed[k] == port;
    }
    r := NoFreePort;
  }

  lemma Distinct(min: int, n: nat, offset: nat, probed: seq<int>)
    requires offset < n && |probed| <= n
    requires forall k :: 0 <= k < |probed| ==> probed[k] == Candidate(min, n, offset, k)
    ensures forall k :: 0 <= k < |probed| ==> min <= probed[k] < min + n
    ensures forall j, k :: 0 <= j < k < |probed| ==> probed[j] != probed[k]
  {
    forall j, k | 0 <= j < k < |probed|
      ensures probed[j] != probed[k]
    {
      CandidatesDiffer(min, n, offset, j, k);
    }
  }
}
