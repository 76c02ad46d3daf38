/** What several components share: values that may be absent (SQL NULL, a nil pointer), int32 user counts, set sizes. */
module Wrappers {

  datatype Option<+T> = None | Some(value: T)

  /** Two naturals have a larger one. */
  function Max(a: nat, b: nat): nat {
    if a < b then b else a
  }

  /** Two's complement truncation of a sum of two int32 values. */
  function Int32(n: int): int {
    if n >= 0x8000_0000 then n - 0x1_0000_0000 else if n < -0x8000_0000 then n + 0x1_0000_0000 else n
  }

  /** A user count after one user joined or left: int32 arithmetic, never below zero. */
  function BumpedCount(count: int, delta: int): (r: int)
    ensures r >= 0
  {
    if Int32(count + delta) < 0 then 0 else Int32(count + delta)
  }

  lemma {:induction false} SubsetSize<T>(a: set<T>, b: set<T>)
    requires a <= b
    ensures |a| <= |b|
  {
    if a != {} {
      var x :| x in a;
      SubsetSize(a - {x}, b - {x});
    }
  }
}
