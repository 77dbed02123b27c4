/**
  The process-wide request counter behind each entry's `RequestCount`: a
  32-bit integer bumped by `Interlocked.Increment`, which wraps from the
  largest value to the smallest.
*/
module RequestIds {

  const MaxInt32 := 0x7fff_ffff
  const MinInt32 := -0x8000_0000

  newtype Int32 = x: int | -0x8000_0000 <= x < 0x8000_0000

  /** `Interlocked.Increment`'s new value. */
  function Incremented(x: Int32): (r: Int32)
    ensures x as int < MaxInt32 ==> r as int == x as int + 1
    ensures x as int == MaxInt32 ==> r as int == MinInt32
  {
    if x as int == MaxInt32 then MinInt32 as Int32 else x + 1
  }

  /** The counts handed out by `n` successive increments starting after `x`. */
  function Counts(x: Int32, n: nat): seq<Int32>
    decreases n
  {
    if n == 0 then [] else [Incremented(x)] + Counts(Incremented(x), n - 1)
  }

  /**
    Without wrap-around, `n` successive entries get the counts x+1 .. x+n:
    strictly increasing, hence pairwise distinct.
  */
  lemma {:induction false} CountsAscend(x: Int32, n: nat)
    requires x as int + n <= MaxInt32
    ensures |Counts(x, n)| == n
    ensures forall i :: 0 <= i < n ==> Counts(x, n)[i] as int == x as int + i + 1
    ensures forall i, j :: 0 <= i < j < n ==> Counts(x, n)[i] < Counts(x, n)[j]
    decreases n
  {
    if n > 0 {
      CountsAscend(Incremented(x), n - 1);
    }
  }

  /** The static field itself, shared by every logger in the process. */
  class RequestIdCounter {
    var value: Int32

    constructor()
      ensures value == 0
    {
      value := 0;
    }

    method Increment() returns (n: Int32)
      modifies this
      ensures value == Incremented(old(value)) && n == value
    {
      value := Incremented(value);
      n := value;
    }
  }
}
