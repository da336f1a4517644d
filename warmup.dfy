/** The warmup counter that decides when a code object is quickened. It starts
    negative so that the interpreter's test is a comparison with zero. */
module Warmup {
  import opened MachineTypes

  const QuickeningWarmupDelay: int := 8
  const QuickeningInitialWarmupValue: int := -QuickeningWarmupDelay
  /** Defined beside the others; no operation of this header reads it. */
  const QuickeningWarmupColdest: int := 1

  /** The counter after `k` invocations have each incremented it once, starting at `start`. */
  function WarmupAfter(start: int, k: nat): int
  {
    if k == 0 then start else WarmupAfter(start, k - 1) + 1
  }

  /** Each invocation adds exactly one. */
  lemma {:induction false} WarmupAfterAdds(start: int, k: nat)
    ensures WarmupAfter(start, k) == start + k
  {
    if k > 0 {
      WarmupAfterAdds(start, k - 1);
    }
  }

  /** From the initial value, the counter is zero (the code is warmed up) after
      exactly eight increments: not after 0 to 7, nor after any later number. */
  lemma WarmedUpExactlyAtDelay(k: nat)
    ensures WarmupAfter(QuickeningInitialWarmupValue, k) == 0 <==> k == QuickeningWarmupDelay
    ensures k < QuickeningWarmupDelay ==> WarmupAfter(QuickeningInitialWarmupValue, k) < 0
  {
    WarmupAfterAdds(QuickeningInitialWarmupValue, k);
  }

  /** The part of a code object the warmup operations touch: its `co_warmup`
      field, and (ghost) how many invocations it has counted. */
  class CodeObject {
    var warmup: int32
    ghost var invocations: nat

    ghost predicate Valid()
      reads this
    {
      warmup == WarmupAfter(QuickeningInitialWarmupValue, invocations)
    }

    /** A new code object starts cold, at the initial warmup value. */
    constructor ()
      ensures Valid() && invocations == 0
      ensures warmup == QuickeningInitialWarmupValue
    {
      warmup := QuickeningInitialWarmupValue;
      invocations := 0;
    }

    /** Counts one invocation. C `int` overflow is undefined, so the counter must
        not already be at its maximum. */
    method IncrementWarmup()
      requires Valid()
      requires warmup < Int32Max
      modifies this`warmup, this`invocations
      ensures Valid()
      ensures warmup == old(warmup) + 1
      ensures invocations == old(invocations) + 1
      ensures warmup == QuickeningInitialWarmupValue + invocations
    {
      warmup := warmup + 1;
      invocations := invocations + 1;
      WarmupAfterAdds(QuickeningInitialWarmupValue, invocations);
    }

    /** The code should be quickened now: exactly eight invocations were counted. */
    function IsWarmedUp(): (r: bool)
      reads this
      requires Valid()
      ensures r <==> invocations == QuickeningWarmupDelay
    {
      WarmedUpExactlyAtDelay(invocations);
      warmup == 0
    }
  }
}
