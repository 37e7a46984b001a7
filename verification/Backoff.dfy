/** Retry delays of daemon/loop_state.go. */
module Backoff {

  /** The daemon's durations, as its configuration check and defaults guarantee them. */
  datatype Params = Params(
    periodic: nat, debounce: nat, maxDebounce: nat,
    retryInitial: nat, retryMax: nat, stability: nat)

  ghost predicate GoodParams(p: Params) {
    && 0 < p.periodic && 0 < p.debounce <= p.maxDebounce
    && 0 < p.retryInitial <= p.retryMax
  }

  function Pow2(k: nat): (r: nat)
    ensures r >= 1
  {
    if k == 0 then 1 else 2 * Pow2(k - 1)
  }

  /** The delay after k failures in a row: doubled each time, up to the maximum. */
  function Delay(p: Params, k: nat): nat {
    if p.retryInitial * Pow2(k) <= p.retryMax then p.retryInitial * Pow2(k) else p.retryMax
  }

  /** nextLoopBackoff: it compares against maximum - current, so that doubling cannot overflow. */
  function NextBackoff(current: nat, maximum: nat): (r: nat)
    ensures r == if 2 * current <= maximum then 2 * current else maximum
  {
    if current >= maximum || current > maximum - current then maximum else current * 2
  }

  lemma BackoffIsExact(p: Params, k: nat)
    requires GoodParams(p)
    ensures Delay(p, 0) == p.retryInitial
    ensures NextBackoff(Delay(p, k), p.retryMax) == Delay(p, k + 1)
  {
    assert p.retryInitial * Pow2(k + 1) == 2 * (p.retryInitial * Pow2(k)) by {
      assert Pow2(k + 1) == 2 * Pow2(k);
    }
  }
}
