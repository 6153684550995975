/** The two capped exponential delays: the controller's operation cooldown and the reconnect backoff. */
module Backoff {
  import opened GoInt

  /** nextFailureDelay: doubles previous up to maximum and starts at initial. */
  function NextFailureDelay(previous: Duration, initial: Duration, maximum: Duration): (d: Duration)
    requires 0 < initial <= maximum
    ensures 0 < d <= maximum
  {
    if previous <= 0 then initial
    else if previous >= maximum / 2 then maximum
    else if previous + previous <= maximum then previous + previous else maximum
  }

  function Pow2(k: nat): (r: nat)
    ensures r >= 1
  {
    if k == 0 then 1 else 2 * Pow2(k - 1)
  }

  /** x * 2^k, by repeated doubling. */
  function Doubled(x: int, k: nat): int {
    if k == 0 then x else 2 * Doubled(x, k - 1)
  }

  lemma {:induction false} DoubledIsProduct(x: int, k: nat)
    ensures Doubled(x, k) == x * Pow2(k)
    ensures x >= 0 ==> Doubled(x, k) >= x
  {
    if k > 0 {
      DoubledIsProduct(x, k - 1);
    }
  }

  /** The k-th term of the ideal capped exponential sequence, over unbounded integers. */
  function Ideal(initial: int, maximum: int, k: nat): int {
    Min(Doubled(initial, k), maximum)
  }

  /**
   * The controller's step is the ideal doubling step for every positive previous delay, except the one
   * whose double is maximum - 1: integer division makes the code jump to maximum there.
   */
  lemma FailureStepIsIdealDoubling(previous: Duration, initial: Duration, maximum: Duration)
    requires 0 < initial <= maximum
    requires 0 < previous <= maximum
    ensures NextFailureDelay(previous, initial, maximum) as int == Min(2 * previous as int, maximum as int)
            <==> 2 * previous as int != maximum as int - 1
  {
    var p, m := previous as int, maximum as int;
    assert (maximum / 2) as int == m / 2;
    assert m == 2 * (m / 2) || m == 2 * (m / 2) + 1;
  }

  /** The cooldown recorded for the n-th consecutive failure of one key (n counts from 0). */
  function FailureDelay(n: nat, initial: Duration, maximum: Duration): (d: Duration)
    requires 0 < initial <= maximum
    ensures 0 < d <= maximum
  {
    if n == 0 then initial else NextFailureDelay(FailureDelay(n - 1, initial, maximum), initial, maximum)
  }

  /**
   * Closed form of the consecutive-failure cooldowns: the n-th is initial * 2^n capped at maximum, and the
   * only n > 0 for which it is not is one with initial * 2^n == maximum - 1, where it is maximum already.
   */
  lemma {:induction false} FailureDelayClosedForm(n: nat, initial: Duration, maximum: Duration)
    requires 0 < initial <= maximum
    ensures FailureDelay(n, initial, maximum) as int == Ideal(initial as int, maximum as int, n)
            <==> n == 0 || Doubled(initial as int, n) != maximum as int - 1
    ensures n > 0 && Doubled(initial as int, n) == maximum as int - 1 ==> FailureDelay(n, initial, maximum) == maximum
  {
    if n > 0 {
      FailureDelayClosedForm(n - 1, initial, maximum);
      DoubledIsProduct(initial as int, n - 1);
      var q := Doubled(initial as int, n - 1);
      CappedStep(n == 1, q, FailureDelay(n - 1, initial, maximum), initial, maximum);
    }
  }

  /** One doubling step of the closed form, with q standing for initial * 2^(n-1). */
  lemma CappedStep(first: bool, q: int, previous: Duration, initial: Duration, maximum: Duration)
    requires 0 < initial <= maximum && 0 < previous <= maximum && q >= initial as int
    requires first ==> q == initial as int
    requires previous as int == Min(q, maximum as int) <==> first || q != maximum as int - 1
    requires !first && q == maximum as int - 1 ==> previous == maximum
    ensures var next := NextFailureDelay(previous, initial, maximum);
            && (next as int == Min(2 * q, maximum as int) <==> 2 * q != maximum as int - 1)
            && (2 * q == maximum as int - 1 ==> next == maximum)
  {
    FailureStepIsIdealDoubling(previous, initial, maximum);
  }

  /** reconnectBackoff: a mutable delay that Next reads and advances and Reset restores. */
  class ReconnectBackoff {
    const initial: Duration
    const maximum: Duration
    var current: Duration
    /** How many times Next was called since construction or the last Reset. */
    ghost var calls: nat

    ghost predicate Valid()
      reads this
    {
      && 0 < initial <= maximum
      && current as int == Ideal(initial as int, maximum as int, calls)
    }

    constructor (initial: Duration, maximum: Duration)
      requires 0 < initial <= maximum
      ensures Valid() && calls == 0
      ensures this.initial == initial && this.maximum == maximum
    {
      this.initial, this.maximum, this.current := initial, maximum, initial;
      calls := 0;
    }

    /** The k-th delay since the last contact is exactly min(initial * 2^k, maximum). */
    method Next() returns (delay: Duration)
      requires Valid()
      modifies this
      ensures Valid() && calls == old(calls) + 1
      ensures delay as int == Ideal(initial as int, maximum as int, old(calls))
    {
      delay := current;
      DoubledIsProduct(initial as int, calls);
      if current >= maximum - current {
        current := maximum;
      } else {
        current := current * 2;
      }
      calls := calls + 1;
    }

    method Reset()
      requires Valid()
      modifies this
      ensures Valid() && calls == 0
    {
      current := initial;
      calls := 0;
    }
  }
}
