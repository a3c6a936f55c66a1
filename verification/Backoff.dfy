/**
 Delay before a failed task is retried, in integer nanoseconds. The random
 addend is an explicit argument, so every statement is about all choices.
 `time.Duration` is a 64-bit integer: additions wrap around.
 */
module Backoff {
  import opened Integers

  const MILLISECOND: int := 1_000_000
  const SECOND: int := 1000 * MILLISECOND
  const MAX_DELAY: int := 32 * SECOND
  const RANDOM_MS: int := 1000
  const TRUNCATE_TO: int := 100 * MILLISECOND
  // int(log(32) / log(2))
  const CALCULATIONS_COUNT: int := 5

  predicate IsInt64(x: int) { -TWO_63 <= x < TWO_63 }

  function Wrap64(x: int): (r: int)
    ensures IsInt64(r)
    ensures IsInt64(x) ==> r == x
  {
    (x + TWO_63) % TWO_64 - TWO_63
  }

  /** Duration.Truncate: rounds toward zero to a multiple of 100ms. */
  function Truncate(d: int): (r: int)
    ensures d >= 0 ==> d - TRUNCATE_TO < r <= d
    ensures d < 0 ==> d <= r < d + TRUNCATE_TO && r <= 0
    ensures r % TRUNCATE_TO == 0
  {
    if d >= 0 then d - d % TRUNCATE_TO else d + (-d) % TRUNCATE_TO
  }

  function Pow2(n: nat): (r: int)
    ensures r >= 1
  {
    if n == 0 then 1 else 2 * Pow2(n - 1)
  }

  predicate IsRandomMs(rnd: int) { 0 <= rnd < RANDOM_MS }

  function CalculateDelayWithMax(initialDelay: int, maxDelay: int, retryCount: nat, rnd: int): (delay: int)
  {
    if retryCount == 0 then initialDelay
    else
      var delayNs := if retryCount <= CALCULATIONS_COUNT then SECOND * Pow2(retryCount - 1) else maxDelay;
      var total := Truncate(Wrap64(Wrap64(initialDelay + delayNs) + rnd * MILLISECOND));
      if total > maxDelay then maxDelay else total
  }

  function CalculateDelay(initialDelay: int, retryCount: nat, rnd: int): (delay: int)
  {
    CalculateDelayWithMax(initialDelay, MAX_DELAY, retryCount, rnd)
  }

  /** For every outcome of the random addend, a later retry waits at least as long as an earlier one. */
  ghost predicate NeverShrinks(initialDelay: int) {
    forall k: nat, m: nat, r: int, s: int :: k < m && IsRandomMs(r) && IsRandomMs(s) ==>
      CalculateDelay(initialDelay, k, r) <= CalculateDelay(initialDelay, m, s)
  }

  lemma Powers(n: nat)
    requires n <= 4
    ensures Pow2(n) == if n == 0 then 1 else if n == 1 then 2 else if n == 2 then 4 else if n == 3 then 8 else 16
  {
    if n > 0 { Powers(n - 1); }
  }

  function Capped(base: int): (r: int)
    ensures r <= MAX_DELAY && r <= Truncate(base)
  {
    if Truncate(base) > MAX_DELAY then MAX_DELAY else Truncate(base)
  }

  /** What retries 1 to 5 wait for, before truncation and the cap. */
  function Base(initialDelay: int, k: nat, rnd: int): (r: int)
    requires 0 < k
  {
    initialDelay + SECOND * Pow2(k - 1) + rnd * MILLISECOND
  }

  lemma BaseGrows(initialDelay: int, k: nat, m: nat, r: int, s: int)
    requires 0 < k < m <= CALCULATIONS_COUNT && IsRandomMs(r) && IsRandomMs(s)
    ensures Base(initialDelay, k, r) < Base(initialDelay, m, s)
  {
    Powers(k - 1);
    Powers(m - 1);
  }

  /** Cutting off keeps the order. */
  lemma WholeSteps(a: int, b: int)
    requires 0 <= a <= b
    ensures a - a % TRUNCATE_TO <= b - b % TRUNCATE_TO
  {
    var p, q := a / TRUNCATE_TO, b / TRUNCATE_TO;
    assert a == p * TRUNCATE_TO + a % TRUNCATE_TO && b == q * TRUNCATE_TO + b % TRUNCATE_TO;
    assert p <= q;
  }

  lemma CappedGrows(a: int, b: int)
    requires a < b
    ensures Capped(a) <= Capped(b)
  {
    if 0 <= a {
      WholeSteps(a, b);
    } else if b < 0 {
      WholeSteps(-b, -a);
    }
  }

  /** Retry 0 is the initial delay; the first five retries add 1, 2, 4, 8 and 16 seconds. */
  lemma DelayRange(initialDelay: int, k: nat, rnd: int)
    requires 0 <= initialDelay <= MAX_DELAY && IsRandomMs(rnd)
    ensures initialDelay <= CalculateDelay(initialDelay, k, rnd) <= MAX_DELAY
    ensures k > CALCULATIONS_COUNT ==> CalculateDelay(initialDelay, k, rnd) == MAX_DELAY
    ensures 0 < k <= CALCULATIONS_COUNT ==>
      CalculateDelay(initialDelay, k, rnd) == Capped(Base(initialDelay, k, rnd))
  {
    if 0 < k <= CALCULATIONS_COUNT {
      Powers(k - 1);
    }
  }

  /** The delays in nanoseconds: 1, 2, 4, 8 and 16 seconds and the random milliseconds are added to the
      initial delay, what is below 100 ms is cut off, and 32 seconds are the maximum, which later retries wait. */
  lemma DelaysAre(initialDelay: int, k: nat, rnd: int)
    requires 0 <= initialDelay <= 32_000_000_000 && 0 <= rnd < 1000
    ensures k == 0 ==> CalculateDelay(initialDelay, k, rnd) == initialDelay
    ensures 1 <= k <= 5 ==>
      var added := if k == 1 then 1 else if k == 2 then 2 else if k == 3 then 4 else if k == 4 then 8 else 16;
      var total := initialDelay + added * 1_000_000_000 + rnd * 1_000_000;
      CalculateDelay(initialDelay, k, rnd)
      == if total - total % 100_000_000 > 32_000_000_000 then 32_000_000_000 else total - total % 100_000_000
    ensures k >= 6 ==> CalculateDelay(initialDelay, k, rnd) == 32_000_000_000
  {
    DelayRange(initialDelay, k, rnd);
    if 1 <= k <= 5 {
      Powers(k - 1);
    }
  }

  /** Starting from five seconds. */
  lemma DelaysOfFailures(k: nat, rnd: int)
    requires 0 <= rnd < 1000
    ensures CalculateDelay(5_000_000_000, k, rnd)
         == if k == 0 then 5_000_000_000
            else if k == 1 then 6_000_000_000 + rnd / 100 * 100_000_000
            else if k == 2 then 7_000_000_000 + rnd / 100 * 100_000_000
            else if k == 3 then 9_000_000_000 + rnd / 100 * 100_000_000
            else if k == 4 then 13_000_000_000 + rnd / 100 * 100_000_000
            else if k == 5 then 21_000_000_000 + rnd / 100 * 100_000_000
            else 32_000_000_000
  {
    DelaysAre(5_000_000_000, k, rnd);
    CutOff(rnd);
  }

  lemma CutOff(rnd: int)
    requires 0 <= rnd < 1000
    ensures rnd * 1_000_000 - rnd * 1_000_000 % 100_000_000 == rnd / 100 * 100_000_000
  {
    assert rnd * 1_000_000 == rnd / 100 * 100_000_000 + rnd % 100 * 1_000_000;
  }

  lemma NextRetryWaitsLonger(initialDelay: int, k: nat, m: nat, r: int, s: int)
    requires 0 <= initialDelay <= MAX_DELAY && k < m && IsRandomMs(r) && IsRandomMs(s)
    ensures CalculateDelay(initialDelay, k, r) <= CalculateDelay(initialDelay, m, s) <= MAX_DELAY
  {
    DelayRange(initialDelay, k, r);
    DelayRange(initialDelay, m, s);
    if 0 < k && m <= CALCULATIONS_COUNT {
      BaseGrows(initialDelay, k, m, r, s);
      CappedGrows(Base(initialDelay, k, r), Base(initialDelay, m, s));
    }
  }

  /** The exact initial delays for which backing off never shortens the wait. */
  lemma NeverShrinksExactly(initialDelay: int)
    requires IsInt64(initialDelay)
    ensures NeverShrinks(initialDelay) <==> 0 <= initialDelay <= MAX_DELAY
  {
    if 0 <= initialDelay <= MAX_DELAY {
      forall k: nat, m: nat, r: int, s: int | k < m && IsRandomMs(r) && IsRandomMs(s)
        ensures CalculateDelay(initialDelay, k, r) <= CalculateDelay(initialDelay, m, s)
      {
        NextRetryWaitsLonger(initialDelay, k, m, r, s);
      }
    } else if initialDelay > MAX_DELAY {
      assert IsRandomMs(0);
      assert CalculateDelay(initialDelay, 1, 0) <= MAX_DELAY < CalculateDelay(initialDelay, 0, 0);
    } else {
      // A lucky addend on retry 6 and an unlucky one on retry 7.
      assert IsRandomMs(0) && IsRandomMs(999);
      var low := initialDelay + MAX_DELAY;
      var high := low + 999 * MILLISECOND;
      assert CalculateDelay(initialDelay, 6, 999) == if Truncate(high) > MAX_DELAY then MAX_DELAY else Truncate(high);
      assert CalculateDelay(initialDelay, 7, 0) == Truncate(low);
      assert Truncate(low) < Truncate(high) && Truncate(low) < MAX_DELAY;
    }
  }
}
