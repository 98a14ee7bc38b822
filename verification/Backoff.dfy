/** Exponential backoff on Go's 64-bit durations, where a left shift wraps around. */
module Backoff {

  const TWO_63 := 0x8000_0000_0000_0000
  const TWO_64 := 0x1_0000_0000_0000_0000

  datatype RetryPolicy = RetryPolicy(maxAttempts: int, baseDelay: int, maxDelay: int)

  predicate IsInt64(x: int) {
    -TWO_63 <= x < TWO_63
  }

  function Min(a: int, b: int): int { if a <= b then a else b }

  function Max(a: int, b: int): int { if a <= b then b else a }

  function Pow2(n: nat): (p: nat)
    ensures p > 0
  {
    if n == 0 then 1 else 2 * Pow2(n - 1)
  }

  /** The 64-bit two's complement number with the low bits of x. */
  function Wrap64(x: int): (r: int)
    ensures IsInt64(r)
  {
    (x + TWO_63) % TWO_64 - TWO_63
  }

  /** Go's x << n on an int64: every bit is gone after 64 places. */
  function ShiftLeft(x: int, n: nat): int {
    Wrap64(x * Pow2(n))
  }

  function RetryDelay(policy: RetryPolicy, attempts: nat): int {
    Min(ShiftLeft(policy.baseDelay, attempts), policy.maxDelay)
  }

  /** The delay as resolveOutcome assigns it. */
  method ComputeDelay(policy: RetryPolicy, attempts: nat) returns (delay: int)
    ensures delay == RetryDelay(policy, attempts)
    ensures delay <= policy.maxDelay
  {
    delay := ShiftLeft(policy.baseDelay, attempts);
    if delay > policy.maxDelay {
      delay := policy.maxDelay;
    }
  }

  lemma Wrap64Identity(x: int)
    ensures Wrap64(x) == x <==> IsInt64(x)
  {
  }

  predicate Fits(policy: RetryPolicy, attempts: nat) {
    policy.baseDelay * Pow2(attempts) < TWO_63
  }

  /** Without overflow the delay is the doubled base, capped. */
  lemma DelayDoubles(policy: RetryPolicy, attempts: nat)
    requires 0 < policy.baseDelay && Fits(policy, attempts)
    ensures RetryDelay(policy, attempts) == Min(policy.baseDelay * Pow2(attempts), policy.maxDelay)
  {
    Wrap64Identity(policy.baseDelay * Pow2(attempts));
  }

  /** The delay is the doubled base, capped, exactly when the doubled base does not overflow,
      or the wrapped shift is at or above the cap as well. */
  lemma DelayDoublesExactly(policy: RetryPolicy, attempts: nat)
    requires 0 < policy.baseDelay && IsInt64(policy.maxDelay)
    ensures RetryDelay(policy, attempts) == Min(policy.baseDelay * Pow2(attempts), policy.maxDelay)
       <==> Fits(policy, attempts) || policy.maxDelay <= ShiftLeft(policy.baseDelay, attempts)
  {
    var doubled := policy.baseDelay * Pow2(attempts);
    assert 0 < doubled;
    if doubled < TWO_63 {
      DelayDoubles(policy, attempts);
    }
  }

  /** So it is under every cap exactly when the doubled base does not overflow. */
  lemma EveryDelayDoublesExactly(policy: RetryPolicy, attempts: nat)
    requires 0 < policy.baseDelay < TWO_63
    ensures Fits(policy, attempts) <==>
      forall cap | IsInt64(cap) ::
        RetryDelay(policy.(maxDelay := cap), attempts) == Min(policy.baseDelay * Pow2(attempts), cap)
  {
    forall cap | IsInt64(cap)
      ensures RetryDelay(policy.(maxDelay := cap), attempts) == Min(policy.baseDelay * Pow2(attempts), cap)
         <==> Fits(policy, attempts) || cap <= ShiftLeft(policy.baseDelay, attempts)
    {
      DelayDoublesExactly(policy.(maxDelay := cap), attempts);
    }
    if !Fits(policy, attempts) {
      OverflowMissesMaximum(policy.baseDelay, attempts);
      assert IsInt64(TWO_63 - 1);
    }
  }

  /** The largest int64 is odd, so no shift that overflows an int64 base yields it. */
  lemma OverflowMissesMaximum(base: int, n: nat)
    requires 0 < base < TWO_63 <= base * Pow2(n)
    ensures ShiftLeft(base, n) != TWO_63 - 1
  {
    var half := base * Pow2(n - 1);
    assert base * Pow2(n) == 2 * half;
    var wrapped := Wrap64(2 * half);
    var q := (2 * half + TWO_63) / TWO_64;
    assert wrapped == 2 * (half - q * TWO_63);
  }

  /** Longer waits on later attempts, as long as the shift does not overflow. */
  lemma DelayGrows(policy: RetryPolicy, a: nat, b: nat)
    requires 0 < policy.baseDelay && a <= b && Fits(policy, b)
    ensures Fits(policy, a) && RetryDelay(policy, a) <= RetryDelay(policy, b)
  {
    Pow2Grows(policy.baseDelay, a, b);
    DelayDoubles(policy, a);
    DelayDoubles(policy, b);
  }

  lemma {:induction false} Pow2Grows(base: int, a: nat, b: nat)
    requires 0 < base && a <= b
    ensures base * Pow2(a) <= base * Pow2(b)
    decreases b
  {
    if a < b {
      Pow2Grows(base, a, b - 1);
      assert base * Pow2(b) == 2 * (base * Pow2(b - 1));
    }
  }

  /** All the waiting of a run that retries after attempts 0 .. n-1. */
  function TotalDelay(policy: RetryPolicy, n: nat): int {
    if n == 0 then 0 else TotalDelay(policy, n - 1) + RetryDelay(policy, n - 1)
  }

  lemma {:induction false} TotalDelayBounded(policy: RetryPolicy, n: nat)
    requires 0 < policy.baseDelay && (n > 0 ==> Fits(policy, n - 1))
    ensures TotalDelay(policy, n) <= policy.baseDelay * (Pow2(n) - 1)
    ensures TotalDelay(policy, n) <= n * policy.maxDelay
  {
    if n > 0 {
      if n > 1 {
        DelayGrows(policy, n - 2, n - 1);
      }
      TotalDelayBounded(policy, n - 1);
      DelayDoubles(policy, n - 1);
      OneMoreDelay(policy.baseDelay, policy.maxDelay, n, TotalDelay(policy, n - 1), RetryDelay(policy, n - 1));
    }
  }

  lemma OneMoreDelay(base: int, cap: int, n: nat, total: int, delay: int)
    requires n > 0 && total <= base * (Pow2(n - 1) - 1) && total <= (n - 1) * cap
    requires delay <= base * Pow2(n - 1) && delay <= cap
    ensures total + delay <= base * (Pow2(n) - 1) && total + delay <= n * cap
  {
    assert base * (Pow2(n - 1) - 1) + base * Pow2(n - 1) == base * (2 * Pow2(n - 1) - 1);
    assert (n - 1) * cap + cap == n * cap;
  }

  /** A workflow's whole waiting: with MaxAttempts m it retries after attempts 0 .. m-2. */
  lemma RunDelayBounded(policy: RetryPolicy)
    requires 1 <= policy.maxAttempts && 0 < policy.baseDelay
    requires forall a: nat | a + 1 < policy.maxAttempts :: Fits(policy, a)
    ensures TotalDelay(policy, policy.maxAttempts - 1) <=
      Min(policy.baseDelay * (Pow2(policy.maxAttempts - 1) - 1), (policy.maxAttempts - 1) * policy.maxDelay)
  {
    TotalDelayBounded(policy, policy.maxAttempts - 1);
  }

  lemma EightMore(n: nat)
    ensures Pow2(n + 8) == 256 * Pow2(n)
  {
    assert Pow2(n + 4) == 2 * Pow2(n + 3) == 4 * Pow2(n + 2) == 8 * Pow2(n + 1) == 16 * Pow2(n);
    assert Pow2(n + 8) == 2 * Pow2(n + 7) == 4 * Pow2(n + 6) == 8 * Pow2(n + 5) == 16 * Pow2(n + 4);
  }

  lemma SixteenMore(n: nat)
    ensures Pow2(n + 16) == 65536 * Pow2(n)
  {
    EightMore(n);
    EightMore(n + 8);
  }

  lemma LargePowers(n: nat)
    ensures n == 34 ==> Pow2(n) == 17_179_869_184
    ensures n == 64 ==> Pow2(n) == TWO_64
  {
    if n == 34 || n == 64 {
      SixteenMore(n - 16);
      SixteenMore(n - 32);
      assert Pow2(n) == 4_294_967_296 * Pow2(n - 32);
    }
    if n == 34 {
      assert Pow2(n - 32) == 2 * Pow2(n - 33) == 4 * Pow2(n - 34);
    } else if n == 64 {
      SixteenMore(n - 48);
      SixteenMore(n - 64);
    }
  }

  /** With the default one-second base the delay turns negative at attempt 34, and at
      attempt 64 it is zero. */
  lemma OverflowCounterexample(policy: RetryPolicy, attempts: nat)
    requires policy == RetryPolicy(100, 1_000_000_000, 30_000_000_000)
    ensures attempts == 34 ==> RetryDelay(policy, attempts) < 0
    ensures attempts == 64 ==> RetryDelay(policy, attempts) == 0
  {
    LargePowers(attempts);
  }
}
