/** The delay before a failed download is tried again. */
module Backoff {
  import opened Types

  function Pow2(n: nat): (p: nat)
    ensures p >= 1
  {
    if n == 0 then 1 else 2 * Pow2(n - 1)
  }

  function Min(a: nat, b: nat): nat {
    if a <= b then a else b
  }

  function Quotient(a: nat, b: nat): nat
    requires b > 0
  {
    a / b
  }

  datatype ExponentialBackoff = ExponentialBackoff(baseSecs: nat, maxSecs: nat) {
    /**
     * The delay in whole milliseconds, or None where the duration arithmetic panics: the
     * product is formed before the cap is applied, and a duration holds fewer than 2^64
     * seconds. The exponent is the attempt read as a signed 32-bit number, so attempts from
     * 2^31 on give a negative power of two.
     */
    function NextDelayMs(attempt: u32): Option<nat> {
      if attempt < 0x8000_0000 then
        if baseSecs * Pow2(attempt) >= 0x1_0000_0000_0000_0000 then None
        else Some(1000 * Min(baseSecs * Pow2(attempt), maxSecs))
      else
        Some(Min(Quotient(1000 * baseSecs, Pow2(0x1_0000_0000 - attempt)), 1000 * maxSecs))
    }
  }

  const BACKOFF_STRATEGY := ExponentialBackoff(1, 10)

  /** The delay the scheduler announces after failure number `attempt`, in milliseconds. */
  function CappedMs(attempt: nat): nat {
    1000 * Min(Pow2(attempt), 10)
  }

  /** The longest total wait that `retries` retries can cause. */
  function BudgetMs(retries: nat): nat {
    if retries == 0 then 0 else BudgetMs(retries - 1) + CappedMs(retries - 1)
  }

  lemma {:induction false} Pow2Monotone(a: nat, b: nat)
    requires a <= b
    ensures Pow2(a) <= Pow2(b)
    ensures a < b ==> Pow2(a) < Pow2(b)
    decreases b
  {
    if a < b {
      Pow2Monotone(a, b - 1);
    }
  }

  lemma Pow2Of64()
    ensures Pow2(64) == 0x1_0000_0000_0000_0000
  {
    assert Pow2(8) == 0x100;
    assert Pow2(16) == 0x1_0000;
    assert Pow2(24) == 0x100_0000;
    assert Pow2(32) == 0x1_0000_0000;
    assert Pow2(40) == 0x100_0000_0000;
    assert Pow2(48) == 0x1_0000_0000_0000;
    assert Pow2(56) == 0x100_0000_0000_0000;
  }

  /** Exactly when the arithmetic fails, and what the delay is when it does not. */
  lemma DelayExactly(attempt: u32)
    ensures BACKOFF_STRATEGY.NextDelayMs(attempt).None? <==> 64 <= attempt < 0x8000_0000
    ensures attempt < 64 ==> BACKOFF_STRATEGY.NextDelayMs(attempt) == Some(CappedMs(attempt))
    ensures attempt >= 0x8000_0000 ==> BACKOFF_STRATEGY.NextDelayMs(attempt).value <= 500
    ensures 1000 <= CappedMs(attempt) <= 10_000
  {
    Pow2Of64();
    if attempt < 64 {
      Pow2Monotone(attempt, 64);
    } else if attempt < 0x8000_0000 {
      Pow2Monotone(64, attempt);
    } else {
      Pow2Monotone(1, 0x1_0000_0000 - attempt);
      QuotientAtMost(1000, Pow2(0x1_0000_0000 - attempt));
    }
  }

  /** The delays in milliseconds, one by one: 1, 2, 4, 8 and then always 10 seconds. */
  function AnnouncedMs(attempt: nat): nat {
    if attempt == 0 then 1_000
    else if attempt == 1 then 2_000
    else if attempt == 2 then 4_000
    else if attempt == 3 then 8_000
    else 10_000
  }

  lemma DelayTable(attempt: u32)
    requires attempt < 64
    ensures BACKOFF_STRATEGY.NextDelayMs(attempt) == Some(AnnouncedMs(attempt))
  {
    DelayExactly(attempt);
    if attempt >= 4 {
      Pow2Monotone(4, attempt);
    }
    assert Pow2(0) == 1 && Pow2(1) == 2 && Pow2(2) == 4 && Pow2(3) == 8 && Pow2(4) == 16;
  }

  /** So a delay that is computed at all is within the cap. */
  lemma DelayAtMostCapped(attempt: u32)
    ensures BACKOFF_STRATEGY.NextDelayMs(attempt).Some? ==>
      BACKOFF_STRATEGY.NextDelayMs(attempt).value <= CappedMs(attempt)
  {
    DelayExactly(attempt);
  }

  lemma QuotientAtMost(a: nat, b: nat)
    requires b >= 2
    ensures 2 * Quotient(a, b) <= a
  {
    var q := Quotient(a, b);
    assert q * b <= a;
    assert q * b == 2 * q + q * (b - 2);
    Product(q, b - 2);
  }

  lemma Product(a: nat, b: nat)
    ensures a * b >= 0
  {
  }

  lemma CappedMonotone(a: nat, b: nat)
    requires a <= b
    ensures CappedMs(a) <= CappedMs(b)
  {
    Pow2Monotone(a, b);
  }

  /** Delays never shrink and stay within ten seconds, as long as the exponent is not negative. */
  lemma DelaysOrdered(a: u32, b: u32)
    requires a <= b < 0x8000_0000
    requires BACKOFF_STRATEGY.NextDelayMs(a).Some? && BACKOFF_STRATEGY.NextDelayMs(b).Some?
    ensures BACKOFF_STRATEGY.NextDelayMs(a).value <= BACKOFF_STRATEGY.NextDelayMs(b).value <= 10_000
  {
    DelayExactly(a);
    DelayExactly(b);
    CappedMonotone(a, b);
  }

  lemma {:induction false} BudgetMonotone(a: nat, b: nat)
    requires a <= b
    ensures BudgetMs(a) <= BudgetMs(b)
    decreases b
  {
    if a < b {
      BudgetMonotone(a, b - 1);
    }
  }
}
