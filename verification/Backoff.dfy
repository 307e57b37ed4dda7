// The exponential backoff of the email retry loop, in nanoseconds held in an int64.
module Backoff {
  import opened Integers

  const MILLISECOND: int := 1_000_000
  const TIMEOUT: int := 120_000_000_000

  function Pow2(n: nat): (r: nat)
    ensures r > n
  {
    if n == 0 then 1 else 2 * Pow2(n - 1)
  }

  /** Two's complement wrap-around of an int64 result. */
  function Wrap64(x: int): (r: int)
    ensures MIN_INT64 <= r <= MAX_INT64
    ensures MIN_INT64 <= x <= MAX_INT64 ==> r == x
  {
    if MIN_INT64 <= x <= MAX_INT64 then x
    else (x - MIN_INT64) % 0x1_0000_0000_0000_0000 + MIN_INT64
  }

  /** 1 << n on an int64: the sign bit at 63, nothing left beyond it. */
  function ShiftedOne(n: nat): int {
    if n < 63 then Pow2(n) else if n == 63 then MIN_INT64 else 0
  }

  /** The delay computed before attempt number `attempt`; the first attempt is number 0 and does not wait. */
  function Delay(base: int, attempt: nat): int
    requires attempt >= 1
  {
    Wrap64(base * ShiftedOne(attempt - 1))
  }

  /** The sum of the delays computed before attempts 1 to `attempt`. */
  function TotalDelay(base: int, attempt: nat): int {
    if attempt == 0 then 0 else TotalDelay(base, attempt - 1) + Delay(base, attempt)
  }

  lemma {:induction false} Pow2AtLeast(small: nat, large: nat)
    requires small <= large
    ensures Pow2(small) <= Pow2(large)
  {
    if small < large {
      Pow2AtLeast(small, large - 1);
    }
  }

  lemma Pow2Of17()
    ensures Pow2(16) == 65536 && Pow2(17) == 131072
  {
    assert Pow2(4) == 16;
    assert Pow2(8) == 256;
    assert Pow2(12) == 4096;
    assert Pow2(16) == 65536;
  }

  lemma {:induction false} Pow2Of63(n: nat)
    requires n >= 63
    ensures Pow2(n) > MAX_INT64
  {
    Pow2Of17();
    assert Pow2(20) == 0x10_0000;
    assert Pow2(24) == 0x100_0000;
    assert Pow2(28) == 0x1000_0000;
    assert Pow2(32) == 0x1_0000_0000;
    assert Pow2(36) == 0x10_0000_0000;
    assert Pow2(40) == 0x100_0000_0000;
    assert Pow2(44) == 0x1000_0000_0000;
    assert Pow2(48) == 0x1_0000_0000_0000;
    assert Pow2(52) == 0x10_0000_0000_0000;
    assert Pow2(56) == 0x100_0000_0000_0000;
    assert Pow2(60) == 0x1000_0000_0000_0000;
    assert Pow2(63) == 0x8000_0000_0000_0000;
    Pow2AtLeast(63, n);
  }

  lemma Scale(base: int, x: int, y: int)
    requires 0 <= base && x <= y
    ensures base * x <= base * y
  {
  }

  lemma Distribute(base: int, p: int)
    ensures base * (p - 1) == base * p - base
    ensures base * (2 * p) == 2 * (base * p)
    ensures base * (2 * p - 1) == 2 * (base * p) - base
  {
  }

  /** The computed delay is base * 2^(attempt-1) exactly as long as that product fits an int64. */
  lemma DelayIsExact(base: int, attempt: nat)
    requires 0 < base && attempt >= 1
    ensures Delay(base, attempt) == base * Pow2(attempt - 1) <==> base * Pow2(attempt - 1) <= 0x7FFF_FFFF_FFFF_FFFF
  {
    var n := attempt - 1;
    var p := Pow2(n);
    Scale(base, 0, p);
    if n >= 63 {
      Pow2Of63(n);
      assert base * p >= p by { Scale(p, 1, base); }
      var wrapped := Delay(base, attempt);
      assert wrapped <= MAX_INT64;
    } else {
      assert Delay(base, attempt) == Wrap64(base * p);
    }
  }

  /** While the products fit, the total wait before attempt k is base * (2^k - 1). */
  lemma {:induction false} TotalDelayClosedForm(base: int, attempt: nat)
    requires 0 < base && (attempt >= 1 ==> base * Pow2(attempt - 1) <= MAX_INT64)
    ensures TotalDelay(base, attempt) == base * (Pow2(attempt) - 1)
  {
    if attempt >= 1 {
      var p := Pow2(attempt - 1);
      DelayIsExact(base, attempt);
      if attempt >= 2 {
        Scale(base, Pow2(attempt - 2), p);
      }
      TotalDelayClosedForm(base, attempt - 1);
      Distribute(base, p);
    }
  }

  /** A loop that has waited no longer than the deadline computes its next delay without overflow. */
  lemma NextDelayFits(base: int, attempt: nat)
    requires 0 < base <= MAX_INT64
    requires base * (Pow2(attempt) - 1) <= TIMEOUT
    ensures Delay(base, attempt + 1) == base * (Pow2(attempt) - 1) + base
    ensures Delay(base, attempt + 1) + base * (Pow2(attempt) - 1) == base * (Pow2(attempt + 1) - 1)
    ensures 0 < Delay(base, attempt + 1) <= MAX_INT64
  {
    var p := Pow2(attempt);
    Distribute(base, p);
    Scale(base, 1, p);
    if attempt >= 1 {
      Scale(base, 2, p);
    }
    DelayIsExact(base, attempt + 1);
  }

  /** With a base of at least a millisecond the deadline leaves room for attempts 0 to 16 only. */
  lemma AttemptsFitDeadline(base: int, attempt: nat)
    requires base >= MILLISECOND
    requires base * (Pow2(attempt) - 1) <= TIMEOUT
    ensures attempt <= 16
  {
    Pow2Of17();
    if attempt >= 17 {
      Pow2AtLeast(17, attempt);
      Scale(base, Pow2(17) - 1, Pow2(attempt) - 1);
      assert false;
    }
  }
}
