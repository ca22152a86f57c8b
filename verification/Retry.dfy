/** The exponential backoff curve, without jitter, in 64-bit arithmetic. */
module Retry {
  import opened Instants

  function Pow2(n: nat): (r: int)
    ensures r >= 1
  {
    if n == 0 then 1 else 2 * Pow2(n - 1)
  }

  const TWO_TO_62: int := 0x4000_0000_0000_0000

  /** The value of the loop variable after n rounds, counting a round after the break as idle. */
  function Doubled(base: Duration, max: Duration, n: nat): (d: Duration)
  {
    if n == 0 then base
    else
      var d := Doubled(base, max, n - 1);
      if n > 1 && max > 0 && d >= max then d
      else
        var e := Wrap64(2 * d);
        if max > 0 && e >= max then max else e
  }

  function Curve(base: Duration, max: Duration, attempt: int): Duration {
    var d := Doubled(base, max, if attempt < 1 then 0 else attempt - 1);
    if max > 0 && d > max then max else d
  }

  /** The first doubling of the base that reaches 2^62: doubling that once more leaves the int64 range. */
  function Peak(base: int): int
    requires 1 <= base
    decreases TWO_TO_62 - base
  {
    if base >= TWO_TO_62 then base else Peak(2 * base)
  }

  /** The curve is never asked to double a value that cannot be doubled. */
  predicate Safe(base: Duration, max: Duration) {
    0 <= base < TWO_TO_62 && 0 < max && (base >= 1 ==> max <= Peak(base))
  }

  method ExponentialDelay(base: Duration, max: Duration, attempt: int) returns (delay: Duration, ghost doublings: nat)
    ensures delay == Curve(base, max, attempt)
    ensures 1 <= base && Safe(base, max) ==> doublings <= 62
  {
    var d: Duration := base;
    doublings := 0;
    var i := 1;
    var rounds: nat := if attempt < 1 then 0 else attempt - 1;
    while i < attempt
      invariant i == doublings + 1 && doublings <= rounds
      invariant d == Doubled(base, max, doublings)
      invariant doublings > 0 && max > 0 ==> d < max
    {
      d := Wrap64(d * 2);
      doublings := doublings + 1;
      if max > 0 && d >= max {
        d := max;
        Sticks(base, max, doublings, rounds);
        break;
      }
      i := i + 1;
    }
    if 1 <= base && Safe(base, max) && doublings > 0 {
      Reaches(base, max, doublings - 1);
    }
    if max > 0 && d > max { d := max; }
    delay := d;
  }

  /** Once the cap is reached the curve stays there. */
  lemma {:induction false} Sticks(base: Duration, max: Duration, n: nat, m: nat)
    requires 0 < n <= m && max > 0 && Doubled(base, max, n) == max
    ensures Doubled(base, max, m) == max
  {
    if n < m { Sticks(base, max, n, m - 1); }
  }

  lemma Pow62()
    ensures Pow2(62) == TWO_TO_62
  {
    assert Pow2(10) == 1024;
    assert Pow2(20) == 0x10_0000;
    assert Pow2(30) == 0x4000_0000;
    assert Pow2(40) == 0x100_0000_0000;
    assert Pow2(50) == 0x4_0000_0000_0000;
    assert Pow2(60) == 0x1000_0000_0000_0000;
  }

  lemma {:induction false} Pow2Monotone(m: nat, n: nat)
    requires m <= n
    ensures Pow2(m) <= Pow2(n)
  {
    if m < n { Pow2Monotone(m, n - 1); }
  }

  lemma {:induction false} PeakIsLeast(base: int, n: nat)
    requires 1 <= base && base * Pow2(n) >= TWO_TO_62
    ensures Peak(base) <= base * Pow2(n)
    decreases n
  {
    if base >= TWO_TO_62 {
      Scale(base, 1, Pow2(n));
    } else {
      assert n > 0 && (2 * base) * Pow2(n - 1) == base * Pow2(n) by { DoubleProduct(base, Pow2(n - 1)); }
      PeakIsLeast(2 * base, n - 1);
    }
  }

  lemma {:induction false} PeakIsADoubling(base: int) returns (k: nat)
    requires 1 <= base
    ensures Peak(base) == base * Pow2(k) && TWO_TO_62 <= Peak(base)
    ensures base < TWO_TO_62 ==> k > 0 && Peak(base) < TWO_TO_62 + TWO_TO_62
    ensures forall j: nat :: j < k ==> base * Pow2(j) < TWO_TO_62
    decreases TWO_TO_62 - base
  {
    if base >= TWO_TO_62 {
      k := 0;
    } else {
      var m := PeakIsADoubling(2 * base);
      k := m + 1;
      DoubleProduct(base, Pow2(m));
      forall j: nat | j < k ensures base * Pow2(j) < TWO_TO_62 {
        if j > 0 { DoubleProduct(base, Pow2(j - 1)); }
      }
    }
  }

  /** In particular whenever neither the base nor the cap is beyond 2^62. */
  lemma SafeInRange(base: Duration, max: Duration)
    requires 0 <= base < TWO_TO_62 && 0 < max <= TWO_TO_62
    ensures Safe(base, max)
  {
    if base >= 1 { var k := PeakIsADoubling(base); }
  }

  /** A curve still below its cap has doubled at most 61 times. */
  lemma Reaches(base: Duration, max: Duration, n: nat)
    requires 1 <= base && Safe(base, max)
    ensures n > 61 ==> Doubled(base, max, n) == max
  {
    if n >= 62 {
      Exact(base, max, n);
      Pow62();
      Pow2Monotone(62, n);
      Scale(Pow2(n), 1, base);
      PeakIsLeast(base, n);
    }
  }

  /** In a safe curve no doubling overflows: it is the capped power of two. */
  lemma {:induction false} Exact(base: Duration, max: Duration, n: nat)
    requires Safe(base, max)
    ensures n == 0 ==> Doubled(base, max, n) == base
    ensures n > 0 ==> Doubled(base, max, n) == (if base * Pow2(n) < max then base * Pow2(n) else max)
  {
    if n > 0 {
      Exact(base, max, n - 1);
      DoubleProduct(base, Pow2(n - 1));
      Scale(base, 1, Pow2(n - 1));
      var p := base * Pow2(n - 1);
      if base >= 1 && p >= TWO_TO_62 { PeakIsLeast(base, n - 1); }
      if base == 0 { assert p == 0; }
      DoubleOnce(base, max, n, p);
    }
  }

  lemma DoubleOnce(base: Duration, max: Duration, n: nat, p: int)
    requires 0 <= base < TWO_TO_62 && 0 < max && n > 0 && 0 <= p && (p < TWO_TO_62 || max <= p)
    requires n == 1 ==> p == base
    requires n > 1 ==> Doubled(base, max, n - 1) == (if p < max then p else max)
    ensures Doubled(base, max, n) == (if 2 * p < max then 2 * p else max)
  {
  }

  function CappedPower(base: Duration, max: Duration, attempt: int): int
    requires attempt >= 1
  {
    if base * Pow2(attempt - 1) < max then base * Pow2(attempt - 1) else max
  }

  lemma CurveIsCappedPower(base: Duration, max: Duration, attempt: int)
    requires Safe(base, max) && attempt >= 1
    ensures Curve(base, max, attempt) == CappedPower(base, max, attempt)
  {
    Exact(base, max, attempt - 1);
  }

  /** Up to its peak an unsafe curve doubles like any other. */
  lemma {:induction false} BelowThePeak(base: Duration, max: Duration, k: nat, n: nat)
    requires 1 <= base && 0 < max && n <= k && base * Pow2(k) < max
    requires forall j: nat :: j < k ==> base * Pow2(j) < TWO_TO_62
    ensures Doubled(base, max, n) == base * Pow2(n)
  {
    if n > 0 {
      BelowThePeak(base, max, k, n - 1);
      DoubleProduct(base, Pow2(n - 1));
      Pow2Monotone(n, k);
      Scale(base, Pow2(n), Pow2(k));
    }
  }

  /** An unsafe curve turns negative at some attempt. */
  lemma UnsafeTurnsNegative(base: Duration, max: Duration) returns (attempt: int)
    requires 1 <= base && 0 < max && !Safe(base, max)
    ensures attempt >= 2 && Curve(base, max, attempt) < 0
  {
    var k := PeakIsADoubling(base);
    if base < TWO_TO_62 {
      BelowThePeak(base, max, k, k);
    } else {
      assert Pow2(0) == 1 && Doubled(base, max, 0) == base;
    }
    attempt := k + 2;
    PastThePeak(base, max, k);
  }

  lemma PastThePeak(base: Duration, max: Duration, k: nat)
    requires 0 < max && TWO_TO_62 <= Doubled(base, max, k) && (k > 0 ==> Doubled(base, max, k) < max)
    ensures Curve(base, max, k + 2) < 0
  {
    var top := Doubled(base, max, k);
    assert Wrap64(2 * top) == 2 * top - TWO_TO_64;
  }

  /** For every non-negative base and every cap, the delay is min(Max, Base * 2^(attempt - 1)) at all
      attempts exactly when the base is below 2^62 and the cap does not exceed the first doubling of the
      base that reaches 2^62. */
  lemma CappedExactlyWhenSafe(base: Duration, max: Duration)
    requires 0 <= base && 0 < max
    ensures Safe(base, max) <==>
      forall attempt {:trigger Curve(base, max, attempt)} :: attempt >= 1 ==>
        Curve(base, max, attempt) == CappedPower(base, max, attempt)
  {
    if Safe(base, max) {
      forall attempt | attempt >= 1 ensures Curve(base, max, attempt) == CappedPower(base, max, attempt) {
        CurveIsCappedPower(base, max, attempt);
      }
    } else {
      var attempt := UnsafeTurnsNegative(base, max);
      Scale(base, 1, Pow2(attempt - 1));
    }
  }

  lemma CurveNeverFalls(base: Duration, max: Duration, attempt: int, later: int)
    requires Safe(base, max) && 1 <= attempt <= later
    ensures 0 <= Curve(base, max, attempt) <= Curve(base, max, later) <= max
  {
    CurveIsCappedPower(base, max, attempt);
    CurveIsCappedPower(base, max, later);
    Pow2Monotone(attempt - 1, later - 1);
    Scale(base, Pow2(attempt - 1), Pow2(later - 1));
  }

  lemma Scale(k: int, x: int, y: int)
    requires 0 <= k && 0 <= x <= y
    ensures 0 <= k * x <= k * y
  {
  }

  /** Both bounds are needed. A base of 2^62 doubles into a negative delay under any cap; so does a
      base just below it when the cap is just above. */
  lemma BeyondTheRangeDelaysTurnNegative(max: Duration)
    requires max > 0
    ensures Curve(TWO_TO_62, max, 2) == MIN_INT64
    ensures Curve(TWO_TO_62 - 1, TWO_TO_62 + TWO_TO_62 - 1, 3) == -4
  {
    assert Doubled(TWO_TO_62, max, 1) == MIN_INT64;
    assert Doubled(TWO_TO_62 - 1, TWO_TO_62 + TWO_TO_62 - 1, 1) == 2 * TWO_TO_62 - 2;
  }

  /** Without a cap the curve is the power of two modulo 2^64. */
  lemma {:induction false} UncappedCurveWraps(base: Duration, max: Duration, n: nat)
    requires max <= 0
    ensures Doubled(base, max, n) == Wrap64(base * Pow2(n))
  {
    if n > 0 {
      UncappedCurveWraps(base, max, n - 1);
      DoubleProduct(base, Pow2(n - 1));
      DoubleWrap(base * Pow2(n - 1));
    }
  }

  /** The base doubled n times, in 64-bit arithmetic. */
  function Wrapped(base: Duration, n: nat): Duration {
    Wrap64(base * Pow2(n))
  }

  /** One of the first n doublings reaches the cap. */
  predicate Hits(base: Duration, max: Duration, n: nat) {
    n > 0 && (Hits(base, max, n - 1) || max <= Wrapped(base, n))
  }

  lemma WrappedTwice(base: Duration, m: nat, n: nat)
    requires n == m + 1
    ensures Wrapped(base, n) == Wrap64(2 * Wrapped(base, m))
  {
    DoubleProduct(base, Pow2(m));
    DoubleWrap(base * Pow2(m));
  }

  lemma {:induction false} UntilItHits(base: Duration, max: Duration, n: nat)
    requires 0 < max
    ensures Doubled(base, max, n) == if Hits(base, max, n) then max else Wrapped(base, n)
  {
    if n > 0 {
      var m := n - 1;
      UntilItHits(base, max, m);
      WrappedTwice(base, m, n);
      assert m > 0 && !Hits(base, max, m) ==> Wrapped(base, m) < max;
    }
  }

  /** The curve in full, for every base, cap and attempt: the base doubled once for every attempt after the
      first, in 64-bit arithmetic, until a doubling reaches the cap, which then stays; and never above the
      cap. Without a cap it just doubles. */
  lemma CurveInFull(base: Duration, max: Duration, attempt: int, n: nat)
    requires n == if attempt < 1 then 0 else attempt - 1
    ensures max <= 0 ==> Curve(base, max, attempt) == Wrapped(base, n)
    ensures 0 < max && Hits(base, max, n) ==> Curve(base, max, attempt) == max
    ensures 0 < max && !Hits(base, max, n) ==>
      Curve(base, max, attempt) == if max < Wrapped(base, n) then max else Wrapped(base, n)
  {
    if max <= 0 { UncappedCurveWraps(base, max, n); } else { UntilItHits(base, max, n); }
  }

  lemma DoubleProduct(x: int, y: int)
    ensures x * (2 * y) == 2 * (x * y)
  {
  }

  lemma DoubleWrap(x: int)
    ensures Wrap64(2 * Wrap64(x)) == Wrap64(2 * x)
  {
    var y := Wrap64(x);
    var k := (x - MIN_INT64) / TWO_TO_64;
    assert x == y + k * TWO_TO_64;
    var z := 2 * y - MIN_INT64;
    assert 2 * x - MIN_INT64 == z + 2 * k * TWO_TO_64;
    assert (z + 2 * k * TWO_TO_64) % TWO_TO_64 == z % TWO_TO_64;
  }
}
