/** Instants, durations and the 64-bit arithmetic that orders jobs.

An instant is a count of nanoseconds since the Unix epoch. A caller may hand over any instant; only
those that fit a signed 64-bit count can be stored. A duration always fits one.
*/
module Instants {

  const MIN_INT64: int := -0x8000_0000_0000_0000
  const MAX_INT64: int := 0x7FFF_FFFF_FFFF_FFFF
  const TWO_TO_64: int := 0x1_0000_0000_0000_0000

  /** The zero time.Time, midnight of 1 January of year 1: long before the first storable instant. */
  const ZERO_TIME: Instant := -62_135_596_800_000_000_000

  type Instant = int
  type Duration = d: int | MIN_INT64 <= d <= MAX_INT64 witness 0

  datatype SubResult = Ok(at: Instant) | TimeOutOfRange

  /** Two's complement wrap-around of an int64 operation whose exact result is n. */
  function Wrap64(n: int): (r: int)
    ensures MIN_INT64 <= r <= MAX_INT64
    ensures (n - r) % TWO_TO_64 == 0
    ensures MIN_INT64 <= n <= MAX_INT64 ==> r == n
  {
    (n - MIN_INT64) % TWO_TO_64 + MIN_INT64
  }

  predicate ValidInstant(t: Instant) {
    !(t < MIN_INT64 || t > MAX_INT64)
  }

  function Min(a: int, b: int): int { if a < b then a else b }

  function Clamp(n: int): int {
    if n < MIN_INT64 then MIN_INT64 else if n > MAX_INT64 then MAX_INT64 else n
  }

  /** t minus d, refused when the wrapped difference betrays that the true one left the range. The
      contract is about the true difference: the two sign tests miss nothing and refuse nothing. */
  function SubDuration(t: Instant, d: Duration): (r: SubResult)
    ensures r.Ok? <==> ValidInstant(t) && ValidInstant(t - d)
    ensures r.Ok? ==> r.at == t - d
  {
    if !ValidInstant(t) then TimeOutOfRange
    else
      var res := Wrap64(t - d);
      if (d > 0 && res > t) || (d < 0 && res < t) then TimeOutOfRange else Ok(res)
  }

  /** t minus d, pinned to the nearer end of the range. */
  function SubDurationClamped(t: Instant, d: Duration): (r: Instant)
    ensures r == Clamp(Clamp(t) - d)
  {
    var t' := if t < MIN_INT64 then MIN_INT64 else t;
    var ns := if t' > MAX_INT64 then MAX_INT64 else t';
    var res := Wrap64(ns - d);
    if d > 0 && res > ns then MIN_INT64
    else if d < 0 && res < ns then MAX_INT64
    else res
  }

  /** The SQL expression of the same name: numeric arithmetic, so nothing wraps. */
  function ClampNS(n: int): int {
    var least := if n < MAX_INT64 then n else MAX_INT64;
    if least > MIN_INT64 then least else MIN_INT64
  }

  /** What the priority order needs of the clamped difference: later instants never sort earlier,
      larger boosts never sort later, the SQL expression agrees, and where SubDuration accepts the
      two coincide. */
  lemma ClampedDifference(t: Instant, t': Instant, d: Duration, d': Duration)
    ensures t <= t' ==> SubDurationClamped(t, d) <= SubDurationClamped(t', d)
    ensures d <= d' ==> SubDurationClamped(t, d') <= SubDurationClamped(t, d)
    ensures ValidInstant(t) ==> SubDurationClamped(t, d) == ClampNS(t - d)
    ensures SubDuration(t, d).Ok? ==> SubDuration(t, d) == Ok(SubDurationClamped(t, d))
    ensures ValidInstant(SubDurationClamped(t, d))
  {
    // The contracts of the two functions, and no more, give every line.
    assert SubDurationClamped(t, d) == Clamp(Clamp(t) - d);
    assert SubDurationClamped(t', d) == Clamp(Clamp(t') - d);
    assert SubDurationClamped(t, d') == Clamp(Clamp(t) - d');
  }
}
