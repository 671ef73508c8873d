/**
 * Java's TimeUnit.toMillis on 64-bit longs, as used to turn a lock's expiry
 * and wait time into milliseconds: sub-millisecond units divide, truncating
 * toward zero; coarser units multiply and saturate at the long range.
 */
module TimeUnits {

  datatype TimeUnit = NANOSECONDS | MICROSECONDS | MILLISECONDS | SECONDS | MINUTES | HOURS | DAYS

  const LongMax: int := 0x7fff_ffff_ffff_ffff
  const LongMin: int := -0x8000_0000_0000_0000

  predicate IsLong(x: int)
  {
    LongMin <= x <= LongMax
  }

  /** How many of the finer of (unit, millisecond) make one of the coarser. */
  function MilliRatio(u: TimeUnit): (r: int)
    ensures r >= 1
  {
    match u
    case NANOSECONDS => 1_000_000
    case MICROSECONDS => 1_000
    case MILLISECONDS => 1
    case SECONDS => 1_000
    case MINUTES => 60_000
    case HOURS => 3_600_000
    case DAYS => 86_400_000
  }

  predicate FinerThanMillis(u: TimeUnit)
  {
    u == NANOSECONDS || u == MICROSECONDS
  }

  /** Java's long division: the quotient truncated toward zero. */
  function TruncDiv(a: int, b: int): (q: int)
    requires b > 0
    ensures a >= 0 ==> 0 <= q * b <= a
    ensures a <= 0 ==> a <= q * b <= 0
  {
    if a >= 0 then a / b else -((-a) / b)
  }

  /** TimeUnit.toMillis. */
  function ToMillis(d: int, u: TimeUnit): (r: int)
    requires IsLong(d)
    ensures IsLong(r)
    ensures u == MILLISECONDS ==> r == d
    ensures d >= 0 ==> r >= 0
    ensures d <= 0 ==> r <= 0
    ensures !FinerThanMillis(u) && IsLong(d * MilliRatio(u)) ==> r == d * MilliRatio(u)
    ensures !FinerThanMillis(u) && !IsLong(d * MilliRatio(u)) ==> r == LongMax || r == LongMin
  {
    var ratio := MilliRatio(u);
    if u == MILLISECONDS then d
    else if FinerThanMillis(u) then TruncDiv(d, ratio)
    else if d > LongMax / ratio then LongMax
    else if d < -(LongMax / ratio) then LongMin
    else
      assert -(LongMax / ratio) * ratio <= d * ratio <= (LongMax / ratio) * ratio;
      d * ratio
  }

  /** Truncating division keeps order. */
  lemma TruncDivMonotone(a: int, b: int, q: int)
    requires q > 0 && a <= b
    ensures TruncDiv(a, q) <= TruncDiv(b, q)
  {
    if a >= 0 {
      DivMonotone(a, b, q);
    } else if b <= 0 {
      DivMonotone(-b, -a, q);
    }
  }

  lemma DivMonotone(a: nat, b: nat, q: int)
    requires q > 0 && a <= b
    ensures a / q <= b / q
  {
    var x, y := a / q, b / q;
    assert a == x * q + a % q;
    assert b == y * q + b % q;
    assert x * q < (y + 1) * q;
    MulCancel(x, y + 1, q);
  }

  lemma MulCancel(x: int, z: int, q: int)
    requires q > 0 && x * q < z * q
    ensures x < z
  {
    if x >= z {
      MulMonotone(z, x, q);
    }
  }

  lemma MulMonotone(z: int, x: int, q: int)
    requires q > 0 && z <= x
    ensures z * q <= x * q
  {
  }

  /** A longer duration never converts to fewer milliseconds. */
  lemma ToMillisMonotone(d1: int, d2: int, u: TimeUnit)
    requires IsLong(d1) && IsLong(d2) && d1 <= d2
    ensures ToMillis(d1, u) <= ToMillis(d2, u)
  {
    var ratio := MilliRatio(u);
    if FinerThanMillis(u) {
      TruncDivMonotone(d1, d2, ratio);
    } else if u != MILLISECONDS && -(LongMax / ratio) <= d1 && d2 <= LongMax / ratio {
      assert d1 * ratio <= d2 * ratio;
    }
  }
}
