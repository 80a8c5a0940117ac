/**
 * The few pieces of Java arithmetic the integration relies on, with Java's
 * doubles modelled as `real` (no rounding, no NaN, no infinities).
 */
module JavaNumeric {

  /** Bounds of Java's 32-bit `int`. */
  const IntMax: int := 0x7FFF_FFFF
  const IntMin: int := -0x8000_0000

  /** `Math.max(double, double)`. */
  function Max(a: real, b: real): (r: real)
    ensures r >= a && r >= b
    ensures r == a || r == b
  {
    if a >= b then a else b
  }

  /** `Math.min(double, double)`. */
  function Min(a: real, b: real): (r: real)
    ensures r <= a && r <= b
    ensures r == a || r == b
  {
    if a <= b then a else b
  }

  /** `Math.max(int, int)`. */
  function MaxInt(a: int, b: int): (r: int)
    ensures r >= a && r >= b
    ensures r == a || r == b
  {
    if a >= b then a else b
  }

  /** `Math.abs(double)`. */
  function Abs(x: real): (r: real)
    ensures r >= 0.0
    ensures r == x || r == -x
  {
    if x >= 0.0 then x else -x
  }

  /**
   * The expression `Math.max(lo, Math.min(hi, x))` the source uses for every
   * scale factor: `x` limited to the band [lo, hi].
   */
  function Clamp(lo: real, hi: real, x: real): (r: real)
    requires lo <= hi
    ensures lo <= r <= hi
    ensures lo <= x <= hi ==> r == x
    ensures x < lo ==> r == lo
    ensures x > hi ==> r == hi
  {
    Max(lo, Min(hi, x))
  }

  /** A clamp never reverses the order of its inputs. */
  lemma ClampMonotonic(lo: real, hi: real, x: real, y: real)
    requires lo <= hi && x <= y
    ensures Clamp(lo, hi, x) <= Clamp(lo, hi, y)
  {
  }

  /**
   * The narrowing cast `(int) d` of a double: rounds toward zero and
   * saturates at the bounds of `int`.
   */
  function ToInt(x: real): (r: int)
    ensures IntMin <= r <= IntMax
    ensures 0.0 <= x < IntMax as real ==> r as real <= x < r as real + 1.0
    ensures IntMin as real < x <= 0.0 ==> r as real - 1.0 < x <= r as real
    ensures x >= IntMax as real ==> r == IntMax
    ensures x <= IntMin as real ==> r == IntMin
  {
    if x >= IntMax as real then IntMax
    else if x <= IntMin as real then IntMin
    else if x >= 0.0 then x.Floor
    else -((-x).Floor)
  }

  /** On values that fit, the cast of a non-negative double is its floor. */
  lemma ToIntIsFloor(x: real)
    requires 0.0 <= x < IntMax as real
    ensures ToInt(x) == x.Floor
  {
  }

  /** The cast is monotonic, so bounds on a double carry over to its cast. */
  lemma ToIntMonotonic(x: real, y: real)
    requires x <= y
    ensures ToInt(x) <= ToInt(y)
  {
  }

  /** A non-negative double below `hi + 1` and at least `lo` casts to an int in [lo, hi]. */
  lemma CastBetween(lo: int, x: real, hi: int)
    requires 0 <= lo && hi < IntMax
    requires lo as real <= x < hi as real + 1.0
    ensures lo <= ToInt(x) <= hi
  {
    ToIntMonotonic(lo as real, x);
    ToIntOfInt(lo);
  }

  /** The product of two non-negative doubles is non-negative. */
  lemma NonNegProduct(a: real, b: real)
    requires a >= 0.0 && b >= 0.0
    ensures a * b >= 0.0
  {
  }

  /** Scaling by a non-negative factor keeps the order of three values. */
  lemma ScaledBetween(b: real, lo: real, x: real, hi: real)
    requires b >= 0.0 && lo <= x <= hi
    ensures b * lo <= b * x <= b * hi
  {
    NonNegProduct(b, x - lo);
    assert b * (x - lo) == b * x - b * lo;
    NonNegProduct(b, hi - x);
    assert b * (hi - x) == b * hi - b * x;
  }

  /** A whole number survives the cast unchanged. */
  lemma ToIntOfInt(n: int)
    requires IntMin <= n <= IntMax
    ensures ToInt(n as real) == n
  {
  }
}
