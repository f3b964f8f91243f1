/**
 * Real-arithmetic facts shared by the calculator's formulas: order is kept by
 * scaling with non-negative factors and by division with positive divisors, and
 * a percentage in [0, 100] of a weight is a share of that weight.
 */
module Arith {

  /** The smaller of two reals (`Math.min`). */
  function MinReal(x: real, y: real): real { if x <= y then x else y }

  /** The larger of two reals (`Math.max`). */
  function MaxReal(x: real, y: real): real { if x >= y then x else y }

  /** Equal values scale to equal products. */
  lemma ScaleEqual(x: real, y: real, w: real)
    requires x == y
    ensures x * w == y * w
  {
  }

  /** Scaling by a non-negative factor keeps the order. */
  lemma ScaleMonotone(x: real, y: real, w: real)
    requires x <= y && 0.0 <= w
    ensures x * w <= y * w
  {
  }

  /** A quotient by a positive divisor lies in [lo, hi] when the dividend lies in [lo, hi] times the divisor. */
  lemma DivideWithin(x: real, p: real, lo: real, hi: real)
    requires p > 0.0 && lo * p <= x <= hi * p
    ensures lo <= x / p <= hi
  {
    assert (x / p) * p == x;
    if x / p < lo {
      ScaleMonotone(x / p, lo, p);
    }
    if x / p > hi {
      ScaleMonotone(hi, x / p, p);
    }
  }

  /** Dividing by a positive number keeps the order. */
  lemma DivideMonotone(x: real, y: real, p: real)
    requires x <= y && p > 0.0
    ensures x / p <= y / p
  {
  }

  /** The percentage `e` of the weight `w`. */
  function Share(e: real, w: real): real {
    (e / 100.0) * w
  }

  /** A percentage in [0, 100] of a non-negative weight lies between 0 and the weight, and 0% is nothing. */
  lemma ShareOfWeight(e: real, w: real)
    requires 0.0 <= e <= 100.0 && w >= 0.0
    ensures 0.0 <= Share(e, w) <= w
    ensures e == 0.0 ==> Share(e, w) == 0.0
  {
    var f := e / 100.0;
    ScaleMonotone(0.0, f, w);
    ScaleMonotone(f, 1.0, w);
  }

  /** A larger percentage of a non-negative weight is a larger share. */
  lemma ShareMonotone(e: real, e': real, w: real)
    requires e <= e' && w >= 0.0
    ensures Share(e, w) <= Share(e', w)
  {
    ScaleMonotone(e / 100.0, e' / 100.0, w);
  }

  /** The source's inline share of a weight equals `Share` of an equal percentage. */
  lemma ShareEqual(e: real, e': real, w: real)
    requires e == e'
    ensures (e / 100.0) * w == Share(e', w)
  {
  }

  /** A value in [0, hi] scaled by a non-negative factor lies in [0, factor * hi]. */
  lemma ScaleBetween(x: real, hi: real, n: real)
    requires 0.0 <= x <= hi && n >= 0.0
    ensures 0.0 <= x * n <= n * hi
  {
    ScaleMonotone(0.0, x, n);
    ScaleMonotone(x, hi, n);
  }

  /** The product of two non-negative reals is non-negative. */
  lemma ProductNonNegative(x: real, y: real)
    requires x >= 0.0 && y >= 0.0
    ensures x * y >= 0.0
  {
    ScaleMonotone(0.0, x, y);
  }

  /** Products of equal factors are equal. */
  lemma ProductEqual(x: real, x': real, y: real, y': real)
    requires x == x' && y == y'
    ensures x * y == x' * y'
  {
  }
}
