/** Facts about real arithmetic that the solver does not find by itself:
    signs of products and quotients. Each product is named by a parameter
    where the solver would otherwise have to reason about the product term. */
module Arith {

  /** Python's `abs` on floats. */
  function Abs(x: real): (r: real)
    ensures r >= 0.0 && (r == x || r == -x)
  {
    if x < 0.0 then -x else x
  }

  /** a/d for 0 < a < d lies in (0, 1), and it is at least (at most) 1/2
      exactly when 2a is at least (at most) d. */
  lemma QuotientBounds(a: real, d: real)
    requires 0.0 < a < d
    ensures 0.0 < a / d < 1.0
    ensures 2.0 * a >= d ==> a / d >= 0.5
    ensures 2.0 * a <= d ==> a / d <= 0.5
  {
    var q := a / d;
    assert q * d == a;
    assert q <= 0.0 ==> (-q) * d >= 0.0;
    assert q >= 1.0 ==> (q - 1.0) * d >= 0.0;
    assert (q - 0.5) * d == a - 0.5 * d;
    assert q < 0.5 ==> (q - 0.5) * d < 0.0;
    assert q > 0.5 ==> (q - 0.5) * d > 0.0;
    if 2.0 * a >= d {
      assert a - 0.5 * d >= 0.0;
      assert (q - 0.5) * d >= 0.0;
      assert q >= 0.5;
    }
  }

  lemma SquarePositive(x: real, y: real)
    requires x != 0.0 && y == x * x
    ensures y > 0.0
  {
    if x > 0.0 {
      PositiveProduct(x, x, y);
    } else {
      PositiveProduct(-x, -x, y);
    }
  }

  /** The product is named by a parameter of its own, so that the solver
      needs no reasoning about the product term itself. */
  lemma PositiveProduct(a: real, b: real, p: real)
    requires a > 0.0 && b > 0.0 && p == a * b
    ensures p > 0.0
  {
  }

  /** Signs of a product. */
  lemma MulSigns(a: real, b: real)
    ensures a > 0.0 && b > 0.0 ==> a * b > 0.0
    ensures a > 0.0 && b < 0.0 ==> a * b < 0.0
    ensures a < 0.0 && b < 0.0 ==> a * b > 0.0
    ensures a >= 0.0 && b >= 0.0 ==> a * b >= 0.0
    ensures a >= 0.0 && b <= 0.0 ==> a * b <= 0.0
  {
  }

  lemma Reciprocal(d: real)
    requires d > 0.0
    ensures 1.0 / d > 0.0 && (1.0 / d) * d == 1.0
  {
    var k := 1.0 / d;
    assert k * d == 1.0;
    if k <= 0.0 {
      MulSigns(d, -k);
    }
  }

  /** At least lo, r scaled by a non-negative w is at least lo*w; p names
      the product. */
  lemma ScaledAbove(r: real, w: real, p: real, lo: real)
    requires w >= 0.0 && lo <= r && p == r * w
    ensures lo * w <= p
  {
    MulSigns(r - lo, w);
  }

  /** At most hi, r scaled by a non-negative w is at most hi*w. */
  lemma ScaledBelow(r: real, w: real, p: real, hi: real)
    requires w >= 0.0 && r <= hi && p == r * w
    ensures p <= hi * w
  {
    MulSigns(hi - r, w);
  }

  /** Lower bounds k*w0 <= p0 and k*w <= p add up. */
  lemma StepAbove(w0: real, p0: real, w: real, p: real, wSum: real, pSum: real, k: real)
    requires k * w0 <= p0 && k * w <= p
    requires wSum == w0 + w && pSum == p0 + p
    ensures k * wSum <= pSum
  {
    Distribute(k, w0, w, wSum);
  }

  /** Upper bounds p0 <= k*w0 and p <= k*w add up. */
  lemma StepBelow(w0: real, p0: real, w: real, p: real, wSum: real, pSum: real, k: real)
    requires p0 <= k * w0 && p <= k * w
    requires wSum == w0 + w && pSum == p0 + p
    ensures pSum <= k * wSum
  {
    Distribute(k, w0, w, wSum);
  }

  /** Dividing bounds lo*s and hi*s on x by a positive s. */
  lemma QuotientBetween(x: real, s: real, lo: real, hi: real)
    requires s > 0.0 && lo * s <= x <= hi * s
    ensures lo <= x / s <= hi
  {
    var q := x / s;
    assert q * s == x;
    if q < lo {
      MulSigns(lo - q, s);
    }
    if q > hi {
      MulSigns(q - hi, s);
    }
  }

  /** x = c*s with s non-zero gives x/s = c. */
  lemma CancelFactor(x: real, c: real, s: real)
    requires s != 0.0 && x == c * s
    ensures x / s == c
  {
    var q := x / s;
    assert q * s == x;
    assert (q - c) * s == 0.0;
  }

  lemma ScaleEntry(r: real, c: real, w: real, p: real)
    requires r == c && p == r * w
    ensures p == c * w
  {
  }

  lemma Distribute(k: real, a: real, b: real, s: real)
    requires s == a + b
    ensures k * s == k * a + k * b
  {
  }
}
