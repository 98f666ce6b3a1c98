/** Facts about products and quotients of reals, kept apart so that the solver meets each only
    once. */
module Arithmetic {

  type NonNegative = x: real | 0.0 <= x

  lemma DivideNonNegative(x: real, y: real)
    requires 0.0 <= x && 0.0 < y
    ensures 0.0 <= x / y
  {}

  lemma TimesNonNegative(x: real, y: real)
    requires 0.0 <= x && 0.0 <= y
    ensures 0.0 <= x * y
  {}

  lemma Scale(x: real, y: real, u: real)
    ensures (x + y) * u == x * u + y * u
  {}

  lemma Weigh(x: real, y: real, z: real, w: real, u: real, t: real)
    requires t == (x + y) + w * z
    ensures x * u + w * (z * u) + y * u == t * u
  {
    Scale(x + y, w * z, u);
    Scale(x, y, u);
    Associate(w, z, u);
  }

  lemma Associate(x: real, y: real, z: real)
    ensures x * y * z == x * (y * z)
  {}

  lemma DivideBack(x: real, t: real)
    requires t != 0.0
    ensures t * (x / t) == x
  {}

  lemma DivideAdds(x: real, y: real, z: real)
    requires z != 0.0
    ensures (x + y) / z == x / z + y / z
  {}

  lemma QuotientAtMostOne(x: real, y: real)
    requires 0.0 <= x <= y && y > 0.0
    ensures x / y <= 1.0
  {}

  lemma ScaleDown(q: real, y: real)
    requires q <= 1.0 && 0.0 <= y
    ensures q * y <= y
  {}

  lemma Reorder(d: real, x: real, y: real)
    requires y != 0.0
    ensures d * x / y == x * (d / y)
  {
    assert d * x / y * y == d * x;
    assert x * (d / y) * y == x * (d / y * y) == x * d;
  }

  lemma Cancel(q: real, x: real)
    requires x != 0.0
    ensures x * q / x == q
  {}

  function Product(x: nat, y: nat): nat { x * y }

  lemma Euclid(x: nat, d: nat, q: nat, r: nat)
    requires d > 0 && q == x / d && r == x % d
    ensures x as real == d as real * q as real + r as real && r < d
  {}

  lemma Fraction(x: real, y: real)
    requires 0.0 <= x < y
    ensures 0.0 <= x / y < 1.0 && (x == 0.0 <==> x / y == 0.0)
  {
    DivideNonNegative(x, y);
    DivideBack(x, y);
    BelowOne(x / y, x, y);
  }

  lemma BelowOne(z: real, x: real, y: real)
    requires 0.0 <= x < y && y * z == x
    ensures z < 1.0 && (x == 0.0 <==> z == 0.0)
  {
    AtLeastOnce(z, y);
  }

  lemma AtLeastOnce(z: real, y: real)
    requires y > 0.0
    ensures z >= 1.0 ==> y * z >= y
    ensures z == 0.0 <==> y * z == 0.0
  {
    if z >= 1.0 {
      TimesNonNegative(z - 1.0, y);
      Scale(z - 1.0, 1.0, y);
    }
  }

  /** The share of a thread as a ratio of whole numbers: `a` tenths of weight out of `d`, for one of
      `t` threads. */
  lemma ShareRatio(weight: real, work: real, total: real, t: real, a: real, d: real)
    requires total > 0.0 && t > 0.0 && a == 10.0 * weight && d == 10.0 * total
    ensures d * t > 0.0 && weight * (work / total) / t == a * work / (d * t)
  {
    var y := weight * (work / total) / t;
    DivideBack(weight * (work / total), t);
    DivideBack(work, total);
    ScaleUp(weight, work / total, work, total, t, y);
    PositiveProduct(d, t);
    Unique(y, a * work, d * t);
  }

  lemma PositiveProduct(x: real, y: real)
    requires x > 0.0 && y > 0.0
    ensures x * y > 0.0
  {}

  lemma Unique(y: real, x: real, z: real)
    requires z > 0.0 && y * z == x
    ensures y == x / z
  {}

  lemma ScaleUp(w: real, u: real, work: real, total: real, t: real, y: real)
    requires t * y == w * u && total * u == work
    ensures y * (10.0 * total * t) == 10.0 * w * work
  {
    calc {
      y * (10.0 * total * t);
      10.0 * total * (t * y);
      10.0 * total * (w * u);
      10.0 * w * (total * u);
    }
  }

  lemma NonZeroProduct(x: real, y: real)
    requires x != 0.0 && y != 0.0
    ensures x * y != 0.0
  {}

  lemma ProductReal(x: nat, y: nat)
    ensures Product(x, y) as real == x as real * y as real
    ensures x > 0 && y > 0 ==> Product(x, y) > 0
  {}
}
