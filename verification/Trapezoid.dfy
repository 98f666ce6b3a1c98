/** The trapezoid rule over exact reals. */
module Trapezoid {
  import opened Arithmetic

  /** One trapezoid of width `h` from `x`. */
  function Piece(f: real -> real, x: real, h: real): real { (f(x + h) + f(x)) / 2.0 * h }

  /** The grid point `i` steps of width `h` from `a`. */
  function At(a: real, h: real, i: nat): real { if i == 0 then a else At(a, h, i - 1) + h }

  /** The sum of `n` trapezoids of width `h` from `a` on. */
  function Trap(f: real -> real, a: real, h: real, n: nat): real {
    if n == 0 then 0.0 else Trap(f, a, h, n - 1) + Piece(f, At(a, h, n - 1), h)
  }

  /** `x / n`.  The source divides by zero only where no step uses the quotient. */
  function Quotient(x: real, n: nat): real { if n == 0 then 0.0 else x / n as real }

  lemma {:induction false} AtIs(a: real, h: real, i: nat)
    ensures At(a, h, i) == a + i as real * h
  {
    if i > 0 {
      AtIs(a, h, i - 1);
      Shift(i - 1, 1, h);
    }
  }

  lemma {:induction false} AtAdds(a: real, h: real, i: nat, j: nat)
    ensures At(a, h, i + j) == At(At(a, h, i), h, j)
    decreases j
  {
    if j > 0 {
      AtAdds(a, h, i, j - 1);
    }
  }

  /** With `n` steps the grid ends at the end of the interval. */
  lemma GridEnds(a: real, b: real, n: nat)
    requires n > 0
    ensures At(a, Quotient(b - a, n), n) == b
  {
    AtIs(a, Quotient(b - a, n), n);
    DivideBack(b - a, n as real);
  }

  lemma TrapNext(f: real -> real, a: real, h: real, i: nat, x: real)
    requires x == At(a, h, i)
    ensures Trap(f, a, h, i + 1) == Trap(f, a, h, i) + Piece(f, x, h)
    ensures At(a, h, i + 1) == x + h
  {}

  /** trapezoidIntegrate: the loop that walks `x` and reuses the last value of `f`. */
  method TrapezoidIntegrate(f: real -> real, a: real, b: real, n: nat) returns (s: real)
    ensures s == Trap(f, a, Quotient(b - a, n), n)
  {
    s := 0.0;
    var step := Quotient(b - a, n);
    var x := a;
    var fc := f(x);
    var i := 0;
    while i < n
      invariant 0 <= i <= n
      invariant x == At(a, step, i) && fc == f(x)
      invariant s == Trap(f, a, step, i)
    {
      TrapNext(f, a, step, i, x);
      x := x + step;
      var fn := f(x);
      assert Piece(f, At(a, step, i), step) == (fn + fc) / 2.0 * step;
      s := s + (fn + fc) / 2.0 * step;
      fc := fn;
      i := i + 1;
    }
  }

  /** Consecutive pieces of one step width add up. */
  lemma {:induction false} TrapSplit(f: real -> real, a: real, h: real, m: nat, k: nat)
    ensures Trap(f, a, h, m + k) == Trap(f, a, h, m) + Trap(f, At(a, h, m), h, k)
    decreases k
  {
    if k > 0 {
      TrapSplit(f, a, h, m, k - 1);
      AtAdds(a, h, m, k - 1);
    }
  }

  lemma Shift(m: nat, k: nat, h: real)
    ensures (m + k) as real * h == m as real * h + k as real * h
  {}

  /** The part of an interval of length `d` that `k` of its `n` steps take. */
  function Stretch(d: real, k: nat, n: nat): real { Quotient(d * k as real, n) }

  /** A piece of `k` of the `n` steps has the same step width. */
  lemma SameStep(d: real, k: nat, n: nat)
    requires n > 0
    ensures Stretch(d, k, n) == k as real * Quotient(d, n)
    ensures k > 0 ==> Quotient(Stretch(d, k, n), k) == Quotient(d, n)
  {
    Reorder(d, k as real, n as real);
    if k > 0 { Cancel(Quotient(d, n), k as real); }
  }

  lemma StretchAdds(d: real, j: nat, k: nat, n: nat)
    requires n > 0
    ensures Stretch(d, j + k, n) == Stretch(d, j, n) + Stretch(d, k, n)
  {
    SameStep(d, j, n);
    SameStep(d, k, n);
    SameStep(d, j + k, n);
    Shift(j, k, Quotient(d, n));
  }

  /** Computing the piece from `a` to `b` on its own gives the trapezoids of steps `before` to
      `before + k` of the whole. */
  lemma PieceAddsUp(f: real -> real, l: real, d: real, n: nat, before: nat, k: nat, a: real, b: real)
    requires n > 0 && k > 0
    requires a == l + Stretch(d, before, n) && b - a == Stretch(d, k, n)
    ensures Trap(f, l, Quotient(d, n), before) + Trap(f, a, Quotient(b - a, k), k)
         == Trap(f, l, Quotient(d, n), before + k)
  {
    var h := Quotient(d, n);
    PieceStep(d, n, before, k, l, a, b);
    TrapSplit(f, l, h, before, k);
  }

  lemma PieceStep(d: real, n: nat, before: nat, k: nat, l: real, a: real, b: real)
    requires n > 0 && k > 0
    requires a == l + Stretch(d, before, n) && b - a == Stretch(d, k, n)
    ensures a == At(l, Quotient(d, n), before) && Quotient(b - a, k) == Quotient(d, n)
  {
    SameStep(d, before, n);
    SameStep(d, k, n);
    AtIs(l, Quotient(d, n), before);
  }
}
