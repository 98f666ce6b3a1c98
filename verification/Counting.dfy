/** Small counting helpers that several models share. */
module Counting {

  function One(b: bool): nat { if b then 1 else 0 }

  function Min(x: nat, y: nat): nat { if x < y then x else y }

  function Indices(n: nat): (s: set<nat>)
    ensures forall i :: i in s <==> 0 <= i < n
  {
    if n == 0 then {} else Indices(n - 1) + {n - 1}
  }

  function Sum(xs: seq<nat>): nat { if xs == [] then 0 else xs[0] + Sum(xs[1..]) }

  lemma {:induction false} SumSnoc(xs: seq<nat>, x: nat)
    ensures Sum(xs + [x]) == Sum(xs) + x
  {
    if xs == [] {
      assert [x][1..] == [];
    } else {
      assert (xs + [x])[1..] == xs[1..] + [x];
      SumSnoc(xs[1..], x);
    }
  }

  lemma SumNext(xs: seq<nat>, k: nat)
    requires k < |xs|
    ensures Sum(xs[..k + 1]) == Sum(xs[..k]) + xs[k]
  {
    assert xs[..k + 1] == xs[..k] + [xs[k]];
    SumSnoc(xs[..k], xs[k]);
  }

  lemma {:induction false} SumPrefix(xs: seq<nat>, k: nat)
    requires k <= |xs|
    ensures Sum(xs[..k]) <= Sum(xs)
    decreases |xs| - k
  {
    if k < |xs| {
      SumNext(xs, k);
      SumPrefix(xs, k + 1);
    } else {
      assert xs[..k] == xs;
    }
  }
}
