/** The buffers between the stages of the pipeline: sizes computed with 64-bit wrap-around, and
    one allocation carved into slices. */
module PipelineBuffers {
  import opened Counting

  const WORD := 0x1_0000_0000_0000_0000
  const UINT_MAX := 0xFFFF_FFFF
  const MAX_SIZE := 0x2_0000

  function Pow3(k: nat): nat { if k == 0 then 1 else 3 * Pow3(k - 1) }

  lemma {:induction false} Pow3Add(a: nat, b: nat)
    ensures Pow3(a + b) == Pow3(a) * Pow3(b)
  {
    if a > 0 {
      Pow3Add(a - 1, b);
      assert Pow3(a + b) == 3 * (Pow3(a - 1) * Pow3(b)) == (3 * Pow3(a - 1)) * Pow3(b);
    }
  }

  /** Powers up to the fortieth fit a 64-bit word. */
  lemma Pow3Fits(k: nat)
    requires k <= 40
    ensures Pow3(k) < WORD
  {
    Pow3Forty();
    Pow3Grows(k, 40);
  }

  lemma Pow3Forty()
    ensures Pow3(40) == 12157665459056928801 < WORD
  {
    Pow3Square(5, 243);
    Pow3Square(10, 59049);
    Pow3Square(20, 3486784401);
  }

  lemma Pow3Square(k: nat, x: nat)
    requires Pow3(k) == x
    ensures Pow3(k + k) == x * x
  {
    Pow3Add(k, k);
  }

  lemma {:induction false} Pow3Grows(k: nat, m: nat)
    requires k <= m
    ensures Pow3(k) <= Pow3(m)
  {
    if k < m { Pow3Grows(k, m - 1); }
  }

  lemma {:induction false} Pow3Odd(k: nat)
    ensures Pow3(k) % 2 == 1
  {
    if k > 0 { Pow3Odd(k - 1); }
  }

  /** A power of three is odd, and stays odd when it wraps around. */
  lemma Pow3WrapsOdd(k: nat)
    ensures Pow3(k) % WORD % 2 == 1
  {
    Pow3Odd(k);
    OddWraps(Pow3(k), Pow3(k) / WORD, Pow3(k) % WORD);
  }

  lemma OddWraps(x: nat, q: nat, r: nat)
    requires x == WORD * q + r && x % 2 == 1
    ensures r % 2 == 1
  {
    assert x == 2 * (0x8000_0000_0000_0000 * q) + r;
  }

  /** The size meant for the buffer at distance `d` from the last child. */
  function Capped(d: nat): nat { Min(Pow3(d + 4) % WORD, MAX_SIZE) }

  lemma WrapTriple(x: nat)
    ensures x % WORD * 3 % WORD == 3 * x % WORD
  {
    var q := x / WORD;
    assert x == WORD * q + x % WORD;
    assert 3 * x == WORD * (3 * q) + x % WORD * 3;
    WrapAdd(3 * q, x % WORD * 3);
  }

  lemma WrapAdd(q: nat, r: nat)
    ensures (WORD * q + r) % WORD == r % WORD
  {}

  lemma CappedRange(d: nat)
    ensures 1 <= Capped(d) <= MAX_SIZE
    ensures d <= 36 ==> Capped(d) == Min(Pow3(d + 4), MAX_SIZE)
  {
    Pow3WrapsOdd(d + 4);
    if d <= 36 { Pow3Fits(d + 4); }
  }

  /** bufferSize(n, i), multiplication by multiplication on a 64-bit word.  The branch for a
      negative distance cannot be reached, as `n - i` is unsigned. */
  method BufferSize(n: nat, i: nat) returns (size: nat)
    requires i <= n <= UINT_MAX
    ensures size == Capped(n - i)
    ensures 1 <= size <= MAX_SIZE
    ensures n - i <= 36 ==> size == Min(Pow3(n - i + 4), MAX_SIZE)
  {
    CappedRange(n - i);
    size := 3 * 3 * 3 * 3;
    var d := n - i;
    assert Pow3(4) == 81;
    while d > 0
      invariant 0 <= d <= n - i
      invariant size == Pow3(n - i - d + 4) % WORD
    {
      WrapTriple(Pow3(n - i - d + 4));
      size := size * 3 % WORD;
      d := d - 1;
    }
    if size > MAX_SIZE {
      size := MAX_SIZE;
    }
  }

  lemma NoWrap(total: nat, k: nat)
    requires total <= k * MAX_SIZE && k <= UINT_MAX
    ensures total % WORD == total
  {}

  /** The first loop of allocateBuffers; adding up the sizes does not overflow. */
  method FillSizes(n: nat, sizes: array<nat>) returns (total: nat)
    requires 2 <= n <= UINT_MAX && sizes.Length == n - 1
    modifies sizes
    ensures forall i :: 0 <= i < n - 1 ==> sizes[i] == Capped(n - i) && 1 <= sizes[i] <= MAX_SIZE
    ensures total == Sum(sizes[..]) < WORD
  {
    total := 0;
    var i := 0;
    while i < n - 1
      invariant 0 <= i <= n - 1
      invariant forall j :: 0 <= j < i ==> sizes[j] == Capped(n - j) && 1 <= sizes[j] <= MAX_SIZE
      invariant total == Sum(sizes[..i]) <= i * MAX_SIZE
    {
      ghost var before := sizes[..i];
      var size := BufferSize(n, i);
      sizes[i] := size;
      assert sizes[..i + 1] == before + [size];
      SumSnoc(before, size);
      NoWrap(total + size, i + 1);
      total := (total + size) % WORD;
      i := i + 1;
    }
    assert sizes[..] == sizes[..i];
  }

  /** allocateBuffers: `buffers[i]` is the offset of slice `i` in the allocation of `total`
      bytes. */
  method AllocateBuffers(n: nat) returns (buffers: array<nat>, sizes: array<nat>, total: nat)
    requires 2 <= n <= UINT_MAX
    ensures buffers.Length == sizes.Length == n - 1
    ensures forall i :: 0 <= i < n - 1 ==> sizes[i] == Capped(n - i) && 1 <= sizes[i] <= MAX_SIZE
    ensures forall i :: 0 <= i < n - 1 ==> buffers[i] == Sum(sizes[..i])
    ensures total == Sum(sizes[..]) < WORD
  {
    buffers, sizes := new nat[n - 1], new nat[n - 1];
    total := FillSizes(n, sizes);
    ghost var all := sizes[..];
    var offset := 0;
    var i := 0;
    while i < n - 1
      invariant 0 <= i <= n - 1
      invariant sizes[..] == all
      invariant offset == Sum(all[..i])
      invariant forall j :: 0 <= j < i ==> buffers[j] == Sum(all[..j])
      modifies buffers
    {
      buffers[i] := offset;
      assert all[..i + 1] == all[..i] + [all[i]];
      SumSnoc(all[..i], all[i]);
      offset := offset + sizes[i];
      i := i + 1;
    }
    assert forall j :: 0 <= j < n - 1 ==> sizes[..j] == all[..j];
  }

  /** The slice that byte `b` of the allocation belongs to. */
  predicate InSlice(sizes: seq<nat>, i: nat, b: nat)
    requires i < |sizes|
  {
    Sum(sizes[..i]) <= b < Sum(sizes[..i]) + sizes[i]
  }

  /** Every byte of the allocation lies in exactly one slice. */
  lemma {:induction false} SlicesPartition(sizes: seq<nat>, b: nat) returns (i: nat)
    requires b < Sum(sizes)
    ensures i < |sizes| && InSlice(sizes, i, b)
    ensures forall j :: 0 <= j < |sizes| && InSlice(sizes, j, b) ==> j == i
  {
    var init := sizes[..|sizes| - 1];
    assert sizes[..|sizes|] == sizes;
    SumNext(sizes, |sizes| - 1);
    forall j | 0 <= j <= |init|
      ensures sizes[..j] == init[..j]
    {}
    if b < Sum(init) {
      i := SlicesPartition(init, b);
      forall j | 0 <= j < |sizes| && InSlice(sizes, j, b)
        ensures j == i
      {
        if j < |init| { assert InSlice(init, j, b); }
      }
    } else {
      i := |init|;
      forall j | 0 <= j < |init|
        ensures !InSlice(sizes, j, b)
      {
        SumPrefix(init, j + 1);
        SumNext(init, j);
      }
    }
  }
}
