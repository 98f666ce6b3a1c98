/** Bits and bytes of the signal transfer: the masks the signal handlers apply, and why setting
    every bit makes the bytes equal. */
module SignalBits {

  const CHAR_BIT := 8

  /** The bits of `n` bytes, the byte that bit `j` lies in, and its place there, for a CHAR_BIT of
      eight. */
  function BitCount(n: nat): nat { 8 * n }

  function ByteOf(j: nat): nat { j / 8 }

  function PlaceOf(j: nat): nat { j % 8 }

  /** `1u << k` for a bit of a byte. */
  function Mask(k: nat): bv8
    requires k < CHAR_BIT
  {
    (1 as bv8) << k
  }

  /** Bit `j` of the bytes, lowest bit of the first byte first. */
  predicate BitAt(data: seq<bv8>, j: nat)
    requires j < BitCount(|data|)
  {
    data[ByteOf(j)] & Mask(PlaceOf(j)) != 0
  }

  /** What `recieve0Handler` and `recieve1Handler` do to the data for bit `j`. */
  function PutBit(data: seq<bv8>, j: nat, b: bool): (r: seq<bv8>)
    requires j < BitCount(|data|)
    ensures |r| == |data|
  {
    var was := data[ByteOf(j)];
    var mask := Mask(PlaceOf(j));
    data[ByteOf(j) := if b then was | mask else was & (0xFF ^ mask)]
  }

  lemma MaskTable(k: nat)
    requires k < CHAR_BIT
    ensures Mask(k) == [1, 2, 4, 8, 16, 32, 64, 128][k]
  {
    if k == 0 {} else if k == 1 {} else if k == 2 {} else if k == 3 {}
    else if k == 4 {} else if k == 5 {} else if k == 6 {} else {}
  }

  /** Within one byte, setting bit `k` sets that bit and no other. */
  lemma ByteBits(x: bv8, k: nat, i: nat, b: bool)
    requires k < CHAR_BIT && i < CHAR_BIT
    ensures var y := if b then x | Mask(k) else x & (0xFF ^ Mask(k));
            (y & Mask(i) != 0) == if i == k then b else x & Mask(i) != 0
  {
    MaskTable(k);
    MaskTable(i);
  }

  /** `PutBit` changes exactly one bit. */
  lemma PutBitAt(data: seq<bv8>, j: nat, b: bool, i: nat)
    requires j < BitCount(|data|) && i < BitCount(|data|)
    ensures BitAt(PutBit(data, j, b), i) == if i == j then b else BitAt(data, i)
  {
    if ByteOf(i) == ByteOf(j) {
      ByteBits(data[ByteOf(j)], PlaceOf(j), PlaceOf(i), b);
    }
  }

  lemma ByteFromBits(x: bv8, y: bv8)
    requires forall k :: 0 <= k < CHAR_BIT ==> (x & Mask(k) != 0) == (y & Mask(k) != 0)
    ensures x == y
  {
    MaskTable(0); MaskTable(1); MaskTable(2); MaskTable(3);
    MaskTable(4); MaskTable(5); MaskTable(6); MaskTable(7);
    assert forall k :: k in [0, 1, 2, 3, 4, 5, 6, 7] ==> (x & Mask(k) != 0) == (y & Mask(k) != 0);
    assert (x & 1 != 0) == (y & 1 != 0) && (x & 2 != 0) == (y & 2 != 0)
        && (x & 4 != 0) == (y & 4 != 0) && (x & 8 != 0) == (y & 8 != 0)
        && (x & 16 != 0) == (y & 16 != 0) && (x & 32 != 0) == (y & 32 != 0)
        && (x & 64 != 0) == (y & 64 != 0) && (x & 128 != 0) == (y & 128 != 0);
  }

  predicate SameBits(a: seq<bv8>, b: seq<bv8>, n: nat)
    requires n <= BitCount(|a|) && n <= BitCount(|b|)
  {
    forall j :: 0 <= j < n ==> BitAt(a, j) == BitAt(b, j)
  }

  /** Bytes all of whose bits agree are equal. */
  lemma SameBitsSameBytes(a: seq<bv8>, b: seq<bv8>, n: nat)
    requires n <= |a| && n <= |b|
    requires SameBits(a, b, BitCount(n))
    ensures a[..n] == b[..n]
  {
    forall i | 0 <= i < n
      ensures a[i] == b[i]
    {
      forall k | 0 <= k < CHAR_BIT
        ensures (a[i] & Mask(k) != 0) == (b[i] & Mask(k) != 0)
      {
        assert BitAt(a, BitCount(i) + k) == BitAt(b, BitCount(i) + k);
      }
      ByteFromBits(a[i], b[i]);
    }
  }

  /** Receiving bit `n` of `src` extends the part that agrees. */
  lemma ReceiveNextBit(dst: seq<bv8>, src: seq<bv8>, n: nat)
    requires n < BitCount(|dst|) && n < BitCount(|src|)
    requires SameBits(dst, src, n)
    ensures SameBits(PutBit(dst, n, BitAt(src, n)), src, n + 1)
  {
    forall j | 0 <= j < n + 1
      ensures BitAt(PutBit(dst, n, BitAt(src, n)), j) == BitAt(src, j)
    {
      PutBitAt(dst, n, BitAt(src, n), j);
    }
  }

  /** The value of an unsigned byte, by counting up to it. */
  function ByteValue(b: bv8): nat
    decreases b
  {
    if b == 0 then 0 else ByteValue(b - 1) + 1
  }

  lemma {:induction false} ByteValueIs(b: bv8)
    ensures ByteValue(b) == b as nat < 256
    decreases b
  {
    if b != 0 {
      ByteValueIs(b - 1);
      NextByte(b - 1);
    }
  }

  lemma NextByte(b: bv8)
    requires b != 255
    ensures (b + 1) as nat == b as nat + 1
  {}

  /** The byte with value `x`. */
  function ToByte(x: nat): (b: bv8)
    requires x < 256
    ensures ByteValue(b) == x
  {
    if x == 0 then 0
    else
      var b := ToByte(x - 1);
      ByteValueIs(b);
      assert b != 255;
      b + 1
  }

  /** The two bytes of an `unsigned short`, low byte first. */
  function ShortBytes(n: nat): (r: seq<bv8>)
    requires n < 0x10000
    ensures |r| == 2
  {
    [ToByte(n % 256), ToByte(n / 256)]
  }

  function ShortValue(bytes: seq<bv8>): (n: nat)
    requires |bytes| == 2
    ensures n < 0x10000
  {
    ByteValueIs(bytes[0]);
    ByteValueIs(bytes[1]);
    ByteValue(bytes[0]) + 256 * ByteValue(bytes[1])
  }

  lemma ShortRoundTrip(n: nat)
    requires n < 0x10000
    ensures ShortValue(ShortBytes(n)) == n
  {
    var bytes := ShortBytes(n);
    assert ByteValue(bytes[0]) == n % 256 && ByteValue(bytes[1]) == n / 256;
  }
}
