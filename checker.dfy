/** The procedural checkerboard texture: 64 x 64 RGB texels, each channel
    255 or 0 depending on bit 3 of the row and column indices. */
module Checker {

  /** An unsigned 8-bit channel value (GLubyte). */
  newtype Byte = x: int | 0 <= x < 256

  const TexWidth: nat := 64
  const TexHeight: nat := 64
  const Channels: nat := 3

  /** The bit test (n & 0x8) != 0 on a C int; for an index below 64 it
      says whether the index lies in an odd-numbered run of eight. */
  predicate Bit3Set(n: int)
    requires 0 <= n < 64
    ensures Bit3Set(n) <==> (n / 8) % 2 == 1
  {
    var b := n as bv32;
    assert b < 64;
    assert (b & 8 == 0) <==> (b / 8) % 2 == 0;
    assert ((b / 8) % 2) as int == (n / 8) % 2;
    b & 0x8 != 0
  }

  /** The channel value at row i, column j: white when exactly one of the
      two indices has bit 3 set, black otherwise, so the texture is made
      of alternating 8 x 8 blocks. */
  function Texel(i: int, j: int): (c: Byte)
    requires 0 <= i < TexHeight && 0 <= j < TexWidth
    ensures c == 255 <==> (i / 8) % 2 != (j / 8) % 2
    ensures c == 0 <==> (i / 8) % 2 == (j / 8) % 2
  {
    if !Bit3Set(i) != !Bit3Set(j) then 255 else 0
  }

  /** Texels in the same 8 x 8 block agree. */
  lemma CheckerBlockUniform(i: int, j: int)
    requires 0 <= i < TexHeight && 0 <= j < TexWidth
    ensures Texel(i, j) == Texel(8 * (i / 8), 8 * (j / 8))
  {
    var bi, bj := i / 8, j / 8;
    assert (8 * bi) / 8 == bi && (8 * bj) / 8 == bj;
  }

  /** A texel differs from the one eight rows below it. */
  lemma CheckerAlternatesDown(i: int, j: int)
    requires 0 <= i && i + 8 < TexHeight && 0 <= j < TexWidth
    ensures Texel(i + 8, j) != Texel(i, j)
  {
    var bi := i / 8;
    assert (i + 8) / 8 == bi + 1;
    assert (bi + 1) % 2 != bi % 2;
  }

  /** A texel differs from the one eight columns to its right. */
  lemma CheckerAlternatesAcross(i: int, j: int)
    requires 0 <= i < TexHeight && 0 <= j && j + 8 < TexWidth
    ensures Texel(i, j + 8) != Texel(i, j)
  {
    var bj := j / 8;
    assert (j + 8) / 8 == bj + 1;
    assert (bj + 1) % 2 != bj % 2;
  }

  /** Writes the three channels of every texel of row i. */
  method FillRow(data: array3<Byte>, i: nat)
    requires data.Length0 == TexHeight && data.Length1 == TexWidth && data.Length2 == Channels
    requires i < TexHeight
    modifies data
    ensures forall q, k :: 0 <= q < TexWidth && 0 <= k < Channels ==> data[i, q, k] == Texel(i, q)
    ensures forall r, q, k :: 0 <= r < TexHeight && r != i && 0 <= q < TexWidth && 0 <= k < Channels ==>
      data[r, q, k] == old(data[r, q, k])
  {
    var j := 0;
    while j < TexWidth
      invariant 0 <= j <= TexWidth
      invariant forall q, k :: 0 <= q < j && 0 <= k < Channels ==> data[i, q, k] == Texel(i, q)
      invariant forall r, q, k :: 0 <= r < TexHeight && r != i && 0 <= q < TexWidth && 0 <= k < Channels ==>
        data[r, q, k] == old(data[r, q, k])
    {
      var c := Texel(i, j);
      data[i, j, 0] := c;
      data[i, j, 1] := c;
      data[i, j, 2] := c;
      j := j + 1;
    }
  }

  /** Fills the texture buffer row by row, all three channels of a texel
      with the same value. */
  method MakeChecker() returns (data: array3<Byte>)
    ensures data.Length0 == TexHeight && data.Length1 == TexWidth && data.Length2 == Channels
    ensures forall i, j, k :: 0 <= i < TexHeight && 0 <= j < TexWidth && 0 <= k < Channels ==>
      data[i, j, k] == Texel(i, j)
  {
    data := new Byte[TexHeight, TexWidth, Channels];
    var i := 0;
    while i < TexHeight
      invariant 0 <= i <= TexHeight
      invariant forall r, q, k :: 0 <= r < i && 0 <= q < TexWidth && 0 <= k < Channels ==>
        data[r, q, k] == Texel(r, q)
    {
      FillRow(data, i);
      i := i + 1;
    }
  }
}
