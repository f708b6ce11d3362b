/**
 The raw contents of a disk block: 512 bytes, read and written through four
 views (bitmap bits, 16-bit and 32-bit little-endian fields, directory entries,
 64-byte dinodes).  Each view obeys the laws of a lens: a write is what a later
 read of the same position returns, and every other position is untouched.
 */
module Bytes {

  type byte = x: int | 0 <= x < 256

  const BSIZE := 512
  const BPB := 4096
  const DIRSIZ := 14
  const DIRENT_SIZE := 16
  const DPB := 32

  const U16 := 0x1_0000
  const U32 := 0x1_0000_0000

  function Min(a: nat, b: nat): nat { if a < b then a else b }

  type Block = s: seq<byte> | |s| == 512 witness seq(512, _ => 0)

  function ZeroBlock(): Block { seq(512, _ => 0) }

  // ---------------------------------------------------------------- bits

  function BitOf(x: nat, k: nat): bool
    decreases k
  {
    if k == 0 then x % 2 == 1 else BitOf(x / 2, k - 1)
  }

  function WithBit(x: nat, k: nat, on: bool): nat
    decreases k
  {
    if k == 0 then x / 2 * 2 + (if on then 1 else 0)
    else WithBit(x / 2, k - 1, on) * 2 + x % 2
  }

  function Pow2(k: nat): nat {
    if k == 0 then 1 else 2 * Pow2(k - 1)
  }

  lemma {:induction false} WithBitBound(x: nat, k: nat, on: bool, width: nat)
    requires k < width && x < Pow2(width)
    ensures WithBit(x, k, on) < Pow2(width)
  {
    if k != 0 {
      WithBitBound(x / 2, k - 1, on, width - 1);
    }
  }

  lemma {:induction false} WithBitLaw(x: nat, k: nat, on: bool, j: nat)
    ensures BitOf(WithBit(x, k, on), j) == if j == k then on else BitOf(x, j)
  {
    if j != 0 {
      assert k == 0 ==> WithBit(x, k, on) / 2 == x / 2;
      if k != 0 {
        WithBitLaw(x / 2, k - 1, on, j - 1);
      }
    }
  }

  lemma {:induction false} ZeroHasNoBits(k: nat)
    ensures !BitOf(0, k)
  {
    if k != 0 {
      ZeroHasNoBits(k - 1);
    }
  }

  /** Bit `i` of a bitmap block, in the little-endian order of `set_bit_le`. */
  function BlockBit(blk: Block, i: nat): bool
    requires i < BPB
  {
    BitOf(blk[i / 8], i % 8)
  }

  function SetBlockBit(blk: Block, i: nat, on: bool): (r: Block)
    requires i < BPB
    ensures forall j: nat :: j < BPB ==> BlockBit(r, j) == if j == i then on else BlockBit(blk, j)
  {
    assert Pow2(8) == 256;
    WithBitBound(blk[i / 8], i % 8, on, 8);
    var r := blk[i / 8 := WithBit(blk[i / 8], i % 8, on)];
    assert forall j: nat :: j < BPB ==> BlockBit(r, j) == if j == i then on else BlockBit(blk, j) by {
      forall j: nat | j < BPB ensures BlockBit(r, j) == if j == i then on else BlockBit(blk, j) {
        WithBitLaw(blk[i / 8], i % 8, on, j % 8);
        assert j == j / 8 * 8 + j % 8 && i == i / 8 * 8 + i % 8;
      }
    }
    r
  }

  // ------------------------------------------- little-endian 16/32-bit fields

  function HalfAt(s: seq<byte>, i: nat): (h: nat)
    requires 2 * i + 2 <= |s|
    ensures h < U16
  {
    (s[2 * i] as int) + 256 * (s[2 * i + 1] as int)
  }

  function SetHalf(s: seq<byte>, i: nat, h: nat): (r: seq<byte>)
    requires 2 * i + 2 <= |s| && h < U16
    ensures |r| == |s| && HalfAt(r, i) == h
    ensures forall k: nat :: k < |s| && k != 2 * i && k != 2 * i + 1 ==> r[k] == s[k]
  {
    s[2 * i := h % 256][2 * i + 1 := h / 256]
  }

  function WordAt(s: seq<byte>, i: nat): (w: nat)
    requires 4 * i + 4 <= |s|
    ensures w < U32
  {
    (s[4 * i] as int) + 0x100 * (s[4 * i + 1] as int)
    + 0x1_0000 * (s[4 * i + 2] as int) + 0x100_0000 * (s[4 * i + 3] as int)
  }

  function SetWord(s: seq<byte>, i: nat, w: nat): (r: seq<byte>)
    requires 4 * i + 4 <= |s| && w < U32
    ensures |r| == |s|
    ensures forall j: nat :: 4 * j + 4 <= |s| ==> WordAt(r, j) == if j == i then w else WordAt(s, j)
    ensures forall k: nat :: k < |s| && !(4 * i <= k < 4 * i + 4) ==> r[k] == s[k]
  {
    s[4 * i := w % 256][4 * i + 1 := w / 0x100 % 256][4 * i + 2 := w / 0x1_0000 % 256][4 * i + 3 := w / 0x100_0000]
  }

  // ------------------------------------------------------- directory entries

  type Field = s: seq<byte> | |s| == 14 witness seq(14, _ => 0)

  /** The 14-byte name field of a cleared entry. */
  function Blank(): Field { seq(14, _ => 0) }

  datatype Dirent = Dirent(inum: nat, field: Field)

  function FreeDirent(): Dirent { Dirent(0, Blank()) }

  function DirentAt(blk: Block, i: nat): (d: Dirent)
    requires i < DPB
    ensures d.inum < U16
  {
    Dirent(HalfAt(blk, 8 * i), blk[16 * i + 2..16 * i + 16])
  }

  function SetDirent(blk: Block, i: nat, d: Dirent): (r: Block)
    requires i < DPB && d.inum < U16
    ensures forall j: nat :: j < DPB ==> DirentAt(r, j) == if j == i then d else DirentAt(blk, j)
  {
    var b := SetHalf(blk, 8 * i, d.inum);
    var r := b[..16 * i + 2] + d.field + b[16 * i + 16..];
    assert r[16 * i + 2..16 * i + 16] == d.field;
    assert forall j: nat :: j < DPB && j != i ==> r[16 * j + 2..16 * j + 16] == blk[16 * j + 2..16 * j + 16];
    r
  }

  // ---------------------------------------------------------------- dinodes

  /** One 64-byte slot of the inode table. */
  type Raw = s: seq<byte> | |s| == 64 witness seq(64, _ => 0)

  function ZeroRaw(): Raw { seq(64, _ => 0) }

  function RawAt(blk: Block, i: nat): Raw
    requires i < 8
  {
    blk[64 * i..64 * i + 64]
  }

  function SetRaw(blk: Block, i: nat, raw: Raw): (r: Block)
    requires i < 8
    ensures forall j: nat :: j < 8 ==> RawAt(r, j) == if j == i then raw else RawAt(blk, j)
  {
    var r := blk[..64 * i] + raw + blk[64 * i + 64..];
    assert forall j: nat :: j < 8 && j != i ==> RawAt(r, j) == RawAt(blk, j);
    r
  }

  // ------------------------------------------------------------ zeroed block

  lemma ZeroBlockReads()
    ensures forall i: nat :: i < 128 ==> WordAt(ZeroBlock(), i) == 0
    ensures forall i: nat :: i < DPB ==> DirentAt(ZeroBlock(), i) == FreeDirent()
    ensures HalfAt(ZeroRaw(), 0) == 0
  {
    forall i: nat | i < DPB ensures DirentAt(ZeroBlock(), i) == FreeDirent() {
      assert ZeroBlock()[16 * i + 2..16 * i + 16] == Blank();
    }
  }
}
