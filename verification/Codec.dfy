/** Conversion between in-core inodes and 64-byte little-endian dinodes. */
module Codec {
  import opened Bytes

  const NDIRECT := 12
  const NINDIRECT := 128
  const MAXFILE := 140
  const T_DIR := 1
  const T_FILE := 2
  const T_DEV := 3

  type Addrs = s: seq<nat> | |s| == 13 witness seq(13, _ => 0)

  function NoAddrs(): Addrs { seq(13, _ => 0) }

  /** An in-core inode: the driver's private fields, the VFS fields it persists, and the VFS dirty mark. */
  datatype Inode = Inode(kind: int, major: int, minor: int, nlink: nat, size: nat, addrs: Addrs, dirty: bool)

  /** A 16-bit field read into an `__s16`. */
  function ToS16(h: nat): int { if h < 0x8000 then h else h - U16 }

  function ToU16(v: int): (h: nat)
    ensures h < U16
  {
    v % U16
  }

  function Kind(raw: Raw): int { ToS16(HalfAt(raw, 0)) }

  function Decode(raw: Raw): (n: Inode)
    ensures n.kind == Kind(raw)
  {
    Inode(ToS16(HalfAt(raw, 0)), ToS16(HalfAt(raw, 1)), ToS16(HalfAt(raw, 2)), HalfAt(raw, 3),
          WordAt(raw, 2), seq(13, k requires 0 <= k < 13 => WordAt(raw, 3 + k)), false)
  }

  /** The number in `width` bytes from byte `at` on, lowest byte first. */
  function Num(s: seq<byte>, at: nat, width: nat): nat
    requires at + width <= |s|
    decreases width
  {
    if width == 0 then 0 else (s[at] as int) + 256 * Num(s, at + 1, width - 1)
  }

  /**
   Where the fields are in the 64 bytes of a dinode: type, major, minor (signed) and nlink in
   bytes 0..7, the size in bytes 8..11, the addresses from byte 12 on, lowest byte first.
   */
  lemma FieldPlaces(raw: Raw)
    ensures var n := Decode(raw);
      && !n.dirty && -32768 <= n.kind < 32768 && -32768 <= n.major < 32768 && -32768 <= n.minor < 32768
      && n.kind % 65536 == Num(raw, 0, 2) && n.major % 65536 == Num(raw, 2, 2) && n.minor % 65536 == Num(raw, 4, 2)
      && n.nlink == Num(raw, 6, 2) && n.size == Num(raw, 8, 4)
    ensures forall k: nat :: k < 13 ==> Decode(raw).addrs[k] == Num(raw, 12 + 4 * k, 4)
    ensures Kind(raw) == 0 <==> raw[0] == 0 && raw[1] == 0
  {
    hide Num;
    NumHalf(raw, 0);
    NumHalf(raw, 2);
    NumHalf(raw, 4);
    NumHalf(raw, 6);
    NumWord(raw, 8);
    forall k: nat | k < 13 ensures Decode(raw).addrs[k] == Num(raw, 12 + 4 * k, 4) {
      NumWord(raw, 12 + 4 * k);
    }
  }

  lemma NumHalf(s: seq<byte>, at: nat)
    requires at + 2 <= |s| && at % 2 == 0
    ensures Num(s, at, 2) == HalfAt(s, at / 2) == (s[at] as int) + 256 * (s[at + 1] as int)
  {
    assert Num(s, at + 2, 0) == 0 && Num(s, at + 1, 1) == s[at + 1];
  }

  lemma NumWord(s: seq<byte>, at: nat)
    requires at + 4 <= |s| && at % 4 == 0
    ensures Num(s, at, 4) == WordAt(s, at / 4)
  {
    assert Num(s, at + 3, 1) == s[at + 3] && Num(s, at + 2, 2) == 256 * Num(s, at + 3, 1) + s[at + 2];
    assert Num(s, at + 1, 3) == 256 * Num(s, at + 2, 2) + s[at + 1];
  }

  /** The numbers of the kinds, and how far a block map reaches. */
  lemma Numbers()
    ensures T_DIR == 1 && T_FILE == 2 && T_DEV == 3
    ensures NDIRECT == 12 && NINDIRECT == 512 / 4 && MAXFILE == NDIRECT + NINDIRECT
  {
  }

  /** The four 16-bit fields and fourteen 32-bit fields of a dinode, truncated to their widths. */
  function HalfField(n: Inode, i: nat): (h: nat)
    requires i < 4
    ensures h < U16
  {
    if i == 0 then ToU16(n.kind)
    else if i == 1 then ToU16(n.major)
    else if i == 2 then ToU16(n.minor)
    else n.nlink % U16
  }

  function WordField(n: Inode, i: nat): (w: nat)
    requires 2 <= i < 16
    ensures w < U32
  {
    if i == 2 then n.size % U32 else n.addrs[i - 3] % U32
  }

  ghost predicate Encodes(raw: Raw, n: Inode) {
    && (forall i: nat :: i < 4 ==> HalfAt(raw, i) == HalfField(n, i))
    && (forall i: nat :: 2 <= i < 16 ==> WordAt(raw, i) == WordField(n, i))
  }

  function Digit(v: nat, k: nat): (d: byte)
    requires k < 4
  {
    if k == 0 then v % 256
    else if k == 1 then v / 0x100 % 256
    else if k == 2 then v / 0x1_0000 % 256
    else v / 0x100_0000 % 256
  }

  function Encode(n: Inode): (raw: Raw) {
    seq(64, k requires 0 <= k < 64 =>
      if k < 8 then Digit(HalfField(n, k / 2), k % 2) else Digit(WordField(n, k / 4), k % 4))
  }

  lemma DigitsMakeValue(v: nat)
    requires v < U32
    ensures v == Digit(v, 0) + 0x100 * Digit(v, 1) + 0x1_0000 * Digit(v, 2) + 0x100_0000 * Digit(v, 3)
    ensures v < U16 ==> v == Digit(v, 0) + 0x100 * Digit(v, 1)
  {
    assert v / 0x1_0000 == v / 0x100 / 256 && v / 0x100_0000 == v / 0x1_0000 / 256;
  }

  lemma EncodeHalf(n: Inode, i: nat)
    requires i < 4
    ensures HalfAt(Encode(n), i) == HalfField(n, i)
  {
    hide Digit, HalfField, WordField;
    DigitsMakeValue(HalfField(n, i));
    var raw := Encode(n);
    assert 2 * i / 2 == i && (2 * i + 1) / 2 == i;
    assert raw[2 * i] == Digit(HalfField(n, i), 0) && raw[2 * i + 1] == Digit(HalfField(n, i), 1);
  }

  lemma EncodeWord(n: Inode, i: nat)
    requires 2 <= i < 16
    ensures WordAt(Encode(n), i) == WordField(n, i)
  {
    hide Digit, HalfField, WordField;
    DigitsMakeValue(WordField(n, i));
    var raw := Encode(n);
    assert (4 * i + 1) / 4 == i && (4 * i + 2) / 4 == i && (4 * i + 3) / 4 == i;
    assert raw[4 * i + 0] == Digit(WordField(n, i), 0) && raw[4 * i + 1] == Digit(WordField(n, i), 1);
    assert raw[4 * i + 2] == Digit(WordField(n, i), 2) && raw[4 * i + 3] == Digit(WordField(n, i), 3);
  }

  lemma EncodeFields(n: Inode)
    ensures Encodes(Encode(n), n)
  {
    hide Encode, HalfField, WordField, HalfAt, WordAt;
    forall i: nat | i < 4 ensures HalfAt(Encode(n), i) == HalfField(n, i) {
      EncodeHalf(n, i);
    }
    forall i: nat | 2 <= i < 16 ensures WordAt(Encode(n), i) == WordField(n, i) {
      EncodeWord(n, i);
    }
  }

  lemma SameWordSameBytes(a: byte, b: byte, c: byte, d: byte, v: nat)
    requires v == a + 0x100 * b + 0x1_0000 * c + 0x100_0000 * d
    ensures a == v % 256 && b == v / 256 % 256 && c == v / 256 / 256 % 256 && d == v / 256 / 256 / 256
  {
    assert v / 256 == b + 0x100 * c + 0x1_0000 * d;
    assert v / 256 / 256 == c + 0x100 * d;
  }

  lemma WordInjective(s: Raw, t: Raw, i: nat)
    requires i < 16 && WordAt(s, i) == WordAt(t, i)
    ensures s[4 * i] == t[4 * i] && s[4 * i + 1] == t[4 * i + 1]
    ensures s[4 * i + 2] == t[4 * i + 2] && s[4 * i + 3] == t[4 * i + 3]
  {
    SameWordSameBytes(s[4 * i], s[4 * i + 1], s[4 * i + 2], s[4 * i + 3], WordAt(s, i));
    SameWordSameBytes(t[4 * i], t[4 * i + 1], t[4 * i + 2], t[4 * i + 3], WordAt(t, i));
  }

  /** The fields determine all 64 bytes, so a dinode written over any old slot is the same. */
  lemma FieldsDetermineBytes(raw: Raw, raw': Raw)
    requires forall i: nat :: i < 4 ==> HalfAt(raw, i) == HalfAt(raw', i)
    requires forall i: nat :: 2 <= i < 16 ==> WordAt(raw, i) == WordAt(raw', i)
    ensures raw == raw'
  {
    forall k: nat | k < 64 ensures raw[k] == raw'[k] {
      if k < 8 {
        assert HalfAt(raw, k / 2) == HalfAt(raw', k / 2);
      } else {
        hide WordAt;
        assert WordAt(raw, k / 4) == WordAt(raw', k / 4);
        WordInjective(raw, raw', k / 4);
        assert k == k / 4 * 4 + k % 4;
      }
    }
  }

  /** The in-core values that the on-disk widths can hold. */
  ghost predicate Fits(n: Inode) {
    && -0x8000 <= n.kind < 0x8000 && -0x8000 <= n.major < 0x8000 && -0x8000 <= n.minor < 0x8000
    && n.nlink < U16 && n.size < U32
    && forall k: nat :: k < 13 ==> n.addrs[k] < U32
  }

  /** Encoding then decoding is the identity exactly on the inodes whose fields fit. */
  lemma DecodeEncode(n: Inode)
    ensures Decode(Encode(n)) == n.(dirty := false) <==> Fits(n)
  {
    hide Encode, HalfAt, WordAt;
    EncodeFields(n);
    var raw := Encode(n);
    var m := Decode(raw);
    assert HalfAt(raw, 0) == HalfField(n, 0) && HalfAt(raw, 1) == HalfField(n, 1);
    assert HalfAt(raw, 2) == HalfField(n, 2) && HalfAt(raw, 3) == HalfField(n, 3);
    assert forall k: nat :: k < 13 ==> m.addrs[k] == n.addrs[k] % U32;
    assert m.addrs == n.addrs <==> forall k: nat :: k < 13 ==> n.addrs[k] < U32;
  }

  /** Decoding then encoding gives back the very bytes. */
  lemma EncodeDecode(raw: Raw)
    ensures Encode(Decode(raw)) == raw && Fits(Decode(raw))
  {
    hide Encode, HalfAt, WordAt;
    var n := Decode(raw);
    EncodeFields(n);
    assert forall i: nat :: i < 4 ==> HalfAt(raw, i) == HalfField(n, i);
    assert forall i: nat :: 3 <= i < 16 ==> n.addrs[i - 3] == WordAt(raw, i);
    FieldsDetermineBytes(Encode(n), raw);
  }

  method DinodeToDisk(n: Inode, slot: Raw) returns (raw: Raw)
    ensures raw == Encode(n)
  {
    raw := SetHalf(slot, 0, ToU16(n.kind));
    raw := SetHalf(raw, 1, ToU16(n.major));
    raw := SetHalf(raw, 2, ToU16(n.minor));
    raw := SetHalf(raw, 3, n.nlink % U16);
    assert forall i: nat :: i < 4 ==> HalfAt(raw, i) == HalfField(n, i);
    raw := SetWord(raw, 2, n.size % U32);
    for i := 0 to NDIRECT + 1
      invariant forall k: nat :: k < 4 ==> HalfAt(raw, k) == HalfField(n, k)
      invariant forall k: nat :: 2 <= k < 3 + i ==> WordAt(raw, k) == WordField(n, k)
    {
      raw := SetWord(raw, 3 + i, n.addrs[i] % U32);
    }
    EncodeFields(n);
    FieldsDetermineBytes(raw, Encode(n));
  }

  method DinodeToCpu(raw: Raw) returns (n: Inode)
    ensures n == Decode(raw)
  {
    var addrs: Addrs := NoAddrs();
    for i := 0 to NDIRECT + 1
      invariant forall k: nat :: k < i ==> addrs[k] == WordAt(raw, 3 + k)
    {
      addrs := addrs[i := WordAt(raw, 3 + i)];
    }
    n := Inode(ToS16(HalfAt(raw, 0)), ToS16(HalfAt(raw, 1)), ToS16(HalfAt(raw, 2)), HalfAt(raw, 3),
               WordAt(raw, 2), addrs, false);
    assert n.addrs == Decode(raw).addrs;
  }
}
