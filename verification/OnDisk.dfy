/**
 The device as one array of bytes, read by position.  The laws about places in the
 other modules say in these terms, and in numbers, where xv6 keeps what.
 */
module OnDisk {
  import opened Bytes

  /** Byte `n` of the device. */
  function At(disk: seq<Block>, n: nat): nat {
    if n / 512 < |disk| then disk[n / 512][n % 512] else 0
  }

  /** The little-endian 16-bit and 32-bit numbers at byte `n`. */
  function Le16(disk: seq<Block>, n: nat): nat { At(disk, n) + 256 * At(disk, n + 1) }

  function Le32(disk: seq<Block>, n: nat): nat { Le16(disk, n) + 65536 * Le16(disk, n + 2) }

  /** Bit `k` of byte `n`, the lowest being bit 0. */
  predicate BitAt(disk: seq<Block>, n: nat, k: nat)
    requires k < 8
  {
    At(disk, n) / [1, 2, 4, 8, 16, 32, 64, 128][k] % 2 == 1
  }

  /** The same bytes everywhere but in `lo..hi`. */
  ghost predicate SameBut(disk: seq<Block>, disk': seq<Block>, lo: nat, hi: nat) {
    |disk'| == |disk| && forall n: nat :: !(lo <= n < hi) ==> At(disk', n) == At(disk, n)
  }

  /** Bit `k` of byte `n` is `on`; every other bit of the device is as it was. */
  ghost predicate OneBit(disk: seq<Block>, disk': seq<Block>, n: nat, k: nat, on: bool) {
    && SameBut(disk, disk', n, n + 1)
    && forall j: nat :: j < 8 ==> (BitAt(disk', n, j) <==> if j == k then on else BitAt(disk, n, j))
  }

  lemma AtBlock(disk: seq<Block>, b: nat, k: nat)
    requires b < |disk| && k < 512
    ensures At(disk, 512 * b + k) == disk[b][k]
  {
    assert (512 * b + k) / 512 == b && (512 * b + k) % 512 == k;
  }

  lemma HalfPlace(disk: seq<Block>, b: nat, i: nat)
    requires b < |disk| && i < 256
    ensures HalfAt(disk[b], i) == Le16(disk, 512 * b + 2 * i)
  {
    AtBlock(disk, b, 2 * i);
    AtBlock(disk, b, 2 * i + 1);
  }

  lemma WordPlace(disk: seq<Block>, b: nat, i: nat)
    requires b < |disk| && i < 128
    ensures WordAt(disk[b], i) == Le32(disk, 512 * b + 4 * i)
  {
    AtBlock(disk, b, 4 * i);
    AtBlock(disk, b, 4 * i + 1);
    AtBlock(disk, b, 4 * i + 2);
    AtBlock(disk, b, 4 * i + 3);
  }

  lemma BitOfByte(x: nat, k: nat)
    requires k < 8
    ensures BitOf(x, k) <==> x / [1, 2, 4, 8, 16, 32, 64, 128][k] % 2 == 1
  {
    assert x / 4 == x / 2 / 2 && x / 8 == x / 4 / 2 && x / 16 == x / 8 / 2 && x / 32 == x / 16 / 2;
    assert x / 64 == x / 32 / 2 && x / 128 == x / 64 / 2;
  }

  /** Bit `i` of a bitmap block is bit `i % 8` of its byte `i / 8`. */
  lemma BlockBitPlace(disk: seq<Block>, b: nat, i: nat)
    requires b < |disk| && i < 4096
    ensures BlockBit(disk[b], i) <==> BitAt(disk, 512 * b + i / 8, i % 8)
  {
    AtBlock(disk, b, i / 8);
    BitOfByte(disk[b][i / 8], i % 8);
  }

  /** Replacing one block changes only its bytes. */
  lemma BlockReplaced(disk: seq<Block>, b: nat, blk: Block, n: nat)
    requires b < |disk|
    ensures At(disk[b := blk], n) == if n / 512 == b then blk[n % 512] else At(disk, n)
  {
  }
}
