/** The block bitmap (`bmap.c`): first-fit allocation, release, and the free count. */
module Bitmap {
  import opened Bytes
  import opened Layout
  import opened Results
  import opened State
  import opened OnDisk

  /** The allocation bit of block `b` on the flat disk. */
  ghost predicate Bit(sb: Super, disk: seq<Block>, b: nat)
    requires BBlock(sb, b) < |disk|
  {
    BlockBit(disk[BBlock(sb, b)], BOffset(b))
  }

  function SetBit(sb: Super, disk: seq<Block>, b: nat, on: bool): (d: seq<Block>)
    requires BBlock(sb, b) < |disk|
    ensures |d| == |disk|
  {
    disk[BBlock(sb, b) := SetBlockBit(disk[BBlock(sb, b)], BOffset(b), on)]
  }

  ghost predicate Device(sb: Super, disk: seq<Block>) {
    WellFormed(sb) && |disk| == sb.size
  }

  lemma BitmapOnDevice(sb: Super, b: nat)
    requires WellFormed(sb) && b < sb.size
    ensures sb.bmapstart <= BBlock(sb, b) < DStart(sb) <= sb.size
  {
    RegionsDisjoint(sb, 0, 0, b, b);
  }

  ghost predicate IsSet(sb: Super, disk: seq<Block>, b: nat)
    requires Device(sb, disk)
    ensures IsSet(sb, disk, b) ==> b < sb.size
  {
    b < sb.size && (BitmapOnDevice(sb, b); Bit(sb, disk, b))
  }

  /** The bit of block `b` is bit `b % 8` of byte `b / 8` of the bitmap region. */
  lemma BitPlace(sb: Super, disk: seq<Block>, b: nat)
    requires Device(sb, disk) && b < sb.size
    ensures IsSet(sb, disk, b) <==> BitAt(disk, 512 * sb.bmapstart + b / 8, b % 8)
  {
    BitmapOnDevice(sb, b);
    BlockBitPlace(disk, BBlock(sb, b), BOffset(b));
    BitByte(sb, b);
  }

  lemma BitByte(sb: Super, b: nat)
    ensures 512 * BBlock(sb, b) + BOffset(b) / 8 == 512 * sb.bmapstart + b / 8 && BOffset(b) % 8 == b % 8
  {
    Places(sb, 0, b, 0);
    assert b == 4096 * (b / 4096) + BOffset(b);
    assert b / 8 == 512 * (b / 4096) + BOffset(b) / 8;
  }

  /** Writing it changes that bit of that byte and no other bit of the device. */
  lemma BitWritten(sb: Super, disk: seq<Block>, b: nat, on: bool)
    requires Device(sb, disk) && b < sb.size
    ensures BBlock(sb, b) < |disk| && OneBit(disk, SetBit(sb, disk, b, on), 512 * sb.bmapstart + b / 8, b % 8, on)
  {
    BitmapOnDevice(sb, b);
    BitByte(sb, b);
    var x, i, n := BBlock(sb, b), BOffset(b), 512 * sb.bmapstart + b / 8;
    var d := SetBit(sb, disk, b, on);
    forall j: nat | j < 8 ensures BitAt(d, n, j) <==> if j == b % 8 then on else BitAt(disk, n, j) {
      var k := i / 8 * 8 + j;
      assert k / 8 == i / 8 && k % 8 == j;
      BlockBitPlace(d, x, k);
      BlockBitPlace(disk, x, k);
    }
    forall m: nat | m != n ensures At(d, m) == At(disk, m) {
      BlockReplaced(disk, x, d[x], m);
      OtherByte(disk[x], i, on, m % 512);
    }
  }

  lemma OtherByte(blk: Block, i: nat, on: bool, k: nat)
    requires i < BPB && k < 512
    ensures k != i / 8 ==> SetBlockBit(blk, i, on)[k] == blk[k]
  {
  }

  /** Writing one bit changes that bit and nothing else on the device. */
  lemma SetBitLaw(sb: Super, disk: seq<Block>, b: nat, on: bool)
    requires Device(sb, disk) && b < sb.size
    ensures BBlock(sb, b) < |disk| && Device(sb, SetBit(sb, disk, b, on))
    ensures forall c: nat :: c < sb.size ==>
      (IsSet(sb, SetBit(sb, disk, b, on), c) <==> if c == b then on else IsSet(sb, disk, c))
    ensures forall x: nat :: x < |disk| && (x < sb.bmapstart || DStart(sb) <= x) ==>
      SetBit(sb, disk, b, on)[x] == disk[x]
  {
    hide SetBlockBit, BlockBit;
    BitmapOnDevice(sb, b);
    var d := SetBit(sb, disk, b, on);
    forall c: nat | c < sb.size ensures IsSet(sb, d, c) <==> if c == b then on else IsSet(sb, disk, c) {
      RegionsDisjoint(sb, 0, 0, b, c);
      BitmapOnDevice(sb, c);
    }
  }

  /** Writing outside the bitmap region leaves every bit alone. */
  lemma WriteKeepsBits(sb: Super, disk: seq<Block>, x: nat, blk: Block)
    requires Device(sb, disk) && x < |disk| && (x < sb.bmapstart || DStart(sb) <= x)
    ensures forall c: nat :: c < sb.size ==> (IsSet(sb, disk[x := blk], c) <==> IsSet(sb, disk, c))
  {
    hide BlockBit;
    forall c: nat | c < sb.size ensures IsSet(sb, disk[x := blk], c) <==> IsSet(sb, disk, c) {
      BitmapOnDevice(sb, c);
    }
  }

  // ------------------------------------------------------------- counting

  /** Number of set bits among the first `n` of a bitmap block (`bitmap_weight`). */
  function Weight(blk: Block, n: nat): nat
    requires n <= BPB
  {
    if n == 0 then 0 else Weight(blk, n - 1) + if BlockBit(blk, n - 1) then 1 else 0
  }

  /** Number of allocated blocks in `lo..hi`. */
  ghost function Ones(sb: Super, disk: seq<Block>, lo: nat, hi: nat): nat
    requires Device(sb, disk)
    decreases hi
  {
    if hi <= lo then 0 else Ones(sb, disk, lo, hi - 1) + if IsSet(sb, disk, hi - 1) then 1 else 0
  }

  /** Number of free blocks in `lo..hi`. */
  ghost function Zeros(sb: Super, disk: seq<Block>, lo: nat, hi: nat): nat
    requires Device(sb, disk)
    decreases hi
  {
    if hi <= lo then 0 else Zeros(sb, disk, lo, hi - 1) + if IsSet(sb, disk, hi - 1) then 0 else 1
  }

  /** Free data blocks of the volume. */
  ghost function FreeBlocks(sb: Super, disk: seq<Block>): nat
    requires Device(sb, disk)
  {
    Zeros(sb, disk, DStart(sb), sb.size)
  }

  lemma {:induction false} OnesSplit(sb: Super, disk: seq<Block>, lo: nat, mid: nat, hi: nat)
    requires Device(sb, disk) && lo <= mid <= hi
    ensures Ones(sb, disk, lo, hi) == Ones(sb, disk, lo, mid) + Ones(sb, disk, mid, hi)
  {
    hide IsSet;
    if mid < hi {
      OnesSplit(sb, disk, lo, mid, hi - 1);
    }
  }

  lemma {:induction false} OnesPlusZeros(sb: Super, disk: seq<Block>, lo: nat, hi: nat)
    requires Device(sb, disk) && lo <= hi
    ensures Ones(sb, disk, lo, hi) + Zeros(sb, disk, lo, hi) == hi - lo
  {
    hide IsSet;
    if lo < hi {
      OnesPlusZeros(sb, disk, lo, hi - 1);
    }
  }

  /** The weight of a bitmap block is the number of allocated blocks it tracks. */
  lemma {:induction false} WeightIsOnes(sb: Super, disk: seq<Block>, b: nat, n: nat)
    requires Device(sb, disk) && b % BPB == 0 && n <= BPB && b + n <= sb.size && (n == 0 ==> b < sb.size)
    ensures BBlock(sb, b) < |disk|
    ensures Weight(disk[BBlock(sb, b)], n) == Ones(sb, disk, b, b + n)
  {
    hide BlockBit;
    BitmapOnDevice(sb, b);
    if n > 0 {
      WeightIsOnes(sb, disk, b, n - 1);
      BitmapOnDevice(sb, b + n - 1);
      assert BBlock(sb, b + n - 1) == BBlock(sb, b) && BOffset(b + n - 1) == n - 1;
    }
  }

  lemma {:induction false} OnesBound(sb: Super, disk: seq<Block>, lo: nat, hi: nat)
    requires Device(sb, disk) && lo <= hi
    ensures Ones(sb, disk, lo, hi) <= hi - lo
  {
    OnesPlusZeros(sb, disk, lo, hi);
  }

  /** The blocks from the data region on whose bits are clear. */
  ghost function FreeSet(sb: Super, disk: seq<Block>): set<nat> {
    set b: nat | sb.bmapstart + sb.size / 4096 + 1 <= b < sb.size && !BitAt(disk, 512 * sb.bmapstart + b / 8, b % 8)
  }

  /** The free count is their number. */
  lemma FreeCount(sb: Super, disk: seq<Block>)
    requires Device(sb, disk)
    ensures FreeBlocks(sb, disk) == |FreeSet(sb, disk)| < U32
  {
    OnesPlusZeros(sb, disk, DStart(sb), sb.size);
    Places(sb, 0, 0, 0);
    ZerosCount(sb, disk, sb.size);
    assert FreeSet(sb, disk) == ClearIn(sb, disk, sb.size);
  }

  ghost function ClearIn(sb: Super, disk: seq<Block>, hi: nat): set<nat> {
    set b: nat | DStart(sb) <= b < hi && !BitAt(disk, 512 * sb.bmapstart + b / 8, b % 8)
  }

  lemma {:induction false} ZerosCount(sb: Super, disk: seq<Block>, hi: nat)
    requires Device(sb, disk) && hi <= sb.size
    ensures Zeros(sb, disk, DStart(sb), hi) == |ClearIn(sb, disk, hi)|
    decreases hi
  {
    hide IsSet, BitAt;
    if DStart(sb) < hi {
      var b := hi - 1;
      ZerosCount(sb, disk, b);
      BitPlace(sb, disk, b);
      if IsSet(sb, disk, b) {
        assert ClearIn(sb, disk, hi) == ClearIn(sb, disk, b);
      } else {
        assert ClearIn(sb, disk, hi) == ClearIn(sb, disk, b) + {b};
      }
    } else {
      assert ClearIn(sb, disk, hi) == {};
    }
  }

  /** Addition on a 32-bit `int`, which wraps. */
  function AddInt32(a: int, b: int): int {
    var t := (a + b) % U32;
    if t < U32 / 2 then t else t - U32
  }

  /** The value an `int` counter shows for the count `n`: off by 2^32 from 2^31 on. */
  function AsInt32(n: nat): int {
    if n < U32 / 2 then n else n - U32
  }

  /** What the counting loop has accumulated when it reaches bit `b`. */
  ghost predicate Counted(sb: Super, disk: seq<Block>, b: nat, used: int)
    requires Device(sb, disk)
  {
    used == AsInt32(Ones(sb, disk, DStart(sb) / BPB * BPB, Min(b, sb.size)))
  }

  lemma CountStep(sb: Super, disk: seq<Block>, b: nat, used: int)
    requires Device(sb, disk) && b % BPB == 0 && DStart(sb) / BPB * BPB <= b < sb.size && Counted(sb, disk, b, used)
    ensures BBlock(sb, b) < |disk|
    ensures Counted(sb, disk, b + BPB, AddInt32(used, Weight(disk[BBlock(sb, b)], Min(BPB, sb.size - b))))
  {
    hide IsSet, Weight, Ones;
    var bits := Min(BPB, sb.size - b);
    WeightIsOnes(sb, disk, b, bits);
    OnesSplit(sb, disk, DStart(sb) / BPB * BPB, b, b + bits);
    OnesBound(sb, disk, DStart(sb) / BPB * BPB, b + bits);
  }

  lemma CountDone(sb: Super, disk: seq<Block>, b: nat, used: int)
    requires Device(sb, disk) && b >= sb.size && Counted(sb, disk, b, used)
    ensures var bstart := DStart(sb) / BPB * BPB;
      var ones := Ones(sb, disk, bstart, sb.size);
      sb.size - used - DStart(sb) + Ones(sb, disk, bstart, DStart(sb)) ==
        FreeBlocks(sb, disk) + (ones - AsInt32(ones))
  {
    hide IsSet, Zeros, Ones;
    OnesSplit(sb, disk, DStart(sb) / BPB * BPB, DStart(sb), sb.size);
    OnesPlusZeros(sb, disk, DStart(sb), sb.size);
  }

  /**
   The free count is exact as long as the `int` accumulator does not wrap, and
   2^32 too large otherwise; a failed bitmap read is the only error.
   */
  method CountFree(v: Volume) returns (r: Result<int>)
    requires Device(v.sb, v.disk)
    modifies v`faults
    ensures r.Ok? ==>
      var ones := Ones(v.sb, v.disk, DStart(v.sb) / BPB * BPB, v.sb.size);
      r.value == FreeBlocks(v.sb, v.disk) + if ones < U32 / 2 then 0 else U32
    ensures r.Ok? ==> r.value % U32 == |FreeSet(v.sb, v.disk)|
    ensures r.Err? ==> r.error == EIO && v.faults > old(v.faults)
    ensures r.Ok? ==> v.faults == old(v.faults)
  {
    hide IsSet, FreeSet, FreeBlocks, Weight, Zeros, Ones, Counted, AddInt32, Bit;
    var total := v.sb.size;
    var dstart := DStart(v.sb);
    var bstart := dstart / BPB * BPB;
    var nonData := 0;
    var used := 0;
    var bh: Option<Block> := None;
    WeightBefore(v.sb, v.disk);
    if dstart % BPB != 0 {
      bh := v.BRead(BBlock(v.sb, bstart));
      if bh.None? {
        return Err(EIO);
      }
      nonData := Weight(bh.value, dstart - bstart);
    }
    assert nonData == Ones(v.sb, v.disk, bstart, dstart);
    var b := bstart;
    while b < total
      invariant b % BPB == 0 && bstart <= b
      invariant bh.Some? ==> b == bstart && BBlock(v.sb, b) < |v.disk| && bh.value == v.disk[BBlock(v.sb, b)]
      invariant Counted(v.sb, v.disk, b, used)
      invariant v.faults == old(v.faults)
    {
      if bh.None? {
        bh := v.BRead(BBlock(v.sb, b));
      }
      if bh.None? {
        return Err(EIO);
      }
      var bits := Min(BPB, total - b);
      CountStep(v.sb, v.disk, b, used);
      used := AddInt32(used, Weight(bh.value, bits));
      bh := None;
      b := b + BPB;
    }
    CountDone(v.sb, v.disk, b, used);
    CountMeans(v.sb, v.disk, total - used - dstart + nonData);
    r := Ok(total - used - dstart + nonData);
  }

  lemma CountMeans(sb: Super, disk: seq<Block>, count: int)
    requires Device(sb, disk) && (count == FreeBlocks(sb, disk) || count == FreeBlocks(sb, disk) + U32)
    ensures count % U32 == |FreeSet(sb, disk)|
  {
    hide FreeBlocks, FreeSet;
    FreeCount(sb, disk);
  }

  lemma WeightBefore(sb: Super, disk: seq<Block>)
    requires Device(sb, disk)
    ensures Counted(sb, disk, DStart(sb) / BPB * BPB, 0)
    ensures DStart(sb) % BPB == 0 ==> Ones(sb, disk, DStart(sb) / BPB * BPB, DStart(sb)) == 0
    ensures DStart(sb) % BPB != 0 ==>
      var bstart := DStart(sb) / BPB * BPB;
      && BBlock(sb, bstart) < |disk|
      && Weight(disk[BBlock(sb, bstart)], DStart(sb) - bstart) == Ones(sb, disk, bstart, DStart(sb))
  {
    var bstart := DStart(sb) / BPB * BPB;
    if DStart(sb) % BPB != 0 {
      WeightIsOnes(sb, disk, bstart, DStart(sb) - bstart);
    }
  }

  // ----------------------------------------------------- allocate and release

  /** The first clear bit in `offset..bits`, or `bits` when there is none. */
  method FindNextZeroBit(blk: Block, bits: nat, offset: nat) returns (bit: nat)
    requires bits <= BPB
    ensures bit <= bits && (bit < bits ==> offset <= bit && !BlockBit(blk, bit))
    ensures forall k: nat :: offset <= k < bit ==> BlockBit(blk, k)
  {
    hide BlockBit;
    if offset >= bits {
      return bits;
    }
    bit := offset;
    while bit < bits && BlockBit(blk, bit)
      invariant offset <= bit <= bits
      invariant forall k: nat :: offset <= k < bit ==> BlockBit(blk, k)
    {
      bit := bit + 1;
    }
  }

  /**
   The bits the allocator looks at: the start offset protects metadata only in
   the first bitmap block.
   */
  predicate Searched(sb: Super, b: nat) {
    b < sb.size && (b < BPB ==> DStart(sb) <= b)
  }

  /** All searched bits below `hi` are taken. */
  ghost predicate TakenBelow(sb: Super, disk: seq<Block>, hi: nat)
    requires Device(sb, disk)
  {
    forall c: nat :: c < hi && Searched(sb, c) ==> IsSet(sb, disk, c)
  }

  /** One bitmap block of the search, in terms of whole-volume bit numbers. */
  lemma SearchStep(sb: Super, disk: seq<Block>, b: nat, bit: nat)
    requires Device(sb, disk) && b < sb.size && b % BPB == 0 && TakenBelow(sb, disk, b)
    requires BBlock(sb, b) < |disk| && bit <= Min(BPB, sb.size - b)
    requires forall k: nat :: (if b < BPB then DStart(sb) else 0) <= k < bit ==> BlockBit(disk[BBlock(sb, b)], k)
    ensures TakenBelow(sb, disk, b + bit)
    ensures bit < BPB && b + bit < sb.size ==> (IsSet(sb, disk, b + bit) <==> BlockBit(disk[BBlock(sb, b)], bit))
  {
    hide BlockBit;
    forall c: nat | c < b + bit && Searched(sb, c) ensures IsSet(sb, disk, c) {
      if b <= c {
        BitmapOnDevice(sb, c);
        assert BBlock(sb, c) == BBlock(sb, b) && BOffset(c) == c - b;
      }
    }
    if bit < BPB && b + bit < sb.size {
      BitmapOnDevice(sb, b + bit);
      assert BBlock(sb, b + bit) == BBlock(sb, b) && BOffset(b + bit) == bit;
    }
  }

  /**
   First fit: the lowest searched clear bit is taken.  ENOSPC says every searched
   bit is set; EIO only follows a failed read; on any error the disk is untouched.
   */
  method BAlloc(v: Volume) returns (r: Result<nat>)
    requires Device(v.sb, v.disk)
    modifies v`disk, v`faults
    ensures r.Ok? ==>
      && Searched(v.sb, r.value)
      && !IsSet(v.sb, old(v.disk), r.value)
      && TakenBelow(v.sb, old(v.disk), r.value)
      && BBlock(v.sb, r.value) < |old(v.disk)|
      && v.disk == SetBit(v.sb, old(v.disk), r.value, true)
    ensures r.Ok? ==>
      && OneBit(old(v.disk), v.disk, 512 * v.sb.bmapstart + r.value / 8, r.value % 8, true)
      && AllMarked(v.sb, old(v.disk), r.value)
    ensures r.Err? ==> v.disk == old(v.disk) && (r.error == ENOSPC || r.error == EIO)
    ensures r == Err(ENOSPC) ==> TakenBelow(v.sb, v.disk, v.sb.size)
    ensures r == Err(ENOSPC) ==> AllMarked(v.sb, v.disk, v.sb.size)
    ensures if r == Err(EIO) then v.faults > old(v.faults) else v.faults == old(v.faults)
  {
    hide IsSet, BlockBit, SetBlockBit, TakenBelow, AllMarked, OneBit;
    var total := v.sb.size;
    var b := 0;
    TakenBelowZero(v.sb, v.disk);
    while b < total
      invariant b % BPB == 0 && v.disk == old(v.disk) && v.faults == old(v.faults)
      invariant TakenBelow(v.sb, v.disk, Min(b, total))
    {
      var bh := v.BRead(BBlock(v.sb, b));
      if bh.None? {
        return Err(EIO);
      }
      var bits := Min(BPB, total - b);
      var offset := if b < BPB then DStart(v.sb) else 0;
      var bit := FindNextZeroBit(bh.value, bits, offset);
      SearchStep(v.sb, v.disk, b, bit);
      if bit < bits {
        assert BBlock(v.sb, b + bit) == BBlock(v.sb, b) && BOffset(b + bit) == bit;
        Taken(v.sb, v.disk, b + bit);
        v.disk := v.disk[BBlock(v.sb, b) := SetBlockBit(bh.value, bit, true)];
        return Ok(b + bit);
      }
      b := b + BPB;
    }
    DataTaken(v.sb, v.disk, total);
    r := Err(ENOSPC);
  }

  /** On the bytes: every block of the data region below `hi` is marked. */
  ghost predicate AllMarked(sb: Super, disk: seq<Block>, hi: nat) {
    forall b: nat :: sb.bmapstart + sb.size / 4096 + 1 <= b < hi ==> BitAt(disk, 512 * sb.bmapstart + b / 8, b % 8)
  }

  lemma Taken(sb: Super, disk: seq<Block>, b: nat)
    requires Device(sb, disk) && b < sb.size && TakenBelow(sb, disk, b) && BBlock(sb, b) < |disk|
    ensures OneBit(disk, disk[BBlock(sb, b) := SetBlockBit(disk[BBlock(sb, b)], BOffset(b), true)],
                   512 * sb.bmapstart + b / 8, b % 8, true)
    ensures AllMarked(sb, disk, b)
  {
    hide TakenBelow, OneBit, AllMarked;
    BitWritten(sb, disk, b, true);
    DataTaken(sb, disk, b);
  }

  /** No searched bit below `hi` is clear: neither is any of the data region. */
  lemma DataTaken(sb: Super, disk: seq<Block>, hi: nat)
    requires Device(sb, disk) && hi <= sb.size && TakenBelow(sb, disk, hi)
    ensures AllMarked(sb, disk, hi)
  {
    hide IsSet, BitAt;
    forall b: nat | sb.bmapstart + sb.size / 4096 + 1 <= b < hi
      ensures BitAt(disk, 512 * sb.bmapstart + b / 8, b % 8)
    {
      Places(sb, 0, b, 0);
      BitPlace(sb, disk, b);
    }
  }

  lemma TakenBelowZero(sb: Super, disk: seq<Block>)
    requires Device(sb, disk)
    ensures TakenBelow(sb, disk, 0)
  {
  }

  /** Frees of metadata or out-of-range numbers are refused; a failed read frees nothing. */
  method BFree(v: Volume, b: nat)
    requires Device(v.sb, v.disk)
    modifies v`disk, v`faults
    ensures |v.disk| == |old(v.disk)|
    ensures !(DStart(v.sb) <= b < v.sb.size) ==> v.disk == old(v.disk) && v.faults == old(v.faults)
    ensures DStart(v.sb) <= b < v.sb.size && v.disk != old(v.disk) ==>
      BBlock(v.sb, b) < |old(v.disk)| && v.disk == SetBit(v.sb, old(v.disk), b, false)
    ensures DStart(v.sb) <= b < v.sb.size && v.faults == old(v.faults) ==>
      BBlock(v.sb, b) < |old(v.disk)| && v.disk == SetBit(v.sb, old(v.disk), b, false)
    ensures v.faults > old(v.faults) ==> v.disk == old(v.disk)
    ensures v.sb.bmapstart + v.sb.size / 4096 + 1 <= b < v.sb.size && v.faults == old(v.faults) ==>
      OneBit(old(v.disk), v.disk, 512 * v.sb.bmapstart + b / 8, b % 8, false)
    ensures old(v.faults) <= v.faults
  {
    hide SetBlockBit, OneBit;
    Places(v.sb, 0, b, 0);
    if b >= v.sb.size {
      return;
    }
    if b < DStart(v.sb) {
      return;
    }
    var bh := v.BRead(BBlock(v.sb, b));
    if bh.None? {
      return;
    }
    BitWritten(v.sb, v.disk, b, false);
    v.disk := v.disk[BBlock(v.sb, b) := SetBlockBit(bh.value, BOffset(b), false)];
  }

  // ------------------------------------------------- what the allocator means

  /** Every block below the data region is marked in use. */
  ghost predicate MetaSet(sb: Super, disk: seq<Block>)
    requires Device(sb, disk)
  {
    forall c: nat :: c < DStart(sb) ==> IsSet(sb, disk, c)
  }

  lemma {:induction false} NoZeros(sb: Super, disk: seq<Block>, lo: nat, hi: nat)
    requires Device(sb, disk)
    ensures Zeros(sb, disk, lo, hi) == 0 <==> forall c: nat :: lo <= c < hi ==> IsSet(sb, disk, c)
    decreases hi
  {
    hide IsSet;
    if lo < hi {
      NoZeros(sb, disk, lo, hi - 1);
    }
  }

  lemma {:induction false} ZerosAfterSetBit(sb: Super, disk: seq<Block>, b: nat, on: bool, lo: nat, hi: nat)
    requires Device(sb, disk) && b < sb.size && hi <= sb.size
    requires BBlock(sb, b) < |disk|
    requires IsSet(sb, disk, b) != on
    ensures Device(sb, SetBit(sb, disk, b, on))
    ensures Zeros(sb, SetBit(sb, disk, b, on), lo, hi) ==
            Zeros(sb, disk, lo, hi) + if lo <= b < hi then (if on then -1 else 1) else 0
    decreases hi
  {
    hide IsSet, SetBit;
    SetBitLaw(sb, disk, b, on);
    if lo < hi {
      ZerosAfterSetBit(sb, disk, b, on, lo, hi - 1);
    }
  }

  /**
   With the metadata bits set, what the allocator returns is the lowest free data
   block, even when the data region starts beyond the first bitmap block; the
   count drops by one; and freeing that block restores the disk byte for byte.
   */
  lemma AllocMeaning(sb: Super, disk: seq<Block>, b: nat)
    requires Device(sb, disk) && MetaSet(sb, disk)
    requires Searched(sb, b) && !IsSet(sb, disk, b) && TakenBelow(sb, disk, b)
    ensures DStart(sb) <= b && BBlock(sb, b) < |disk|
    ensures forall c: nat :: DStart(sb) <= c < b ==> IsSet(sb, disk, c)
    ensures var d := SetBit(sb, disk, b, true);
      && Device(sb, d) && MetaSet(sb, d)
      && FreeBlocks(sb, d) == FreeBlocks(sb, disk) - 1
      && SetBit(sb, d, b, false) == disk
  {
    hide BlockBit, IsSet;
    BitmapOnDevice(sb, b);
    SetBitLaw(sb, disk, b, true);
    ZerosAfterSetBit(sb, disk, b, true, DStart(sb), sb.size);
    FlipBack(sb, disk, b);
  }

  /** The search comes back empty exactly when the free count is zero. */
  lemma NoSpaceMeaning(sb: Super, disk: seq<Block>)
    requires Device(sb, disk) && MetaSet(sb, disk)
    ensures TakenBelow(sb, disk, sb.size) <==> FreeBlocks(sb, disk) == 0
  {
    hide IsSet;
    NoZeros(sb, disk, DStart(sb), sb.size);
  }

  lemma {:induction false} SetClearByte(x: nat, k: nat)
    requires !BitOf(x, k)
    ensures WithBit(WithBit(x, k, true), k, false) == x
  {
    if k != 0 {
      SetClearByte(x / 2, k - 1);
    }
  }

  lemma FlipBack(sb: Super, disk: seq<Block>, b: nat)
    requires Device(sb, disk) && b < sb.size && !IsSet(sb, disk, b)
    ensures BBlock(sb, b) < |disk| && SetBit(sb, SetBit(sb, disk, b, true), b, false) == disk
  {
    BitmapOnDevice(sb, b);
    var blk := disk[BBlock(sb, b)];
    SetClearByte(blk[BOffset(b) / 8], BOffset(b) % 8);
    assert SetBlockBit(SetBlockBit(blk, BOffset(b), true), BOffset(b), false) == blk;
  }

  /** Metadata bits survive every free the driver accepts. */
  lemma FreeKeepsMetaSet(sb: Super, disk: seq<Block>, b: nat)
    requires Device(sb, disk) && MetaSet(sb, disk) && DStart(sb) <= b < sb.size
    ensures BBlock(sb, b) < |disk| && Device(sb, SetBit(sb, disk, b, false))
    ensures MetaSet(sb, SetBit(sb, disk, b, false))
  {
    hide IsSet;
    SetBitLaw(sb, disk, b, false);
  }

  /** A request to the allocator: a block, or the release of one. */
  datatype Ask = Take | Give(b: nat)

  /**
   `Take` gets the lowest free data block, unless there is none or a read failed; `Give`
   clears the bit of a data block, unless a read failed, and does nothing for other numbers.
   */
  ghost predicate Served(sb: Super, disk: seq<Block>, disk': seq<Block>, ask: Ask, reply: Result<nat>, failed: bool) {
    var start := sb.bmapstart + sb.size / 4096 + 1;
    match ask
    case Take =>
      (match reply
       case Ok(b) =>
         && !failed && b in FreeSet(sb, disk) && (forall c :: c in FreeSet(sb, disk) ==> b <= c)
         && OneBit(disk, disk', 512 * sb.bmapstart + b / 8, b % 8, true)
       case Err(e) => disk' == disk && (if failed then e == EIO else e == ENOSPC && FreeSet(sb, disk) == {}))
    case Give(b) =>
      if failed || !(start <= b < sb.size) then disk' == disk
      else OneBit(disk, disk', 512 * sb.bmapstart + b / 8, b % 8, false)
  }

  /** The disk and the failed reads so far. */
  datatype Stage = Stage(disk: seq<Block>, faults: nat)

  /** Any run of allocations and of frees of any number: metadata stays marked and each request does what it should. */
  method AllocFreeRun(v: Volume, asks: seq<Ask>) returns (replies: seq<Result<nat>>, ghost trace: seq<Stage>)
    requires Device(v.sb, v.disk) && MetaSet(v.sb, v.disk)
    modifies v`disk, v`faults
    ensures |replies| == |asks| && |trace| == |asks| + 1
    ensures trace[0] == Stage(old(v.disk), old(v.faults)) && trace[|asks|] == Stage(v.disk, v.faults)
    ensures forall k :: 0 <= k < |trace| ==> Device(v.sb, trace[k].disk) && MetaSet(v.sb, trace[k].disk)
    ensures forall k :: 0 <= k < |asks| ==>
      Served(v.sb, trace[k].disk, trace[k + 1].disk, asks[k], replies[k], trace[k + 1].faults > trace[k].faults)
  {
    hide IsSet, SetBit, MetaSet, TakenBelow, Device, Served;
    replies, trace := [], [Stage(v.disk, v.faults)];
    for k := 0 to |asks|
      invariant |replies| == k && |trace| == k + 1
      invariant trace[0] == Stage(old(v.disk), old(v.faults)) && trace[k] == Stage(v.disk, v.faults)
      invariant forall j :: 0 <= j < |trace| ==> Device(v.sb, trace[j].disk) && MetaSet(v.sb, trace[j].disk)
      invariant forall j :: 0 <= j < k ==>
        Served(v.sb, trace[j].disk, trace[j + 1].disk, asks[j], replies[j], trace[j + 1].faults > trace[j].faults)
    {
      var reply := Serve(v, asks[k]);
      replies, trace := replies + [reply], trace + [Stage(v.disk, v.faults)];
    }
  }

  method Serve(v: Volume, ask: Ask) returns (reply: Result<nat>)
    requires Device(v.sb, v.disk) && MetaSet(v.sb, v.disk)
    modifies v`disk, v`faults
    ensures Device(v.sb, v.disk) && MetaSet(v.sb, v.disk)
    ensures Served(v.sb, old(v.disk), v.disk, ask, reply, v.faults > old(v.faults))
  {
    hide IsSet, SetBit, MetaSet, TakenBelow, OneBit, BitAt;
    Places(v.sb, 0, 0, 0);
    ghost var disk := v.disk;
    match ask {
      case Take =>
        reply := BAlloc(v);
        if reply.Ok? {
          AllocMeaning(v.sb, disk, reply.value);
          BitPlace(v.sb, disk, reply.value);
        }
      case Give(b) =>
        if DStart(v.sb) <= b < v.sb.size {
          FreeKeepsMetaSet(v.sb, disk, b);
        }
        BFree(v, b);
        reply := Ok(b);
    }
  }
}
