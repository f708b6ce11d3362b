/** Loading the inode table at mount time (`xv6fs_load_dinodes`), and reloading it. */
module Mount {
  import opened Bytes
  import opened Layout
  import opened Codec
  import opened Results
  import opened State
  import Bitmap
  import opened Ownership
  import BlockMap
  import opened OnDisk
  import opened Inodes

  /** The slots below `n` whose type on disk is 0, in order. */
  function FreeBelow(sb: Super, disk: seq<Block>, n: nat): seq<nat> {
    if n == 0 then []
    else FreeBelow(sb, disk, n - 1) + if Kind(DiskSlot(sb, disk, n - 1)) == 0 then [n - 1] else []
  }

  /** What the in-memory table holds for slot `i` after loading. */
  function LoadedSlot(sb: Super, disk: seq<Block>, i: nat): Raw {
    if Kind(DiskSlot(sb, disk, i)) == 0 then ZeroRaw() else DiskSlot(sb, disk, i)
  }

  lemma {:induction false} FreeBelowExact(sb: Super, disk: seq<Block>, n: nat)
    ensures forall i: nat :: i in FreeBelow(sb, disk, n) <==> i < n && Kind(DiskSlot(sb, disk, i)) == 0
    ensures Distinct(FreeBelow(sb, disk, n))
  {
    hide DiskSlot, Kind;
    if n > 0 {
      FreeBelowExact(sb, disk, n - 1);
      var xs := FreeBelow(sb, disk, n - 1);
      assert forall a :: 0 <= a < |xs| ==> xs[a] in xs;
    }
  }

  /** Inode 0 leads the free list exactly when its slot on disk is free. */
  lemma {:induction false} ZeroLeads(sb: Super, disk: seq<Block>, n: nat)
    requires n > 0
    ensures 0 in FreeBelow(sb, disk, n) <==> Kind(DiskSlot(sb, disk, 0)) == 0
    ensures 0 in FreeBelow(sb, disk, n) ==> FreeBelow(sb, disk, n)[0] == 0
  {
    hide DiskSlot, Kind;
    FreeBelowExact(sb, disk, n);
    if n > 1 {
      ZeroLeads(sb, disk, n - 1);
    } else {
      assert FreeBelow(sb, disk, 0) == [];
    }
  }

  /** Table slot of a dinode read from byte `n` on: its bytes, or zeros if its type is 0. */
  ghost predicate LoadedFrom(disk: seq<Block>, n: nat, raw: Raw) {
    forall k: nat :: k < 64 ==> raw[k] == if Le16(disk, n) == 0 then 0 else At(disk, n + k)
  }

  lemma FreePlaces(sb: Super, disk: seq<Block>)
    requires Bitmap.Device(sb, disk)
    ensures forall i: nat :: i < sb.ninodes ==>
      LoadedFrom(disk, 512 * sb.inodestart + 64 * i, LoadedSlot(sb, disk, i))
    ensures forall i: nat ::
      i in FreeBelow(sb, disk, sb.ninodes) <==> i < sb.ninodes && Le16(disk, 512 * sb.inodestart + 64 * i) == 0
  {
    hide DiskSlot, At, WellFormed, Kind;
    FreeBelowExact(sb, disk, sb.ninodes);
    forall i: nat | i < sb.ninodes
      ensures LoadedFrom(disk, 512 * sb.inodestart + 64 * i, LoadedSlot(sb, disk, i))
      ensures Kind(DiskSlot(sb, disk, i)) == 0 <==> Le16(disk, 512 * sb.inodestart + 64 * i) == 0
    {
      forall k: nat | k < 64 ensures DiskSlot(sb, disk, i)[k] == At(disk, 512 * sb.inodestart + 64 * i + k) {
        SlotPlace(sb, disk, i, k);
      }
      FieldPlaces(DiskSlot(sb, disk, i));
    }
  }

  lemma {:induction false} FreeIncreasing(sb: Super, disk: seq<Block>, n: nat)
    ensures var xs := FreeBelow(sb, disk, n); forall a, b :: 0 <= a < b < |xs| ==> xs[a] < xs[b]
  {
    hide DiskSlot, Kind;
    if n > 0 {
      FreeIncreasing(sb, disk, n - 1);
      FreeBelowExact(sb, disk, n - 1);
      var xs := FreeBelow(sb, disk, n - 1);
      assert forall a :: 0 <= a < |xs| ==> xs[a] in xs;
    }
  }

  lemma FreeBelowStep(sb: Super, disk: seq<Block>, n: nat)
    ensures FreeBelow(sb, disk, 0) == []
    ensures var raw := DiskSlot(sb, disk, n);
      && FreeBelow(sb, disk, n + 1) == FreeBelow(sb, disk, n) + (if Kind(raw) == 0 then [n] else [])
      && LoadedSlot(sb, disk, n) == if Kind(raw) == 0 then ZeroRaw() else raw
  {
    hide DiskSlot, Kind, ZeroRaw;
  }

  lemma SlotInBlock(sb: Super, disk: seq<Block>, i: nat, blk: Block)
    requires IBlock(sb, i) < |disk| && blk == disk[IBlock(sb, i)]
    ensures RawAt(blk, IOffset(i)) == DiskSlot(sb, disk, i)
    ensures (i + 1) % IPB != 0 ==> IBlock(sb, i + 1) == IBlock(sb, i)
  {
    hide RawAt;
  }

  /** `xv6fs_load_dinodes`: one pass over the table, one block read per eight inodes. */
  method LoadDinodes(v: Volume) returns (r: Result<()>)
    requires Bitmap.Device(v.sb, v.disk)
    modifies v`table, v`free, v`freeCount, v`faults
    ensures r.Ok? ==>
      && |v.table| == v.sb.ninodes && v.free == FreeBelow(v.sb, v.disk, v.sb.ninodes) && v.freeCount == |v.free|
      && (forall i: nat :: i < v.sb.ninodes ==> v.table[i] == LoadedSlot(v.sb, v.disk, i))
      && v.faults == old(v.faults)
    ensures r.Ok? ==>
      forall i: nat :: i < v.sb.ninodes ==> LoadedFrom(v.disk, 512 * v.sb.inodestart + 64 * i, v.table[i])
    ensures r.Ok? ==>
      forall i: nat :: i in v.free <==> i < v.sb.ninodes && Le16(v.disk, 512 * v.sb.inodestart + 64 * i) == 0
    ensures r.Ok? ==> forall a, b :: 0 <= a < b < |v.free| ==> v.free[a] < v.free[b]
    ensures r.Err? ==> r.error == EIO && v.faults > old(v.faults) && v.table == [] && v.free == [] && v.freeCount == 0
  {
    hide LoadedFrom, Le16;
    hide RawAt, Kind, DiskSlot, LoadedSlot, IBlock, WellFormed, ZeroRaw, FreeBelow;
    FreeBelowStep(v.sb, v.disk, 0);
    v.table := seq(v.sb.ninodes, _ => ZeroRaw());
    v.free := [];
    v.freeCount := 0;
    var bh: Option<Block> := None;
    var i := 0;
    while i < v.sb.ninodes
      invariant i <= v.sb.ninodes == |v.table| && v.faults == old(v.faults)
      invariant i % IPB != 0 ==> bh.Some? && IBlock(v.sb, i) < |v.disk| && bh.value == v.disk[IBlock(v.sb, i)]
      invariant v.free == FreeBelow(v.sb, v.disk, i) && v.freeCount == |v.free|
      invariant forall j: nat :: j < i ==> v.table[j] == LoadedSlot(v.sb, v.disk, j)
      invariant forall j: nat :: i <= j < |v.table| ==> v.table[j] == ZeroRaw()
    {
      if i % IPB == 0 {
        bh := v.BRead(IBlock(v.sb, i));
        if bh.None? {
          v.table, v.free, v.freeCount := [], [], 0;
          return Err(EIO);
        }
      }
      var raw := RawAt(bh.value, IOffset(i));
      SlotInBlock(v.sb, v.disk, i, bh.value);
      FreeBelowStep(v.sb, v.disk, i);
      if Kind(raw) == 0 {
        v.free := v.free + [i];
        v.freeCount := v.freeCount + 1;
      } else {
        v.table := v.table[i := raw];
      }
      i := i + 1;
    }
    FreeIncreasing(v.sb, v.disk, v.sb.ninodes);
    FreePlaces(v.sb, v.disk);
    return Ok(());
  }

  /** The state a disk mounts to. */
  ghost function MountedFs(sb: Super, disk: seq<Block>): Fs {
    var free := FreeBelow(sb, disk, sb.ninodes);
    Fs(sb, disk, seq(sb.ninodes, i requires 0 <= i => LoadedSlot(sb, disk, i)), free, |free|, map[])
  }

  /** The state after mounting: loaded from the disk, with nothing in core. */
  ghost predicate Mounted(s: Fs) {
    && Shape(s) && s.cache == map[]
    && s.free == FreeBelow(s.sb, s.disk, s.sb.ninodes) && s.freeCount == |s.free|
    && forall i: nat :: i < |s.table| ==> s.table[i] == LoadedSlot(s.sb, s.disk, i)
  }

  lemma MountedIs(s: Fs)
    ensures Mounted(s) <==> Bitmap.Device(s.sb, s.disk) && s == MountedFs(s.sb, s.disk)
  {
    hide DiskSlot, Kind, LoadedSlot, FreeBelow;
    if Mounted(s) {
      assert s.table == MountedFs(s.sb, s.disk).table;
    }
  }

  /** Every mount leaves a list that `new_inode` can take from. */
  lemma MountedList(s: Fs)
    requires Mounted(s)
    ensures ListOk(s)
    ensures forall i: nat :: InUse(s, i) <==> 0 < i < |s.table| && Kind(DiskSlot(s.sb, s.disk, i)) != 0
  {
    hide DiskSlot, Kind;
    FreeBelowExact(s.sb, s.disk, s.sb.ninodes);
    ZeroKind();
  }

  /** The partition that the runs rely on holds after a mount exactly when slot 0 is not free on disk. */
  lemma MountedLists(s: Fs)
    requires Mounted(s)
    ensures Lists(s) <==> Kind(DiskSlot(s.sb, s.disk, 0)) != 0
  {
    hide DiskSlot, Kind, InUse;
    MountedList(s);
    FreeBelowExact(s.sb, s.disk, s.sb.ninodes);
    assert 0 in s.free <==> Kind(DiskSlot(s.sb, s.disk, 0)) == 0;
  }

  /**
   A clean volume whose inodes have all been written and evicted mounts again with
   the same inodes and the same set of free inodes, except that the free list then
   also holds inode 0 if and only if slot 0 is free on disk.
   */
  lemma Remount(s: Fs, own: Owners, s': Fs)
    requires Sound(s, own, true) && s.cache == map[] && Mounted(s') && s'.sb == s.sb && s'.disk == s.disk
    ensures forall i: nat :: i in s'.free <==> i in s.free || (i == 0 && Kind(DiskSlot(s.sb, s.disk, 0)) == 0)
    ensures forall i: nat :: InUse(s', i) <==> InUse(s, i)
    ensures forall i: nat :: InUse(s, i) ==> Ino(s', i) == Ino(s, i)
    ensures Owns(s', own) && MetaMarked(s') && Widths(s') && NoLeak(s', own)
    ensures Kind(DiskSlot(s.sb, s.disk, 0)) != 0 ==> Sound(s', own, true) && |s'.free| == |s.free|
  {
    hide Decode, DiskSlot, Kind, PointersOwned, OwnersPoint, NoLeak, MetaMarked, InWidth, StraySame, WordAt;
    FreeBelowExact(s.sb, s.disk, s.sb.ninodes);
    ZeroKind();
    forall i: nat | 0 < i < |s.table|
      ensures (InUse(s', i) <==> InUse(s, i)) && (InUse(s, i) ==> s'.table[i] == s.table[i])
    {
      OnDiskSlot(s, i);
    }
    RecordsOwn(s, own, s');
    StraySameGrows(s, own, s', own);
    BlockMap.StrayKeepsMeta(s, own, s', own);
    NoLeakKept(s, own, s', own);
    if Kind(DiskSlot(s.sb, s.disk, 0)) != 0 {
      SameElements(s.free, s'.free);
    }
  }

  ghost function Elements(xs: seq<nat>): set<nat> { set i | i in xs }

  lemma SameElements(xs: seq<nat>, ys: seq<nat>)
    requires Distinct(xs) && Distinct(ys) && forall i: nat :: i in xs <==> i in ys
    ensures |xs| == |ys|
  {
    DistinctCount(xs);
    DistinctCount(ys);
    assert Elements(xs) == Elements(ys);
  }

  lemma {:induction false} DistinctCount(xs: seq<nat>)
    requires Distinct(xs)
    ensures |Elements(xs)| == |xs|
  {
    if xs == [] {
      assert Elements(xs) == {};
    } else {
      var n := |xs| - 1;
      var ys := xs[..n];
      DistinctCount(ys);
      assert xs == ys + [xs[n]];
      assert xs[n] !in Elements(ys);
      assert Elements(xs) == Elements(ys) + {xs[n]};
    }
  }
}
