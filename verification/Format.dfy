/**
 A freshly formatted disk: metadata marked, a root directory with its two dot
 entries, every other inode but perhaps slot 0 free.  On every well-formed layout with
 a data block it is consistent, and with slot 0 reserved it can be run on.
 */
module Format {
  import opened Bytes
  import opened Layout
  import opened Codec
  import opened Results
  import opened State
  import opened Bitmap
  import opened Ownership
  import opened BlockMap
  import opened Cursor
  import Listing
  import opened Directory
  import opened Inodes
  import Mount
  import opened Tree
  import opened Namespace
  import Ops
  import Run
  import Boot

  function BlankDisk(n: nat): (d: seq<Block>)
    ensures |d| == n && forall x: nat :: x < n ==> d[x] == ZeroBlock()
  {
    seq(n, _ => ZeroBlock())
  }

  lemma BlankHasNoBits(sb: Super, b: nat)
    requires WellFormed(sb)
    ensures !IsSet(sb, BlankDisk(sb.size), b)
  {
    if b < sb.size {
      BitmapOnDevice(sb, b);
      ZeroHasNoBits(BOffset(b) % 8);
    }
  }

  /** The bitmap with blocks 0..n-1 marked. */
  ghost function MarkBelow(sb: Super, n: nat): (d: seq<Block>)
    requires WellFormed(sb) && n <= sb.size
    ensures |d| == sb.size
  {
    if n == 0 then BlankDisk(sb.size)
    else BitmapOnDevice(sb, n - 1); SetBit(sb, MarkBelow(sb, n - 1), n - 1, true)
  }

  lemma {:induction false} MarkedBelow(sb: Super, n: nat)
    requires WellFormed(sb) && n <= sb.size
    ensures forall b: nat :: IsSet(sb, MarkBelow(sb, n), b) <==> b < n
    ensures forall x: nat :: x < sb.size && (x < sb.bmapstart || DStart(sb) <= x) ==> MarkBelow(sb, n)[x] == ZeroBlock()
  {
    hide IsSet, SetBit;
    if n == 0 {
      forall b: nat ensures !IsSet(sb, MarkBelow(sb, n), b) {
        BlankHasNoBits(sb, b);
      }
    } else {
      MarkedBelow(sb, n - 1);
      SetBitLaw(sb, MarkBelow(sb, n - 1), n - 1, true);
    }
  }

  lemma {:induction false} OnesFull(sb: Super, disk: seq<Block>, lo: nat, hi: nat)
    requires Device(sb, disk) && lo <= hi && forall b: nat :: lo <= b < hi ==> IsSet(sb, disk, b)
    ensures Ones(sb, disk, lo, hi) == hi - lo
  {
    hide IsSet;
    if lo < hi {
      OnesFull(sb, disk, lo, hi - 1);
    }
  }

  /**
   The failing input of the free count: a full volume that spans 2^31 counted bits or
   more.  None of its blocks is free, yet the accumulator has wrapped, and the count
   is 2^32 by the contract of `CountFree`.
   */
  lemma FullVolumeMiscounts(sb: Super)
    requires WellFormed(sb) && sb.size - DStart(sb) / BPB * BPB >= U32 / 2
    ensures Device(sb, MarkBelow(sb, sb.size)) && FreeBlocks(sb, MarkBelow(sb, sb.size)) == 0
    ensures Ones(sb, MarkBelow(sb, sb.size), DStart(sb) / BPB * BPB, sb.size) >= U32 / 2
  {
    hide IsSet, MarkBelow;
    MarkedBelow(sb, sb.size);
    NoZeros(sb, MarkBelow(sb, sb.size), DStart(sb), sb.size);
    OnesFull(sb, MarkBelow(sb, sb.size), DStart(sb) / BPB * BPB, sb.size);
  }

  /** The largest volume is one. */
  lemma LargestMiscounts()
    ensures var sb := Super(U32 - 1, 2, 2, 3); WellFormed(sb) && sb.size - DStart(sb) / BPB * BPB >= U32 / 2
  {
  }

  function Numbers(lo: nat, hi: nat): (r: seq<nat>)
    requires lo <= hi
    ensures |r| == hi - lo && forall k: nat :: k < |r| ==> r[k] == lo + k
  {
    seq(hi - lo, k requires 0 <= k => lo + k)
  }

  ghost function BareDisk(sb: Super, slot0: Raw): (d: seq<Block>)
    requires WellFormed(sb)
    ensures |d| == sb.size
  {
    SetDiskSlot(sb, MarkBelow(sb, DStart(sb)), 0, slot0)
  }

  lemma BareDiskLaw(sb: Super, slot0: Raw)
    requires WellFormed(sb)
    ensures forall b: nat :: IsSet(sb, BareDisk(sb, slot0), b) <==> b < DStart(sb)
    ensures forall i: nat :: i < sb.ninodes ==>
      DiskSlot(sb, BareDisk(sb, slot0), i) == if i == 0 then slot0 else ZeroRaw()
  {
    hide IsSet, MarkBelow, Encode, RawAt, SetRaw;
    var disk := MarkBelow(sb, DStart(sb));
    MarkedBelow(sb, DStart(sb));
    DiskSlotLaw(sb, disk, 0, slot0);
    WriteKeepsBits(sb, disk, IBlock(sb, 0), BareDisk(sb, slot0)[IBlock(sb, 0)]);
    assert BareDisk(sb, slot0) == disk[IBlock(sb, 0) := BareDisk(sb, slot0)[IBlock(sb, 0)]];
    forall b: nat ensures IsSet(sb, BareDisk(sb, slot0), b) <==> b < DStart(sb) {
      assert IsSet(sb, disk, b) <==> b < DStart(sb);
      if b >= sb.size {
        assert !IsSet(sb, BareDisk(sb, slot0), b);
      }
    }
    forall i: nat | 0 < i < sb.ninodes ensures DiskSlot(sb, disk, i) == ZeroRaw() {
      RegionsDisjoint(sb, i, i, 0, 0);
      ZeroSlot(IOffset(i));
    }
  }

  lemma ZeroSlot(k: nat)
    requires k < IPB
    ensures RawAt(ZeroBlock(), k) == ZeroRaw()
  {
  }

  /** Before the dot entries: an empty root directory in core, made as `mkfs` counts its links. */
  ghost function Bare(sb: Super, slot0: Raw): Fs
    requires WellFormed(sb)
  {
    Fs(sb, BareDisk(sb, slot0), seq(sb.ninodes, _ => ZeroRaw())[0 := slot0], Numbers(2, sb.ninodes), sb.ninodes - 2,
       map[ROOTINO := Inode(T_DIR, 0, 0, 1, 0, NoAddrs(), true)])
  }

  lemma BareInUse(sb: Super, slot0: Raw, i: nat)
    requires WellFormed(sb)
    ensures Shape(Bare(sb, slot0)) && (InUse(Bare(sb, slot0), i) <==> i == ROOTINO)
  {
    hide IsSet, Kind, BareDisk;
    ZeroKind();
  }

  lemma BareOwns(sb: Super, slot0: Raw)
    requires WellFormed(sb)
    ensures var s := Bare(sb, slot0); Owns(s, map[]) && MetaMarked(s) && NoLeak(s, map[])
  {
    hide IsSet, InUse, WordAt, BareDisk, Decode;
    var s := Bare(sb, slot0);
    BareDiskLaw(sb, slot0);
    forall i: nat ensures Shape(s) && (InUse(s, i) <==> i == ROOTINO) {
      BareInUse(sb, slot0, i);
    }
    assert forall k: nat :: Ptr(s, ROOTINO, k) == 0;
  }

  lemma BareLists(sb: Super, slot0: Raw)
    requires WellFormed(sb)
    ensures Lists(Bare(sb, slot0)) && Widths(Bare(sb, slot0)) && CleanCached(Bare(sb, slot0))
  {
    hide InUse, BareDisk;
    var s := Bare(sb, slot0);
    forall i: nat ensures Shape(s) && (InUse(s, i) <==> i == ROOTINO) {
      BareInUse(sb, slot0, i);
    }
    forall i: nat | 0 < i < |s.table| ensures i in s.free <==> !InUse(s, i) {
      if i >= 2 {
        assert s.free[i - 2] == i;
      }
    }
  }

  lemma BareOnDisk(sb: Super, slot0: Raw)
    requires WellFormed(sb)
    ensures TableOnDisk(Bare(sb, slot0))
  {
    hide BareDisk, Kind, DiskSlot;
    BareDiskLaw(sb, slot0);
  }

  lemma BareSound(sb: Super, slot0: Raw)
    requires WellFormed(sb)
    ensures Sound(Bare(sb, slot0), map[], true)
  {
    hide Owns, MetaMarked, NoLeak, Lists, Widths, CleanCached, TableOnDisk, Bare;
    BareOwns(sb, slot0);
    BareLists(sb, slot0);
    BareOnDisk(sb, slot0);
  }

  lemma BareAbs(sb: Super, slot0: Raw)
    requires WellFormed(sb)
    ensures Abs(Bare(sb, slot0)) == Ns(map[ROOTINO := Node(T_DIR, 1)], map[])
    ensures LinkedDir(Bare(sb, slot0), ROOTINO) && Slots(Bare(sb, slot0), ROOTINO) == []
    ensures Walkable(Bare(sb, slot0), ROOTINO)
  {
    hide InUse, BareDisk, Slot, Listing.CName;
    var s := Bare(sb, slot0);
    forall i: nat ensures InUse(s, i) <==> i == ROOTINO {
      BareInUse(sb, slot0, i);
    }
    AbsIs(s, Ns(map[ROOTINO := Node(T_DIR, 1)], map[]));
  }

  /** Storing the first entry of the root: its first block is the first data block. */
  lemma FirstEntry(s: Fs, own: Owners, name: Listing.Name) returns (s': Fs, own': Owners)
    requires Owns(s, own) && Walkable(s, ROOTINO) && Listing.ValidName(name) && Slots(s, ROOTINO) == []
    requires LMap(s, ROOTINO, 0) == 0 && DStart(s.sb) < s.sb.size && !Used(s, DStart(s.sb))
    ensures AddPost(s, own, s', own', ROOTINO, name, ROOTINO, Ok(0)) && ROOTINO in s'.cache && LMap(s', ROOTINO, 0) != 0
  {
    hide PointersOwned, OwnersPoint, IsSet, SetBit, SetDirent, DirentAt, Attached, AddPost, Slots, Ptr, Decode;
    var b := DStart(s.sb);
    BitmapOnDevice(s.sb, b);
    assert CanAttach(s, own, ROOTINO, 0, b);
    AttachDirectLaw(s, own, ROOTINO, 0, b);
    var t := AttachDirect(s, ROOTINO, 0, b);
    AttachedMaps(s, own, t, ROOTINO, 0, b);
    own' := own[b := (ROOTINO, 0)];
    CreateMaps(s, own, t, own', ROOTINO, 0, Mapped(b, true));
    s' := StoreEntry(s, own, t, own', name, 0, true);
  }

  lemma StoreEntry(s: Fs, own: Owners, t: Fs, own': Owners, name: Listing.Name, p: nat, isNew: bool) returns (s': Fs)
    requires Owns(s, own) && Walkable(s, ROOTINO) && Listing.ValidName(name)
      && FreeSlot(Slots(s, ROOTINO), p) && p < DPB
    requires ROOTINO in t.cache && MapPost(s, own, t, own', ROOTINO, 0, true, Ok(Mapped(LMap(t, ROOTINO, 0), isNew)))
    ensures AddPost(s, own, s', own', ROOTINO, name, ROOTINO, Ok(p)) && ROOTINO in s'.cache && LMap(s', ROOTINO, 0) != 0
  {
    hide Owns, IsSet, SetDirent, DirentAt, AddPost, Slots, Ptr, Decode, MapPost;
    var size := Covering(s.cache[ROOTINO].size, p);
    AddSucceeds(s, own, t, own', ROOTINO, name, ROOTINO, p, isNew, size);
    CreateMaps(s, own, t, own', ROOTINO, 0, Mapped(LMap(t, ROOTINO, 0), isNew));
    s' := AddedState(t, ROOTINO, p, NewDirent(name, ROOTINO), isNew, size);
    var e := NewDirent(name, ROOTINO);
    var blk: Block := SetDirent(if isNew then ZeroBlock() else t.disk[LMap(t, ROOTINO, 0)], p % DPB, e);
    WriteBlockLaw(t, own', ROOTINO, 0, blk);
    ResizedPtr(WriteBlock(t, LMap(t, ROOTINO, 0), blk), ROOTINO, size);
  }

  lemma ResizedPtr(s: Fs, d: nat, size: nat)
    requires d in s.cache
    ensures forall k: nat :: Ptr(Resized(s, d, size), d, k) == Ptr(s, d, k)
  {
    hide WordAt, Decode;
  }

  ghost function RootNs(): Ns {
    Ns(map[ROOTINO := Node(T_DIR, 1)],
       map[(ROOTINO, 0) := Listing.Entry(Dot(), ROOTINO), (ROOTINO, 1) := Listing.Entry(DotDot(), ROOTINO)])
  }

  lemma RootShape()
    ensures Closed(RootNs()) && UniqueNames(RootNs()) && DotTargets(RootNs())
    ensures forall i :: !IsFile(RootNs(), i)
    ensures forall x :: !NamesDir(RootNs(), x)
    ensures forall i :: IsDir(RootNs(), i) <==> i == ROOTINO
  {
  }

  lemma RootDots()
    ensures HasDots(RootNs())
  {
    assert Has(RootNs(), ROOTINO, Dot(), (ROOTINO, 0)) && Has(RootNs(), ROOTINO, DotDot(), (ROOTINO, 1));
  }

  lemma RootParents()
    ensures Parents(RootNs())
  {
    assert OneEntry(RootNs()) && HasEntry(RootNs());
    hide OneEntry, HasEntry;
    assert forall y :: Has(RootNs(), ROOTINO, DotDot(), y) ==> y == (ROOTINO, 1);
  }

  /** One root with "." and ".." naming itself. */
  lemma RootOnly()
    ensures WellLinked(RootNs(), 1)
  {
    RootShape();
    RootDots();
    RootParents();
    assert ChildDirs(RootNs(), ROOTINO) == {} && RootNs().nodes[ROOTINO].nlink == 1;
    hide Closed, UniqueNames, DotTargets, HasDots, Parents, IsFile, IsDir, RootNs, ChildDirs;
  }

  /** The root with its dot entries, still in core. */
  lemma FormattedRoot(sb: Super, slot0: Raw) returns (s: Fs, own: Owners)
    requires WellFormed(sb) && DStart(sb) < sb.size
    ensures s.sb == sb && Sound(s, own, true) && Abs(s) == RootNs()
    ensures s.cache.Keys == {ROOTINO} && s.free == Numbers(2, sb.ninodes)
    ensures forall i: nat :: i < sb.ninodes ==> DiskSlot(sb, s.disk, i) == if i == 0 then slot0 else ZeroRaw()
  {
    hide Sound, Abs, Bare, LinkedDir, Slots, AddPost, Owns, MetaMarked, LMap, Used, Walkable, PutSlot, FreeSlot;
    hide DiskSlot, Encode;
    var s0 := Bare(sb, slot0);
    BareSound(sb, slot0);
    BareAbs(sb, slot0);
    BareStart(sb, slot0);
    Ops.SoundOwns(s0, map[], true);
    Ops.DotNames();
    var s1, own1 := FirstEntry(s0, map[], Dot());
    Ops.AddSound(s0, map[], s1, own1, ROOTINO, Dot(), ROOTINO, Ok(0), true, true);
    Added(s0, map[], s1, own1, ROOTINO, Dot(), ROOTINO, 0);
    Ops.SoundOwns(s1, own1, true);
    SecondSlot(s0, map[], s1, own1);
    DotBlock(s1, own1);
    s := StoreEntry(s1, own1, s1, own1, DotDot(), 1, false);
    own := own1;
    Ops.AddSound(s1, own1, s, own, ROOTINO, DotDot(), ROOTINO, Ok(1), true, true);
    Added(s1, own1, s, own, ROOTINO, DotDot(), ROOTINO, 1);
    assert Abs(s) == RootNs();
    AddedFrom(s0, map[], s1, own1, Dot(), 0);
    AddedFrom(s1, own1, s, own, DotDot(), 1);
  }

  /** A root in core is written and evicted; nothing the driver reads changes. */
  lemma PutAway(s: Fs, own: Owners) returns (s': Fs)
    requires Sound(s, own, true) && s.cache.Keys == {ROOTINO}
    ensures Sound(s', own, true) && s'.cache == map[] && Abs(s') == Abs(s) && s'.sb == s.sb && s'.free == s.free
    ensures DiskSlot(s'.sb, s'.disk, 0) == DiskSlot(s.sb, s.disk, 0)
  {
    hide Sound, Abs, Owns, MetaMarked, Elsewhere, SetDiskSlot, Encode, Decode, Ptr, DiskSlot, Ino, Kind;
    SoundShape(s, own, true);
    assert ROOTINO in s.cache;
    RegionsDisjoint(s.sb, ROOTINO, ROOTINO, 0, 0);
    var disk := SetDiskSlot(s.sb, s.disk, ROOTINO, Encode(s.cache[ROOTINO]));
    var w := WrittenState(s, ROOTINO, disk);
    DiskSlotLaw(s.sb, s.disk, ROOTINO, Encode(s.cache[ROOTINO]));
    WriteInodeLaw(s, own, ROOTINO, disk, true, true);
    Run.WriteQuiet(s, own, w, ROOTINO, true);
    CachedKind(w, own, ROOTINO, true);
    UncacheLaw(w, own, ROOTINO, true);
    Run.UncacheQuiet(w, own, ROOTINO, true);
    s' := UncachedState(w, ROOTINO);
  }

  /**
   Every well-formed layout with at least one data block has a consistent image: the
   root directory alone, all inodes from 2 on free, and in slot 0 any dinode at all.
   With one of non-zero type it can be run on at once.  With zeros, as `mkfs` plans it,
   the first file is lost.
   */
  lemma FormattedImage(sb: Super, slot0: Raw) returns (disk: seq<Block>)
    requires WellFormed(sb) && DStart(sb) < sb.size
    ensures Boot.Consistent(sb, disk, 1) && Abs(Mount.MountedFs(sb, disk)) == RootNs() && DiskSlot(sb, disk, 0) == slot0
    ensures forall i: nat ::
      i in Mount.MountedFs(sb, disk).free <==> 2 <= i < sb.ninodes || (i == 0 && Kind(slot0) == 0)
    ensures Kind(slot0) != 0 ==> Boot.Image(sb, disk, 1)
  {
    hide Sound, Abs, WellLinked, DiskSlot, Kind, RootNs, Boot.Consistent, Mount.MountedFs;
    var s, own := FormattedRoot(sb, slot0);
    var t := PutAway(s, own);
    RootOnly();
    Boot.UnmountedImage(t, own, 1);
    disk := t.disk;
    InNumbers(2, sb.ninodes);
  }

  lemma InNumbers(lo: nat, hi: nat)
    requires lo <= hi
    ensures forall i: nat :: i in Numbers(lo, hi) <==> lo <= i < hi
  {
    forall i: nat | lo <= i < hi ensures i in Numbers(lo, hi) {
      assert Numbers(lo, hi)[i - lo] == i;
    }
  }


  lemma BareStart(sb: Super, slot0: Raw)
    requires WellFormed(sb)
    ensures var s := Bare(sb, slot0);
      && s.sb == sb && s.cache.Keys == {ROOTINO} && s.free == Numbers(2, sb.ninodes)
      && LMap(s, ROOTINO, 0) == 0 && !Used(s, DStart(sb))
      && forall i: nat :: i < sb.ninodes ==> DiskSlot(sb, s.disk, i) == if i == 0 then slot0 else ZeroRaw()
  {
    hide IsSet, BareDisk;
    BareDiskLaw(sb, slot0);
  }

  lemma SecondSlot(s: Fs, own: Owners, s': Fs, own': Owners)
    requires AddPost(s, own, s', own', ROOTINO, Dot(), ROOTINO, Ok(0)) && Slots(s, ROOTINO) == []
    ensures FreeSlot(Slots(s', ROOTINO), 1)
  {
    hide Owns, Others, StraySame, Slots;
  }

  lemma DotBlock(s: Fs, own: Owners)
    requires Owns(s, own) && ROOTINO in s.cache && LMap(s, ROOTINO, 0) != 0
    ensures MapPost(s, own, s, own, ROOTINO, 0, true, Ok(Mapped(LMap(s, ROOTINO, 0), false)))
  {
    hide Owns, Ptr, Used, MapPost;
    MapUnchanged(s, own, ROOTINO, 0, true, Ok(Mapped(LMap(s, ROOTINO, 0), false)));
  }

  lemma AddedFrom(s: Fs, own: Owners, s': Fs, own': Owners, name: Listing.Name, p: nat)
    requires Shape(s) && AddPost(s, own, s', own', ROOTINO, name, ROOTINO, Ok(p))
    ensures s'.sb == s.sb && s'.free == s.free && s'.cache.Keys == s.cache.Keys
    ensures forall i: nat :: i < |s.table| ==> DiskSlot(s.sb, s'.disk, i) == DiskSlot(s.sb, s.disk, i)
  {
    assert Others(s, own, s', own', ROOTINO);
    hide AddPost, Others, Elsewhere, DiskSlot;
    KeysKept(s, own, s', own', ROOTINO);
    OthersElsewhere(s, own, s', own', ROOTINO);
  }
}
