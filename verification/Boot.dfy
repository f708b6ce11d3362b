/** From a disk image to runs: what a mount needs of the image, and what it makes of inode 0. */
module Boot {
  import opened Bytes
  import opened Layout
  import opened Codec
  import opened Results
  import opened State
  import Bitmap
  import opened Ownership
  import Counting
  import opened BlockMap
  import Truncate
  import opened Cursor
  import opened Listing
  import opened Directory
  import DirMap
  import opened Inodes
  import opened Mount
  import opened Tree
  import opened Namespace
  import opened Ops
  import DirOps
  import opened Calls
  import opened Run
  import opened Theorems

  // ---------------------------------------------------------- mount and run

  /**
   A consistent disk image, stated of its bytes: no shared, unmarked or misplaced
   block pointer, metadata marked, no leaked block, fields within their bounds, and a
   tree with right link counts.
   */
  ghost predicate Consistent(sb: Super, disk: seq<Block>, base: nat) {
    var s := MountedFs(sb, disk);
    && Bitmap.Device(sb, disk) && NoSharing(s) && MetaMarked(s) && Widths(s)
    && (forall b: nat :: DStart(sb) <= b && Used(s, b) ==> b in Owned(s))
    && WellLinked(Abs(s), base) && base + MAXSLOTS - 2 < U16
  }

  /** One that can be run on at once: slot 0 of its inode table is not free. */
  ghost predicate Image(sb: Super, disk: seq<Block>, base: nat) {
    Consistent(sb, disk, base) && Kind(DiskSlot(sb, disk, 0)) != 0
  }

  /** All of the invariant but the inode partition, which slot 0 decides. */
  lemma ConsistentMounts(sb: Super, disk: seq<Block>, base: nat) returns (own: Owners)
    requires Consistent(sb, disk, base)
    ensures var s := MountedFs(sb, disk);
      && Mounted(s) && Owns(s, own) && MetaMarked(s) && CleanCached(s) && Widths(s) && NoLeak(s, own) && TableOnDisk(s)
      && WellLinked(Abs(s), base) && base + MAXSLOTS - 2 < U16
  {
    hide NoSharing, MetaMarked, Widths, WellLinked, Abs, Owned, Used, DiskSlot, Kind, InUse, FreeBelow, LoadedSlot;
    hide PointersOwned, OwnersPoint;
    var s := MountedFs(sb, disk);
    MountedIs(s);
    OwnershipMeaning(s);
    own :| Owns(s, own);
    OwnersAreOwned(s, own);
    assert NoLeak(s, own);
    assert TableOnDisk(s) by { LoadedOnDisk(sb, disk); }
  }

  lemma ImageMounts(sb: Super, disk: seq<Block>, base: nat) returns (own: Owners)
    requires Image(sb, disk, base)
    ensures Sound(MountedFs(sb, disk), own, true)
  {
    hide Consistent, Owns, MetaMarked, Widths, CleanCached, NoLeak, TableOnDisk, WellLinked, Abs, Lists, Mounted, Kind;
    hide MountedFs, DiskSlot;
    own := ConsistentMounts(sb, disk, base);
    MountedParts(sb, disk);
    MountedLists(MountedFs(sb, disk));
  }

  lemma LoadedOnDisk(sb: Super, disk: seq<Block>)
    ensures TableOnDisk(MountedFs(sb, disk))
  {
    hide DiskSlot, Kind, FreeBelow;
    ZeroKind();
  }

  /**
   The converse: a clean volume with everything written back and evicted leaves a
   consistent image with the same name space.
   */
  lemma UnmountedImage(s: Fs, own: Owners, base: nat)
    requires Sound(s, own, true) && s.cache == map[] && WellLinked(Abs(s), base) && base + MAXSLOTS - 2 < U16
    ensures Consistent(s.sb, s.disk, base) && Abs(MountedFs(s.sb, s.disk)) == Abs(s)
    ensures forall i: nat :: i in MountedFs(s.sb, s.disk).free <==>
      i in s.free || (i == 0 && Kind(DiskSlot(s.sb, s.disk, 0)) == 0)
  {
    hide Lists, CleanCached, TableOnDisk, NoSharing, MetaMarked, Widths, WellLinked, Abs, Owned, Used, DiskSlot, Kind;
    hide InUse, FreeBelow, LoadedSlot, PointersOwned, OwnersPoint, Ino, MountedFs;
    var s' := MountedFs(s.sb, s.disk);
    assert s'.sb == s.sb && s'.disk == s.disk && |s'.table| == s.sb.ninodes by { MountedParts(s.sb, s.disk); }
    MountedIs(s');
    Remount(s, own, s');
    SameAbs(s, s');
    OwnershipMeaning(s');
    OwnersAreOwned(s', own);
    forall b: nat | DStart(s.sb) <= b && Used(s', b) ensures b in own {
      assert !Stray(s', own, b);
    }
  }

  lemma MountedParts(sb: Super, disk: seq<Block>)
    ensures var s := MountedFs(sb, disk); s.sb == sb && s.disk == disk && |s.table| == sb.ninodes
  {
    hide LoadedSlot, FreeBelow;
  }

  /** The name space is read off the inodes in use and the disk. */
  lemma SameAbs(s: Fs, s': Fs)
    requires s'.disk == s.disk && forall i: nat :: InUse(s', i) <==> InUse(s, i)
    requires forall i: nat :: InUse(s, i) ==> Ino(s', i) == Ino(s, i)
    ensures Abs(s') == Abs(s)
  {
    AbsAt(s);
    forall i: nat ensures NodeAt(s', i) == NodeAt(s, i) && forall p: nat :: EntAt(s', i, p) == EntAt(s, i, p) {
      if InUse(s, i) {
        SameInoSlots(s, s', i);
      }
      hide InUse, Ino, Slots, Live, EntryOf;
    }
    hide NodeAt, EntAt, Abs;
    AbsIs(s', Abs(s));
  }

  lemma SameInoSlots(s: Fs, s': Fs, d: nat)
    requires s'.disk == s.disk && Ino(s', d) == Ino(s, d)
    ensures Slots(s', d) == Slots(s, d)
  {
    hide Ino, WordAt, DirentAt;
    assert forall p: nat :: Slot(s', d, p) == Slot(s, d, p);
  }

  /**
   Mount an image and run any requests on it.  The mount fails only on a failed read;
   otherwise every state of the run is valid, the first one being the mounted image.
   */
  method MountAndRun(v: Volume, ops: seq<Request>, ghost base: nat)
    returns (r: Result<seq<Reply>>, ghost trace: seq<Moment>)
    requires v.steady && v.cache == map[] && Image(v.sb, v.disk, base)
    modifies v`disk, v`table, v`free, v`freeCount, v`cache, v`faults, v`nobuf, v`oom, v`owner
    ensures r.Err? ==> r.error == EIO && v.faults > old(v.faults) && v.disk == old(v.disk)
    ensures r.Ok? ==> Valid(v, base) && History(trace, ops, r.value)
    ensures r.Ok? ==> trace[0].fs == MountedFs(v.sb, old(v.disk)) && trace[|ops|] == Now(v)
    ensures r.Ok? ==> forall k :: 0 <= k < |trace| ==> ValidAt(trace[k], base)
  {
    hide Image, Sound, WellLinked, Abs, DiskSlot, Kind, FreeBelow, LoadedSlot, History, ValidAt;
    trace := [];
    ghost var own := ImageMounts(v.sb, v.disk, base);
    ImageTree(v.sb, v.disk, base);
    var l := LoadDinodes(v);
    if l.Err? {
      return Err(l.error), [];
    }
    assert Mounted(v.View());
    MountedIs(v.View());
    v.owner := own;
    SoundAfterRead(v.View(), own, true, v.faults == 0);
    var replies: seq<Reply>;
    replies, trace := RunAll(v, ops, base);
    r := Ok(replies);
  }

  lemma ImageTree(sb: Super, disk: seq<Block>, base: nat)
    requires Image(sb, disk, base)
    ensures Bitmap.Device(sb, disk) && WellLinked(Abs(MountedFs(sb, disk)), base) && base + MAXSLOTS - 2 < U16
  {
    hide NoSharing, MetaMarked, Widths, WellLinked, Abs, Owned, Used, DiskSlot, Kind;
  }

  // --------------------------------------------------------------- inode 0

  /** A directory that the cursor can walk once it is in core. */
  ghost predicate Enterable(s: Fs, d: nat) {
    && 0 < d < s.sb.ninodes && Ino(s, d).kind == T_DIR
    && Ino(s, d).size % DIRENT_SIZE == 0 && Ino(s, d).size <= MAXFILE * BSIZE
  }

  /** Names to enter: valid, different, and not in the directory yet. */
  ghost predicate NewNames(ds: seq<Dirent>, names: seq<Name>) {
    ValidNames(names) && forall k :: 0 <= k < |names| ==> Absent(ds, names[k])
  }

  ghost predicate ValidNames(names: seq<Name>) {
    && (forall k :: 0 <= k < |names| ==> ValidName(names[k]))
    && forall j, k :: 0 <= j < k < |names| ==> names[j] != names[k]
  }

  /** The first names lead to the numbers handed out for them, except number 0; the others are still absent. */
  ghost predicate Named(ds: seq<Dirent>, names: seq<Name>, handed: seq<nat>) {
    && |handed| <= |names|
    && (forall k :: 0 <= k < |handed| ==>
      DirMap.Lookup(ds, names[k]) == if handed[k] == 0 then None else Some(handed[k]))
    && (forall k :: |handed| <= k < |names| ==> Absent(ds, names[k]))
  }

  lemma NamedMore(ds: seq<Dirent>, ds': seq<Dirent>, names: seq<Name>, handed: seq<nat>, p: nat, i: nat)
    requires Named(ds, names, handed) && |handed| < |names| && FreeSlot(ds, p) && i < U16
    requires ValidNames(names) && ValidName(names[|handed|])
    requires ds' == PutSlot(ds, p, NewDirent(names[|handed|], i))
    ensures Named(ds', names, handed + [i])
  {
    hide DirMap.Lookup, Absent, CName, FreeSlot;
    var n := |handed|;
    DirMap.AddThenLookup(ds, p, names[n], i);
    forall k | n < k < |names| ensures Absent(ds', names[k]) {
      DirMap.LookupMeaning(ds, names[k]);
      DirMap.LookupMeaning(ds', names[k]);
    }
  }

  lemma NewSlots(s: Fs, isDir: bool, d: nat)
    requires d in s.cache && |s.free| > 0 && s.freeCount > 0 && d != s.free[0]
    ensures Slots(NewState(s, isDir), d) == Slots(s, d) && (Walkable(s, d) ==> Walkable(NewState(s, isDir), d))
    ensures d in NewState(s, isDir).cache
  {
    var s' := NewState(s, isDir);
    hide WordAt, DirentAt, Decode;
    assert forall p: nat :: Slot(s', d, p) == Slot(s, d, p);
  }

  lemma AddKeepsList(s: Fs, own: Owners, s': Fs, own': Owners, d: nat, name: Name, inum: nat, r: Result<nat>)
    requires ListOk(s) && AddPost(s, own, s', own', d, name, inum, r)
    ensures ListOk(s') && s'.free == s.free && Shape(s')
  {
    hide Slots, StraySame, PointersOwned, OwnersPoint, FreeSlot, AddNeed;
    assert forall i: nat :: InUse(s', i) <==> InUse(s, i);
  }

  /** Slot 0 decides whether 0 is among the numbers handed out first. */
  lemma ZeroHanded(sb: Super, disk: seq<Block>, n: nat)
    requires WellFormed(sb) && 0 < n <= |FreeBelow(sb, disk, sb.ninodes)|
    ensures 0 in FreeBelow(sb, disk, sb.ninodes)[..n] <==> Kind(DiskSlot(sb, disk, 0)) == 0
  {
    hide DiskSlot, Kind, FreeBelow;
    ZeroLeads(sb, disk, sb.ninodes);
    var free := FreeBelow(sb, disk, sb.ninodes);
    assert forall i :: i in free[..n] ==> i in free;
    assert free[0] in free[..n];
  }

  /** State of the run of creations: the names handed out so far are the head of the list the mount made. */
  ghost predicate Handing(v: Volume, d: nat, list: seq<nat>, names: seq<Name>, handed: seq<nat>)
    reads v
  {
    && Mapable(v, d) && Walkable(v.View(), d) && Shape(v.View()) && ListOk(v.View())
    && |handed| <= |list| && handed == list[..|handed|] && v.free == list[|handed|..]
    && (forall i :: i in list ==> i < v.sb.ninodes)
    && Named(Slots(v.View(), d), names, handed)
  }

  /** One creation: the next number of the list, entered under the next name. */
  method HandOut(v: Volume, d: nat, ghost list: seq<nat>, names: seq<Name>, handed: seq<nat>) returns (r: Result<nat>)
    requires v.steady && Handing(v, d, list, names, handed) && |handed| < |names|
    requires ValidNames(names)
    modifies v`disk, v`free, v`freeCount, v`cache, v`faults, v`nobuf, v`oom, v`owner
    ensures old(v.faults) <= v.faults && old(v.oom) <= v.oom
    ensures r.Ok? ==> Handing(v, d, list, names, handed + [r.value])
    ensures r.Err? ==>
      || (r.error == EIO && v.faults > old(v.faults)) || (r.error == ENOMEM && v.oom > old(v.oom))
      || (r.error == ENOSPC && (|list| == |handed| || Counting.FreeData(v.View()) == 0))
      || (r.error == EFBIG && FreeSlot(Slots(v.View(), d), MAXSLOTS))
  {
    hide Owns, MetaMarked, AddPost, Slots, Walkable, FreeSlot, Named, InUse, Distinct, Absent, Counting.FreeData;
    hide PutSlot, Sound, Used;
    ghost var s := v.View();
    var n := NewInode(v, false);
    if n.Err? {
      return Err(n.error);
    }
    var i := n.value;
    assert i == list[|handed|] && i in list;
    ghost var t, own := v.View(), v.owner;
    NewMeta(s, false);
    CachedInUse(s, d);
    NewSlots(s, false, d);
    var name := names[|handed|];
    assert ValidName(name);
    var a := AddEntry(v, d, name, i);
    AddKeepsList(t, own, v.View(), v.owner, d, name, i, a);
    StillWalkable(t, own, v.View(), v.owner, d, name, i, a);
    AddedStays(t, own, v.View(), v.owner, d, name, i, a);
    if a.Err? {
      EnterErrors(t, own, v.View(), v.owner, d, name, i, a.error);
      return Err(a.error);
    }
    NamedMore(Slots(t, d), Slots(v.View(), d), names, handed, a.value, i);
    assert handed + [i] == list[..|handed| + 1];
    return Ok(i);
  }

  lemma NewMeta(s: Fs, isDir: bool)
    requires MetaMarked(s) && |s.free| > 0 && s.freeCount > 0 && Shape(NewState(s, isDir))
    ensures MetaMarked(NewState(s, isDir))
  {
    hide Bitmap.IsSet;
  }

  lemma EnterErrors(t: Fs, own: Owners, u: Fs, own': Owners, d: nat, name: Name, i: nat, e: Errno)
    requires AddPost(t, own, u, own', d, name, i, Err(e)) && |name| <= DIRSIZ
    ensures e == EIO || (e == ENOSPC && Counting.FreeData(u) == 0) || (e == EFBIG && FreeSlot(Slots(u, d), MAXSLOTS))
  {
    hide PointersOwned, OwnersPoint, StraySame, Slots, FreeSlot, AddNeed, Used, Counting.FreeData;
    if e == ENOSPC {
      Counting.AllUsed(u);
    }
  }

  /**
   After a mount, create one file per name and then look the names up: every number
   handed out is found under the name it was entered by if and only if slot 0 of the
   inode table is not free on disk.  When it is free, the first number handed out is
   0, and the entry written for it is not found.
   */
  method MountAndCreate(v: Volume, d: nat, names: seq<Name>) returns (r: Result<()>, handed: seq<nat>, found: seq<bool>)
    requires v.steady && v.cache == map[] && Bitmap.Device(v.sb, v.disk)
    requires Owns(MountedFs(v.sb, v.disk), v.owner) && MetaMarked(MountedFs(v.sb, v.disk))
    requires Enterable(MountedFs(v.sb, v.disk), d) && NewNames(Slots(MountedFs(v.sb, v.disk), d), names)
    modifies v`disk, v`table, v`free, v`freeCount, v`cache, v`faults, v`nobuf, v`oom, v`owner
    ensures |found| <= |handed| <= |FreeBelow(v.sb, old(v.disk), v.sb.ninodes)|
    ensures handed == FreeBelow(v.sb, old(v.disk), v.sb.ninodes)[..|handed|]
    ensures forall k :: 0 <= k < |found| ==> (found[k] <==> handed[k] != 0)
    ensures r.Ok? ==> |found| == |handed| == |names|
    ensures r.Ok? && |names| > 0 ==>
      ((forall k :: 0 <= k < |names| ==> found[k]) <==> Kind(DiskSlot(v.sb, old(v.disk), 0)) != 0)
    ensures r.Err? ==>
      || (r.error == EIO && v.faults > old(v.faults)) || (r.error == ENOMEM && v.oom > old(v.oom))
      || (r.error == ENOSPC && (|handed| == |FreeBelow(v.sb, old(v.disk), v.sb.ninodes)|
        || Counting.FreeData(v.View()) == 0))
      || (r.error == EFBIG && FreeSlot(Slots(v.View(), d), MAXSLOTS))
  {
    hide Owns, MetaMarked, FreeBelow, LoadedSlot, Slots, DiskSlot, Kind, Handing, NewNames, FreeSlot,
      Counting.FreeData, Ino;
    handed, found := [], [];
    ghost var disk, list := v.disk, FreeBelow(v.sb, v.disk, v.sb.ninodes);
    r := LoadDinodes(v);
    if r.Err? {
      return;
    }
    assert Mounted(v.View());
    MountedIs(v.View());
    ghost var s := v.View();
    MountedBlank(s);
    var g := Iget(v, d);
    if g.Err? {
      DirReadable(s, d);
      return Err(g.error), [], [];
    }
    HandingStarts(v, s, d, names);
    var k := 0;
    while k < |names|
      invariant k == |handed| <= |names| && Handing(v, d, list, names, handed)
      invariant old(v.faults) <= v.faults && old(v.oom) <= v.oom
      invariant ValidNames(names)
    {
      HandingHead(v, d, list, names, handed);
      var i := HandOut(v, d, list, names, handed);
      if i.Err? {
        return Err(i.error), handed, [];
      }
      handed := handed + [i.value];
      k := k + 1;
    }
    HandingHead(v, d, list, names, handed);
    r, found := FindAll(v, d, names, handed);
    if |names| > 0 {
      ZeroHanded(v.sb, disk, |names|);
      AllFound(handed, found);
    }
  }

  lemma AllFound(handed: seq<nat>, found: seq<bool>)
    requires |found| <= |handed| && forall k :: 0 <= k < |found| ==> (found[k] <==> handed[k] != 0)
    ensures |found| == |handed| ==> ((forall k :: 0 <= k < |found| ==> found[k]) <==> 0 !in handed)
  {
    if |found| == |handed| && forall k :: 0 <= k < |found| ==> found[k] {
      forall k | 0 <= k < |handed| ensures handed[k] != 0 {
        assert found[k];
      }
    }
  }

  lemma MountedBlank(s: Fs)
    requires Mounted(s)
    ensures BlankSlots(s)
  {
    hide DiskSlot, Kind, Distinct, InUse, FreeBelow, LoadedSlot;
    MountedList(s);
  }

  lemma DirReadable(s: Fs, d: nat)
    requires Enterable(s, d)
    ensures !Unreadable(s, d)
  {
    hide Ino;
  }

  lemma HandingHead(v: Volume, d: nat, list: seq<nat>, names: seq<Name>, handed: seq<nat>)
    requires Handing(v, d, list, names, handed)
    ensures |handed| <= |list| && handed == list[..|handed|] && Mapable(v, d) && Walkable(v.View(), d)
    ensures Named(Slots(v.View(), d), names, handed) && forall k :: 0 <= k < |handed| ==> handed[k] < v.sb.ninodes
  {
    hide Owns, MetaMarked, Slots, Named, ListOk, Shape;
    forall k | 0 <= k < |handed| ensures handed[k] < v.sb.ninodes {
      assert handed[k] == list[k] && list[k] in list;
    }
  }

  lemma HandingStarts(v: Volume, s: Fs, d: nat, names: seq<Name>)
    requires Mounted(s) && Owns(s, v.owner) && MetaMarked(s) && Enterable(s, d) && NewNames(Slots(s, d), names)
    requires v.View() == LoadedState(s, d)
    ensures Handing(v, d, s.free, names, []) && ValidNames(names)
  {
    hide DiskSlot, Kind, Owns, MetaMarked, FreeBelow, LoadedSlot, Slots, Distinct, Ino, InUse;
    LoadedDir(s, v.owner, d);
    MountedList(s);
    assert s.free[0..] == s.free;
  }

  /** Loading the directory after the mount. */
  lemma LoadedDir(s: Fs, own: Owners, d: nat)
    requires Mounted(s) && Owns(s, own) && MetaMarked(s) && Enterable(s, d)
    ensures var t := LoadedState(s, d);
      && Shape(t) && ListOk(t) && Owns(t, own) && MetaMarked(t) && Walkable(t, d) && Slots(t, d) == Slots(s, d)
  {
    hide Bitmap.IsSet, DiskSlot, Decode, Kind, PointersOwned, OwnersPoint, StraySame, FreeBelow, LoadedSlot,
      Slots, Distinct;
    var t := LoadedState(s, d);
    MountedList(s);
    assert d !in s.free && InUse(s, d) by { DirInUse(s, d); }
    assert Shape(t);
    RecordsOwn(s, own, t);
    StraySameGrows(s, own, t, own);
    StrayKeepsMeta(s, own, t, own);
    SameInoSlots(s, t, d);
    assert forall i: nat :: InUse(t, i) <==> InUse(s, i);
  }

  lemma DirInUse(s: Fs, d: nat)
    requires Mounted(s) && Enterable(s, d)
    ensures InUse(s, d) && d !in s.free
  {
    hide DiskSlot, FreeBelow, LoadedSlot;
    MountedList(s);
  }

  // ------------------------------------------ a sound volume, and inode 0 in core

  /** The volume without inode 0 in core. */
  ghost function Without(s: Fs): Fs { s.(cache := s.cache - {0}) }

  /** Inode 0 is in core, with any blocks of its own; the rest of the volume is sound. */
  ghost predicate SoundBesides(s: Fs, own: Owners, clean: bool) {
    && 0 in s.cache && Owns(s, own) && MetaMarked(s)
    && Lists(Without(s)) && CleanCached(Without(s)) && Widths(Without(s))
    && (clean ==> NoLeak(s, own) && TableOnDisk(s))
  }

  lemma BesidesOwns(s: Fs, own: Owners, clean: bool)
    requires SoundBesides(s, own, clean)
    ensures 0 in s.cache && Owns(s, own) && MetaMarked(s) && Shape(s) && |s.table| > 0 && IBlock(s.sb, 0) < |s.disk|
  {
    hide PointersOwned, OwnersPoint, MetaMarked, Lists, CleanCached, Widths, NoLeak, TableOnDisk;
    RegionsDisjoint(s.sb, 0, 0, 0, 0);
  }

  lemma BesidesWidth(s: Fs, own: Owners, clean: bool, d: nat)
    requires SoundBesides(s, own, clean) && d in s.cache && d != 0
    ensures InWidth(s.cache[d])
  {
    hide PointersOwned, OwnersPoint, MetaMarked, Lists, CleanCached, NoLeak, TableOnDisk;
    assert InUse(Without(s), d);
    InWidthOf(Without(s), d);
  }

  lemma WithoutUse(s: Fs, s': Fs)
    requires s'.table == s.table && s'.cache.Keys == s.cache.Keys
    ensures forall j: nat :: InUse(Without(s'), j) <==> InUse(Without(s), j)
  {
  }

  lemma WithoutLists(s: Fs, s': Fs)
    requires Lists(Without(s)) && s' == s.(disk := s'.disk, cache := s'.cache) && s'.cache.Keys == s.cache.Keys
    ensures Lists(Without(s'))
  {
    hide InUse;
    WithoutUse(s, s');
  }

  lemma WithoutRest(s: Fs, own: Owners, s': Fs, own': Owners, i: nat)
    requires CleanCached(Without(s)) && Widths(Without(s)) && Others(s, own, s', own', i) && i in s.cache
    requires i == 0 || (InWidth(s'.cache[i]) && (s'.cache[i].dirty || s'.cache[i] == s.cache[i]))
    ensures CleanCached(Without(s')) && Widths(Without(s'))
  {
    hide Decode, InWidth, OwnersElsewhere;
    WithoutUse(s, s');
    forall j: nat | InUse(Without(s'), j) ensures InWidth(Ino(Without(s'), j)) {
      if j != i {
        assert Ino(Without(s'), j) == Ino(Without(s), j);
      }
    }
  }

  /** A step on inode 0, or one on another inode that keeps it within its widths and marks it dirty. */
  lemma BesidesKept(s: Fs, own: Owners, s': Fs, own': Owners, i: nat, clean: bool, clean': bool)
    requires SoundBesides(s, own, clean) && Owns(s', own') && Others(s, own, s', own', i) && i in s.cache
      && i in s'.cache
    requires StrayGrows(s, own, s', own') && (clean' ==> clean && StraySame(s, own, s', own'))
    requires i == 0 || (InWidth(s'.cache[i]) && (s'.cache[i].dirty || s'.cache[i] == s.cache[i]))
    ensures SoundBesides(s', own', clean')
  {
    assert s' == s.(disk := s'.disk, cache := s'.cache) && s'.cache.Keys == s.cache.Keys;
    hide Owns, MetaMarked, Lists, CleanCached, Widths, NoLeak, TableOnDisk, StraySame, StrayGrows, Others, InWidth;
    hide Elsewhere;
    WithoutLists(s, s');
    WithoutRest(s, own, s', own', i);
    StrayKeepsMeta(s, own, s', own');
    if clean' {
      NoLeakKept(s, own, s', own');
      assert Shape(s) by { OwnsShape(s, own); }
      OthersElsewhere(s, own, s', own', i);
      SameOnDisk(s, s');
    }
  }

  lemma SameOnDisk(s: Fs, s': Fs)
    requires TableOnDisk(s) && s'.sb == s.sb && s'.table == s.table
    requires forall j: nat :: j < |s.table| ==> DiskSlot(s.sb, s'.disk, j) == DiskSlot(s.sb, s.disk, j)
    ensures TableOnDisk(s')
  {
    hide DiskSlot, SameSlot;
  }

  /** The name space apart from inode 0 and what it lists. */
  ghost function Apart(ns: Ns): Ns {
    Ns(ns.nodes - {0}, map x | x in ns.ents && x.0 != 0 :: ns.ents[x])
  }

  lemma WithoutAbs(s: Fs)
    ensures Abs(Without(s)) == Apart(Abs(s))
  {
    AbsAt(s);
    forall i: nat
      ensures NodeAt(Without(s), i) == if i == 0 then None else NodeAt(s, i)
      ensures forall p: nat :: EntAt(Without(s), i, p) == if i == 0 then None else EntAt(s, i, p)
    {
      if i != 0 {
        WithoutSlots(s, i);
      }
      hide Slots, Live, EntryOf, Decode;
    }
    hide NodeAt, EntAt, Abs;
    AbsIs(Without(s), Apart(Abs(s)));
  }

  lemma WithoutSlots(s: Fs, d: nat)
    requires d != 0
    ensures Slots(Without(s), d) == Slots(s, d)
  {
    hide Decode, WordAt, DirentAt;
    assert forall p: nat :: Slot(Without(s), d, p) == Slot(s, d, p);
  }

  /** Nothing that happens to inode 0 alone shows. */
  lemma ApartKept(s: Fs, own: Owners, s': Fs, own': Owners)
    requires Owns(s, own) && Elsewhere(s, own, s', own', 0)
    ensures Apart(Abs(s')) == Apart(Abs(s))
  {
    hide Owns, Elsewhere, NodeAt, EntAt, Abs, Apart;
    FrameAt(s, own, s', own', 0);
    assert Apart(Abs(s')).nodes == Apart(Abs(s)).nodes by { ApartNodes(s, s'); }
    assert Apart(Abs(s')).ents == Apart(Abs(s)).ents by { ApartEnts(s, s'); }
  }

  lemma ApartNodes(s: Fs, s': Fs)
    requires forall j: nat :: j != 0 ==> NodeAt(s', j) == NodeAt(s, j)
    ensures Apart(Abs(s')).nodes == Apart(Abs(s)).nodes
  {
    hide NodeAt;
    AbsAt(s);
    AbsAt(s');
    hide Abs, EntAt;
  }

  lemma ApartEnts(s: Fs, s': Fs)
    requires forall d: nat, p: nat :: d != 0 ==> EntAt(s', d, p) == EntAt(s, d, p)
    ensures Apart(Abs(s')).ents == Apart(Abs(s)).ents
  {
    hide EntAt;
    AbsAt(s);
    AbsAt(s');
    hide Abs, NodeAt;
    forall x: Place ensures x in Apart(Abs(s')).ents <==> x in Apart(Abs(s)).ents {
      assert x == (x.0, x.1);
    }
    forall x: Place | x in Apart(Abs(s)).ents ensures Apart(Abs(s')).ents[x] == Apart(Abs(s)).ents[x] {
      assert x == (x.0, x.1);
    }
  }

  /** A step on inode 0, as the volume sees it. */
  lemma ZeroStep(s: Fs, own: Owners, s': Fs, own': Owners, clean: bool, clean': bool)
    requires SoundBesides(s, own, clean) && Owns(s', own') && Others(s, own, s', own', 0) && 0 in s'.cache
    requires StrayGrows(s, own, s', own') && (clean' ==> clean && StraySame(s, own, s', own'))
    ensures SoundBesides(s', own', clean') && Apart(Abs(s')) == Apart(Abs(s)) && Elsewhere(s, own, s', own', 0)
  {
    hide SoundBesides, Owns, Others, StrayGrows, StraySame, Elsewhere, Abs, Apart;
    BesidesOwns(s, own, clean);
    BesidesKept(s, own, s', own', 0, clean, clean');
    OthersElsewhere(s, own, s', own', 0);
    ApartKept(s, own, s', own');
  }

  /** An entry in `d`, be it inode 0 itself; one with number 0 is no entry. */
  lemma BesidesAdd(s: Fs, own: Owners, u: Fs, own': Owners, d: nat, name: Name, inum: nat, r: Result<nat>,
                   clean: bool, clean': bool)
    requires SoundBesides(s, own, clean) && Walkable(s, d) && (clean' ==> clean) && (d == 0 || inum == 0)
    requires AddPost(s, own, u, own', d, name, inum, r)
    ensures SoundBesides(u, own', clean') && Walkable(u, d) && Apart(Abs(u)) == Apart(Abs(s))
    ensures Elsewhere(s, own, u, own', d)
  {
    assert Owns(u, own') && StraySame(s, own, u, own') && Others(s, own, u, own', d) && d in u.cache;
    hide SoundBesides, Owns, Others, StraySame, Elsewhere, Abs, Apart, AddPost, InWidth;
    BesidesOwns(s, own, clean);
    StraySameGrows(s, own, u, own');
    StillWalkable(s, own, u, own', d, name, inum, r);
    OthersElsewhere(s, own, u, own', d);
    if d == 0 {
      ZeroStep(s, own, u, own', clean, clean');
    } else {
      BesidesWidth(s, own, clean, d);
      AddInWidth(s, own, u, own', d, name, inum, r);
      BesidesKept(s, own, u, own', d, clean, clean');
      AddedDead(s, own, u, own', d, name, r);
    }
  }

  /** Number 0 handed out. */
  lemma ZeroMade(t: Fs, own: Owners, isDir: bool, clean: bool)
    requires Shape(t) && ListOk(t) && Owns(t, own)
    requires |t.free| > 0 && t.freeCount > 0 && t.free[0] == 0 && Sound(Unzeroed(t), own, clean)
    ensures var z := NewState(t, isDir);
      && SoundBesides(z, own, clean) && Apart(Abs(z)) == Abs(Unzeroed(t)) && z.cache[0] == FreshInode(isDir)
      && forall k: nat :: k < SLOTS ==> Ptr(z, 0, k) == 0
  {
    hide PointersOwned, OwnersPoint, MetaMarked, Lists, CleanCached, Widths, NoLeak, TableOnDisk, Abs, Apart, StraySame;
    hide WordAt, Decode, ListOk;
    var z := NewState(t, isDir);
    ZeroNotSound(Unzeroed(t), own, clean);
    assert Without(z) == Unzeroed(t) by { assert Without(z).cache == t.cache; }
    NewOwns(t, own, isDir);
    UnzeroedRest(t, z, own, clean);
    WithoutAbs(z);
  }

  lemma UnzeroedRest(t: Fs, z: Fs, own: Owners, clean: bool)
    requires |t.free| > 0 && t.freeCount > 0 && Shape(z) && Sound(Unzeroed(t), own, clean)
    requires z == Unzeroed(t).(cache := z.cache)
    ensures MetaMarked(z) && (clean ==> NoLeak(z, own) && TableOnDisk(z))
  {
    hide PointersOwned, OwnersPoint, Lists, CleanCached, Widths, Bitmap.IsSet, DiskSlot, SameSlot;
    assert StraySame(Unzeroed(t), own, z, own);
    hide NoLeak, StraySame;
    if clean {
      NoLeakKept(Unzeroed(t), own, z, own);
    }
  }

  /** Written back, inode 0 is in slot 0, and nothing else has moved. */
  lemma ZeroWritten(s: Fs, own: Owners, disk: seq<Block>, clean: bool, clean': bool)
    requires SoundBesides(s, own, clean) && |s.table| > 0 && IBlock(s.sb, 0) < |s.disk|
    requires disk == s.disk || disk == SetDiskSlot(s.sb, s.disk, 0, Encode(s.cache[0]))
    requires clean' ==> clean && disk == SetDiskSlot(s.sb, s.disk, 0, Encode(s.cache[0]))
    ensures var w := WrittenState(s, 0, disk);
      && SoundBesides(w, own, clean') && Apart(Abs(w)) == Apart(Abs(s))
      && forall k: nat :: k < SLOTS ==> Ptr(w, 0, k) == Ptr(s, 0, k)
  {
    hide Owns, MetaMarked, Lists, CleanCached, Widths, NoLeak, TableOnDisk, Abs, Apart, StraySame, StrayGrows, Ptr;
    hide Encode, SetDiskSlot, DiskSlot, SameSlot, Elsewhere, InUse;
    var w := WrittenState(s, 0, disk);
    WrittenOwns(s, own, 0, disk);
    StraySameGrows(s, own, w, own);
    StrayKeepsMeta(s, own, w, own);
    ApartKept(s, own, w, own);
    WrittenWithout(s, w);
    if clean' {
      NoLeakKept(s, own, w, own);
      StoredZero(s, own, w, Encode(s.cache[0]));
      SlotItself(w.table[0]);
      TableOnDiskKept(s, own, w, own, 0);
    }
  }

  lemma StoredZero(s: Fs, own: Owners, w: Fs, raw: Raw)
    requires Owns(s, own) && |s.table| > 0 && IBlock(s.sb, 0) < |s.disk| && w.sb == s.sb
    requires w.disk == SetDiskSlot(s.sb, s.disk, 0, raw) && w.table == s.table[0 := raw]
    ensures DiskSlot(w.sb, w.disk, 0) == w.table[0]
  {
    hide PointersOwned, OwnersPoint, SetDiskSlot, DiskSlot;
    DiskSlotLaw(s.sb, s.disk, 0, raw);
  }

  lemma WrittenWithout(s: Fs, w: Fs)
    requires 0 in s.cache && |s.table| > 0 && w == WrittenState(s, 0, w.disk)
    requires Lists(Without(s)) && CleanCached(Without(s)) && Widths(Without(s))
    ensures Lists(Without(w)) && CleanCached(Without(w)) && Widths(Without(w))
  {
    hide Decode, Encode, InWidth, Kind;
    assert Without(w).cache == Without(s).cache;
    assert forall j: nat :: InUse(Without(w), j) <==> InUse(Without(s), j);
    assert forall j: nat :: InUse(Without(w), j) ==> Ino(Without(w), j) == Ino(Without(s), j);
  }

  /**
   Evicted, inode 0 is gone for good.  What is left is sound but for its blocks, which
   nobody owns: nothing is leaked if and only if it had none.
   */
  lemma ZeroGone(s: Fs, own: Owners, clean: bool)
    requires SoundBesides(s, own, clean)
    ensures var f, own' := UncachedState(s, 0), DropOwner(own, 0);
      && Sound(f, own', false) && Abs(f) == Apart(Abs(s))
      && (clean ==> (Sound(f, own', true) <==> NoBlocks(s, 0)))
  {
    hide PointersOwned, OwnersPoint, Lists, CleanCached, Widths, Abs, Apart, Bitmap.IsSet, Ptr, Elsewhere, InUse;
    var f, own' := UncachedState(s, 0), DropOwner(own, 0);
    ZeroLaw(s, own);
    WithoutAbs(s);
    assert f == Without(s) && forall b: nat :: Used(f, b) <==> Used(s, b);
    assert MetaMarked(f);
    if clean {
      assert TableOnDisk(f) by { hide DiskSlot, SameSlot; }
      if NoBlocks(s, 0) {
        EmptyOwnsNothing(s, own, 0);
        assert own' == own && StraySame(s, own, f, own);
        NoLeakKept(s, own, f, own);
      } else {
        var k: nat :| k < SLOTS && Ptr(s, 0, k) != 0;
        CachedInUse(s, 0);
        Truncate.OwnedBlock(s, own, 0, k);
        assert Stray(f, own', Ptr(s, 0, k));
      }
    }
  }

  /** An entry with number 0 is no entry. */
  lemma AddedDead(s: Fs, own: Owners, u: Fs, own': Owners, d: nat, name: Name, r: Result<nat>)
    requires Owns(s, own) && AddPost(s, own, u, own', d, name, 0, r)
    ensures Abs(u) == Abs(s)
  {
    hide AddPost, Owns, Abs;
    if r.Ok? {
      AddedDeadOk(s, own, u, own', d, name, r.value);
    } else {
      AddFailedQuiet(s, own, u, own', d, name, 0, r.error);
    }
  }

  lemma AddedDeadOk(s: Fs, own: Owners, u: Fs, own': Owners, d: nat, name: Name, p: nat)
    requires Owns(s, own) && AddPost(s, own, u, own', d, name, 0, Ok(p))
    ensures Abs(u) == Abs(s)
  {
    hide Owns, AddPost, Elsewhere, Slots, NodeAt, EntAt, Abs;
    OwnsShape(s, own);
    AddedFrame(s, own, u, own', d, name, 0, p);
    FrameAt(s, own, u, own', d);
    AbsAt(s);
    DeadHere(s, own, u, own', d, name, p);
    AbsIs(u, Abs(s));
  }

  lemma DeadHere(s: Fs, own: Owners, u: Fs, own': Owners, d: nat, name: Name, p: nat)
    requires AddPost(s, own, u, own', d, name, 0, Ok(p)) && NodeAt(u, d) == NodeAt(s, d)
    ensures forall q: nat :: EntAt(u, d, q) == EntAt(s, d, q)
  {
    hide Owns, Others, Slots, StraySame, NodeAt, CName, AddNeed;
  }

  /** A mounted state whose list begins with 0, apart from that 0. */
  ghost function Unzeroed(s: Fs): Fs
    requires |s.free| > 0 && s.freeCount > 0
  {
    s.(free := s.free[1..], freeCount := s.freeCount - 1)
  }

  lemma UnzeroedSound(s: Fs, own: Owners)
    requires Mounted(s) && Kind(DiskSlot(s.sb, s.disk, 0)) == 0
    requires Owns(s, own) && MetaMarked(s) && CleanCached(s) && Widths(s) && NoLeak(s, own) && TableOnDisk(s)
    ensures |s.free| > 0 && s.freeCount > 0 && s.free[0] == 0 && ListOk(s)
    ensures Sound(Unzeroed(s), own, true) && Abs(Unzeroed(s)) == Abs(s)
  {
    hide DiskSlot, Kind, Decode, Bitmap.IsSet, WordAt, InWidth;
    ZeroLeads(s.sb, s.disk, s.sb.ninodes);
    FreeBelowExact(s.sb, s.disk, s.sb.ninodes);
    MountedList(s);
    var u := Unzeroed(s);
    assert forall i: nat :: InUse(u, i) <==> InUse(s, i);
    assert Shape(u);
    assert forall i: nat :: InUse(s, i) ==> Ino(u, i) == Ino(s, i);
    assert Lists(u) by { UnzeroedLists(s); }
    assert CleanCached(u) && TableOnDisk(u) && Widths(u);
    assert Abs(u) == Abs(s) by { SameAbs(s, u); }
    hide InUse, Ino, PointersOwned, OwnersPoint, Lists, CleanCached, TableOnDisk, Widths, Abs, NoLeak, MetaMarked;
    hide StraySame;
    RecordsOwn(s, own, u);
    StraySameGrows(s, own, u, own);
    StrayKeepsMeta(s, own, u, own);
    NoLeakKept(s, own, u, own);
  }

  lemma UnzeroedLists(s: Fs)
    requires Shape(s) && ListOk(s) && |s.free| > 0 && s.free[0] == 0 && s.cache == map[]
    requires forall i: nat :: 0 < i < |s.table| && !InUse(s, i) ==> i in s.free
    ensures Lists(Unzeroed(s))
  {
    hide InUse;
    var u := Unzeroed(s);
    assert forall i: nat :: InUse(u, i) <==> InUse(s, i) by { SameUse(s, u); }
    assert s.free == [0] + u.free;
    assert forall i :: i in u.free ==> i in s.free && i != 0;
  }

  lemma SameUse(s: Fs, u: Fs)
    requires u.table == s.table && u.cache == s.cache
    ensures forall i: nat :: InUse(u, i) <==> InUse(s, i)
  {
  }

  /** With the directory loaded: sound but for the 0 at the head of the list. */
  lemma LoadedUnzeroed(s: Fs, own: Owners, d: nat)
    requires Mounted(s) && Kind(DiskSlot(s.sb, s.disk, 0)) == 0 && Enterable(s, d)
    requires Owns(s, own) && MetaMarked(s) && CleanCached(s) && Widths(s) && NoLeak(s, own) && TableOnDisk(s)
    ensures var t := LoadedState(s, d);
      && |t.free| > 0 && t.freeCount > 0 && t.free[0] == 0 && d in t.cache && d != 0
      && Sound(Unzeroed(t), own, true) && Abs(Unzeroed(t)) == Abs(s)
  {
    hide Sound, Owns, MetaMarked, CleanCached, Widths, NoLeak, TableOnDisk, DiskSlot, Kind, FreeBelow, LoadedSlot, Abs;
    hide Untouched;
    UnzeroedSound(s, own);
    DirInUse(s, d);
    var u := Unzeroed(s);
    SameUse(s, u);
    LoadQuiet(u, own, d, true);
    assert LoadedState(u, d) == Unzeroed(LoadedState(s, d)) by { hide Decode; }
  }

  // ------------------------------- the first file of a disk whose slot 0 is free

  /** What can be done to a file that is open: one block of a write, or a resize. */
  /** Any use of inode 0 while it is in core. */
  method UseZero(v: Volume, calls: seq<FileCall>) returns (replies: seq<Result<()>>, ghost trace: seq<Moment>)
    requires v.steady && SoundBesides(v.View(), v.owner, v.faults == 0)
    modifies v`disk, v`cache, v`faults, v`nobuf, v`owner
    ensures CalledAll(trace, 0, calls, replies) && trace[0] == old(Now(v)) && trace[|calls|] == Now(v)
    ensures SoundBesides(v.View(), v.owner, v.faults == 0) && old(v.faults) <= v.faults
    ensures Apart(Abs(v.View())) == Apart(Abs(old(v.View())))
  {
    hide SoundBesides, Abs, Apart, Others, StraySame, StrayGrows, Owns, MetaMarked, Elsewhere, Called;
    replies, trace := [], [Now(v)];
    for k := 0 to |calls|
      invariant CalledAll(trace, 0, calls[..k], replies) && trace[0] == old(Now(v)) && trace[k] == Now(v)
      invariant SoundBesides(v.View(), v.owner, v.faults == 0) && old(v.faults) <= v.faults
      invariant Apart(Abs(v.View())) == Apart(Abs(old(v.View())))
    {
      ghost var s, own, clean := v.View(), v.owner, v.faults == 0;
      BesidesOwns(s, own, clean);
      var reply := Call(v, 0, calls[k]);
      ZeroStep(s, own, v.View(), v.owner, clean, v.faults == 0);
      replies, trace := replies + [reply], trace + [Now(v)];
    }
    assert calls[..|calls|] == calls;
  }

  /** Write inode 0 back, if it is still linked, and evict it. */
  method LoseZero(v: Volume) returns (ghost last: Fs)
    requires SoundBesides(v.View(), v.owner, v.faults == 0)
    modifies v`disk, v`table, v`free, v`freeCount, v`cache, v`faults, v`owner
    ensures old(v.faults) <= v.faults && Abs(v.View()) == Apart(Abs(old(v.View())))
    ensures Sound(v.View(), v.owner, false) && Stranded(old(v.View()), v.View(), v.owner, 0)
    ensures v.faults == 0 ==> (Sound(v.View(), v.owner, true) <==> NoBlocks(old(v.View()), 0))
  {
    hide SoundBesides, Abs, Apart, Sound, Owns, Elsewhere, Encode, SetDiskSlot, DiskSlot, StraySame, Ptr, Stranded;
    hide DropOwner, InUse;
    ghost var s, own, clean := v.View(), v.owner, v.faults == 0;
    BesidesOwns(s, own, clean);
    if v.cache[0].nlink > 0 {
      var w := WriteInode(v, 0);
      ZeroWritten(s, own, v.disk, clean, v.faults == 0);
    }
    last := v.View();
    BesidesOwns(last, own, v.faults == 0);
    ZeroGone(last, own, v.faults == 0);
    EvictInode(v, 0);
    SameStranded(s, last, v.View(), v.owner);
  }

  lemma SameStranded(s: Fs, t: Fs, f: Fs, own: Owners)
    requires Stranded(t, f, own, 0) && forall k: nat :: k < SLOTS ==> Ptr(t, 0, k) == Ptr(s, 0, k)
    ensures Stranded(s, f, own, 0) && (NoBlocks(t, 0) <==> NoBlocks(s, 0))
  {
    hide Ptr, Stray;
  }

  /** What holds once inode 0 has come and gone, `last` being the state in which it was dropped. */
  ghost predicate Lost(v: Volume, last: Fs)
    reads v
  {
    && Sound(v.View(), v.owner, false) && Stranded(last, v.View(), v.owner, 0)
    && (v.faults == 0 ==> (Sound(v.View(), v.owner, true) <==> NoBlocks(last, 0)))
  }

  /** The volume as it is when 0 is about to be handed out. */
  ghost predicate ZeroFirst(v: Volume, d: nat)
    reads v
  {
    && |v.free| > 0 && v.freeCount > 0 && v.free[0] == 0 && d in v.cache && d != 0
    && Shape(v.View()) && ListOk(v.View()) && Mapable(v, d) && Walkable(v.View(), d)
    && Sound(Unzeroed(v.View()), v.owner, v.faults == 0)
  }

  /**
   `xv6fs_create` with 0 at the head of the list, any use of the file, then write-back
   and eviction.  Only the blocks of inode 0 stay behind, if it had any.
   */
  method CreateZero(v: Volume, d: nat, name: Name, calls: seq<FileCall>)
    returns (r: Result<()>, replies: seq<Result<()>>, ghost trace: seq<Moment>, ghost last: Fs)
    requires v.steady && ZeroFirst(v, d)
    modifies v`disk, v`table, v`free, v`freeCount, v`cache, v`faults, v`nobuf, v`oom, v`owner
    ensures old(v.faults) <= v.faults && old(v.oom) <= v.oom
    ensures r == Err(ENOMEM) ==> v.oom > old(v.oom) && v.View() == old(v.View())
    ensures r != Err(ENOMEM) ==> Lost(v, last) && Abs(v.View()) == Abs(Unzeroed(old(v.View())))
    ensures r.Err? && r != Err(ENOMEM) ==>
      && AddCause(old(v.View()), d, name, AddNeed(old(v.View()), d), r.error, v.faults > old(v.faults))
      && NoBlocks(last, 0)
    ensures r.Ok? ==> HasRoom(old(v.View()), d, name, AddNeed(old(v.View()), d))
    ensures r.Ok? ==>
      && CalledAll(trace, 0, calls, replies) && NoBlocks(trace[0].fs, 0) && trace[|calls|].fs == last
      && old(v.faults) <= trace[0].faults && trace[|calls|].faults <= v.faults
  {
    hide SoundBesides, Abs, Apart, Sound, Owns, MetaMarked, AddPost, Slots, Walkable, Ptr, Stranded, ListOk, Elsewhere;
    hide Unzeroed, AddNeed, Counting.FreeData, AddCause, HasRoom, Called;
    ghost var t, own := v.View(), v.owner;
    replies, trace, last := [], [], t;
    var n := NewInode(v, false);
    if n.Err? {
      return Err(n.error), replies, trace, last;
    }
    ghost var z, clean := v.View(), v.faults == 0;
    ZeroMade(t, own, false, clean);
    NewMeta(t, false);
    NewSlots(t, false, d);
    var a := AddEntry(v, d, name, 0);
    ghost var u, own', f1 := v.View(), v.owner, v.faults;
    BesidesAdd(z, own, u, own', d, name, 0, a, clean, v.faults == 0);
    ZeroCause(t, own, u, own', d, name, a, f1 > old(v.faults));
    StillEmpty(z, own, u, own', d, name, a);
    if a.Err? {
      CauseIsNot(t, d, name, AddNeed(t, d), a.error, f1 > old(v.faults));
      DropZeroLinks(v);
      last := v.View();
      var l := LoseZero(v);
      CauseStays(t, d, name, AddNeed(t, d), a.error, f1 > old(v.faults), v.faults > old(v.faults));
      return Err(a.error), replies, trace, last;
    }
    replies, trace := UseZero(v, calls);
    last := v.View();
    var l := LoseZero(v);
    return Ok(()), replies, trace, last;
  }

  /** The causes of a failed add, carried back to the state before 0 was handed out. */
  lemma ZeroCause(t: Fs, own: Owners, u: Fs, own': Owners, d: nat, name: Name, r: Result<nat>, unreadable: bool)
    requires Shape(t) && |t.free| > 0 && t.freeCount > 0 && t.free[0] == 0 && d in t.cache && d != 0
    requires Owns(NewState(t, false), own) && AddPost(NewState(t, false), own, u, own', d, name, 0, r)
    requires r == Err(EIO) ==> unreadable
    ensures r.Ok? ==> HasRoom(t, d, name, AddNeed(t, d))
    ensures r.Err? ==> AddCause(t, d, name, AddNeed(t, d), r.error, unreadable)
  {
    hide Owns, AddPost, Slots, AddNeed, Counting.FreeData, AddCause, HasRoom;
    var z := NewState(t, false);
    AddCauses(z, own, u, own', d, name, 0, r, unreadable);
    NewSlots(t, false, d);
    OwnsShape(z, own);
    NewNeed(t, false, d);
    CausesFrom(t, z, d, name, r);
  }

  lemma NewNeed(s: Fs, isDir: bool, d: nat)
    requires d in s.cache && |s.free| > 0 && s.freeCount > 0 && d != s.free[0] && Shape(s) && Shape(NewState(s, isDir))
    ensures AddNeed(NewState(s, isDir), d) == AddNeed(s, d)
    ensures Counting.FreeData(NewState(s, isDir)) == Counting.FreeData(s)
  {
    hide Slots, Shape, FirstFree;
    NewSlots(s, isDir, d);
  }

  /** `set_nlink(inode, 0)` */
  method DropZeroLinks(v: Volume)
    requires SoundBesides(v.View(), v.owner, v.faults == 0)
    modifies v`cache
    ensures SoundBesides(v.View(), v.owner, v.faults == 0) && Apart(Abs(v.View())) == Apart(Abs(old(v.View())))
    ensures forall k: nat :: k < SLOTS ==> Ptr(v.View(), 0, k) == Ptr(old(v.View()), 0, k)
  {
    hide SoundBesides, Abs, Apart, Owns, Elsewhere, StraySame, StrayGrows, Ptr, Others;
    ghost var s, own, clean := v.View(), v.owner, v.faults == 0;
    BesidesOwns(s, own, clean);
    RelinkOwns(s, own, 0, 0);
    RelinkFrame(s, own, 0, 0);
    StraySameGrows(s, own, Relinked(s, 0, 0), own);
    v.cache := v.cache[0 := Dirty(v.cache[0].(nlink := 0))];
    ZeroStep(s, own, v.View(), own, clean, clean);
  }

  lemma RelinkFrame(s: Fs, own: Owners, i: nat, n: nat)
    requires i in s.cache
    ensures Others(s, own, Relinked(s, i, n), own, i)
    ensures forall k: nat :: k < SLOTS ==> Ptr(Relinked(s, i, n), i, k) == Ptr(s, i, k)
  {
    hide WordAt, Decode;
  }

  /** Adding to another directory gives inode 0 no block. */
  lemma StillEmpty(z: Fs, own: Owners, u: Fs, own': Owners, d: nat, name: Name, r: Result<nat>)
    requires Owns(z, own) && 0 in z.cache && d != 0 && AddPost(z, own, u, own', d, name, 0, r)
    ensures forall k: nat :: k < SLOTS ==> Ptr(u, 0, k) == Ptr(z, 0, k)
  {
    assert Others(z, own, u, own', d) && Owns(u, own');
    hide AddPost, Owns, Others, Ptr;
    assert Shape(z) && Shape(u) by { OwnsShape(z, own); OwnsShape(u, own'); }
    CachedInUse(z, 0);
    forall k: nat | k < SLOTS ensures Ptr(u, 0, k) == Ptr(z, 0, k) {
      OthersMaps(z, own, u, own', d, 0, k);
    }
  }

  /** Mount a consistent image whose slot 0 is free and load a directory: 0 comes first. */
  method MountZero(v: Volume, d: nat, ghost base: nat) returns (r: Result<()>)
    requires v.cache == map[] && Consistent(v.sb, v.disk, base) && Kind(DiskSlot(v.sb, v.disk, 0)) == 0
    requires Enterable(MountedFs(v.sb, v.disk), d)
    modifies v`disk, v`table, v`free, v`freeCount, v`cache, v`faults, v`oom, v`owner
    ensures old(v.faults) <= v.faults && old(v.oom) <= v.oom
    ensures r.Ok? ==> ZeroFirst(v, d) && Abs(Unzeroed(v.View())) == Abs(MountedFs(v.sb, old(v.disk)))
    ensures r.Ok? ==> v.View() == LoadedState(MountedFs(v.sb, old(v.disk)), d)
    ensures r.Err? ==> (r.error == EIO && v.faults > old(v.faults)) || (r.error == ENOMEM && v.oom > old(v.oom))
  {
    hide Sound, Owns, MetaMarked, Consistent, WellLinked, Abs, DiskSlot, Kind, Slots, FreeBelow, LoadedSlot, Ino, InUse;
    hide Enterable, CleanCached, Widths, NoLeak, TableOnDisk, Unreadable, BlankSlots, Freed, GaveBack, Reaped;
    ghost var own := ConsistentMounts(v.sb, v.disk, base);
    ghost var s := MountedFs(v.sb, v.disk);
    r := LoadDinodes(v);
    if r.Err? {
      return;
    }
    assert Mounted(v.View());
    MountedIs(v.View());
    v.owner := own;
    MountedBlank(s);
    var g := Iget(v, d);
    if g.Err? {
      DirReadable(s, d);
      return Err(g.error);
    }
    LoadedDir(s, own, d);
    LoadedUnzeroed(s, own, d);
    SoundAfterRead(Unzeroed(v.View()), own, true, v.faults == 0);
  }

  /**
   A consistent image whose slot 0 is free: mount it, create one file, which gets
   number 0, and write to it as you like.  Once it has been written back and evicted
   the name space is that of the image: the file is gone.  Ownership and all the rest of
   the invariant hold; the volume is valid, so that the run theorem applies, if and only
   if a read has failed, which excuses leaks, or the file had no blocks when it went.
   (`given`: number 0 was handed out at all.)
   */
  method LoseFirstFile(v: Volume, d: nat, name: Name, calls: seq<FileCall>, ghost base: nat)
    returns (r: Result<()>, given: bool, replies: seq<Result<()>>, ghost trace: seq<Moment>, ghost last: Fs)
    requires v.steady && v.cache == map[] && Consistent(v.sb, v.disk, base) && Kind(DiskSlot(v.sb, v.disk, 0)) == 0
    requires Enterable(MountedFs(v.sb, v.disk), d)
    modifies v`disk, v`table, v`free, v`freeCount, v`cache, v`faults, v`nobuf, v`oom, v`owner
    ensures !given ==> (r == Err(EIO) && v.faults > old(v.faults)) || (r == Err(ENOMEM) && v.oom > old(v.oom))
    ensures given ==>
      && Lost(v, last) && Abs(v.View()) == Abs(MountedFs(v.sb, old(v.disk)))
      && (Valid(v, base) <==> v.faults > 0 || NoBlocks(last, 0))
    ensures given && r.Err? ==> Valid(v, base)
    ensures given && r.Err? ==>
      var s := LoadedState(MountedFs(v.sb, old(v.disk)), d);
      AddCause(s, d, name, AddNeed(s, d), r.error, v.faults > old(v.faults))
    ensures given && r.Ok? ==> CalledAll(trace, 0, calls, replies) && trace[|calls|].fs == last
    ensures given && r.Ok? && v.faults == 0 ==>
      && (Held(calls, replies) != {} ==> !Valid(v, base))
      && (AllOk(replies) ==> (Valid(v, base) <==> Held(calls, replies) == {}))
  {
    hide Sound, Consistent, WellLinked, Abs, DiskSlot, Kind, FreeBelow, LoadedSlot, Enterable, ZeroFirst, Unzeroed;
    hide Stranded, NoBlocks, MountedFs, LoadedState, Called, AddCause, AddNeed, HasRoom, Holds, AllOk;
    ConsistentTree(v.sb, v.disk, base);
    replies, trace, last, given := [], [], v.View(), false;
    r := MountZero(v, d, base);
    if r.Err? {
      return;
    }
    ghost var s, f1 := v.View(), v.faults;
    r, replies, trace, last := CreateZero(v, d, name, calls);
    given := r != Err(ENOMEM);
    if given && r.Err? {
      CauseStays(s, d, name, AddNeed(s, d), r.error, v.faults > f1, v.faults > old(v.faults));
    }
    if r.Ok? {
      HeldBlocks(trace, 0, calls, replies);
      NothingHeld(last, 0, Held(calls, replies));
    }
  }

  lemma ConsistentTree(sb: Super, disk: seq<Block>, base: nat)
    requires Consistent(sb, disk, base)
    ensures WellLinked(Abs(MountedFs(sb, disk)), base) && base + MAXSLOTS - 2 < U16
  {
    hide NoSharing, MetaMarked, Widths, WellLinked, Abs, Owned, Used;
  }

  // ---------------------------------------------------- the first directory

  /** Between the steps of a `mkdir` that was given 0: nothing of `d` or of the name space has moved. */
  ghost predicate MakingZero(v: Volume, d: nat, n: Inode, ds: seq<Dirent>, ns: Ns)
    reads v
  {
    && SoundBesides(v.View(), v.owner, v.faults == 0) && Apart(Abs(v.View())) == ns
    && d in v.cache && d != 0 && v.cache[d] == n && Walkable(v.View(), d) && Walkable(v.View(), 0)
    && Slots(v.View(), d) == ds
  }

  /** An entry of inode 0, whatever its number, takes slot 0 and keeps its block. */
  lemma DotGoesFirst(s: Fs, own: Owners, u: Fs, own': Owners, name: Name, inum: nat, p: nat, e: Dirent)
    requires AddPost(s, own, u, own', 0, name, inum, Ok(p)) && ValidName(name)
    requires Slots(s, 0) == [] || (Slots(s, 0) == [e] && !Live(e))
    ensures Slots(u, 0) == [NewDirent(name, inum)] && Ptr(u, 0, 0) != 0
  {
    hide Owns, Others, StraySame, Slots, AddNeed, Ptr, FreeSlot, Live;
    DeadFirst(e, p);
    assert Slots(u, 0) == [NewDirent(name, inum)];
    NotBlank(u, name, inum);
  }

  lemma DeadFirst(e: Dirent, p: nat)
    ensures FreeSlot([], p) || (FreeSlot([e], p) && !Live(e)) ==> p == 0
  {
    if p > 0 && FreeSlot([e], p) {
      assert Live([e][0]);
    }
  }

  lemma NotBlank(u: Fs, name: Name, inum: nat)
    requires ValidName(name) && Slots(u, 0) == [NewDirent(name, inum)]
    ensures Ptr(u, 0, 0) != 0
  {
    hide DirentAt, Ptr;
    assert Slots(u, 0)[0] == Slot(u, 0, 0);
    assert NewDirent(name, inum).field[0] == name[0] != 0;
  }

  lemma MakingZeroStarts(t: Fs, own: Owners, d: nat, clean: bool)
    requires Shape(t) && ListOk(t) && Owns(t, own) && d in t.cache && d != 0 && Walkable(t, d)
    requires |t.free| > 0 && t.freeCount > 0 && t.free[0] == 0 && Sound(Unzeroed(t), own, clean)
    ensures var z := NewState(t, true);
      && SoundBesides(z, own, clean) && Apart(Abs(z)) == Abs(Unzeroed(t))
      && d in z.cache && z.cache[d] == t.cache[d] && Walkable(z, d) && Walkable(z, 0)
      && Slots(z, d) == Slots(t, d) && Slots(z, 0) == []
  {
    hide SoundBesides, Owns, Sound, Abs, Apart, ListOk, Ptr, Slots;
    ZeroMade(t, own, true, clean);
    NewSlots(t, true, d);
    SizeSlots(NewState(t, true), 0);
  }

  /** One of the two adds to inode 0. */
  method DotZero(v: Volume, name: Name, inum: nat, ghost d: nat, ghost n: Inode, ghost ds: seq<Dirent>, ghost ns: Ns,
                 ghost e: Dirent)
    returns (r: Result<nat>)
    requires v.steady && MakingZero(v, d, n, ds, ns) && ValidName(name)
    requires Slots(v.View(), 0) == [] || (Slots(v.View(), 0) == [e] && !Live(e))
    modifies v`disk, v`cache, v`faults, v`nobuf, v`owner
    ensures MakingZero(v, d, n, ds, ns) && old(v.faults) <= v.faults
    ensures r.Ok? ==> Slots(v.View(), 0) == [NewDirent(name, inum)] && Ptr(v.View(), 0, 0) != 0
    ensures r.Ok? ==>
      && Counting.FreeData(old(v.View())) == Counting.FreeData(v.View()) + AddNeed(old(v.View()), 0)
      && AddNeed(v.View(), d) == AddNeed(old(v.View()), d) && v.faults == old(v.faults)
    ensures r.Err? ==>
      AddCause(old(v.View()), 0, name, AddNeed(old(v.View()), 0), r.error, v.faults > old(v.faults))
  {
    hide SoundBesides, Abs, Apart, Owns, MetaMarked, AddPost, Slots, Walkable, Ptr, Elsewhere, InUse, Live;
    hide AddNeed, Counting.FreeData, AddCause, HasRoom, SameData, Untouched;
    ghost var s, own, clean := v.View(), v.owner, v.faults == 0;
    BesidesOwns(s, own, clean);
    r := AddEntry(v, 0, name, inum);
    BesidesAdd(s, own, v.View(), v.owner, 0, name, inum, r, clean, v.faults == 0);
    CachedInUse(s, d);
    ElsewhereSlots(s, own, v.View(), v.owner, 0, d);
    DirStays(s, own, v.View(), v.owner, d);
    AddCauses(s, own, v.View(), v.owner, 0, name, inum, r, v.faults > old(v.faults));
    ElsewhereUntouched(s, own, v.View(), v.owner, 0);
    UntouchedAt(s, v.View(), {0}, d);
    SameNeed(s, v.View(), d);
    if r.Ok? {
      DotGoesFirst(s, own, v.View(), v.owner, name, inum, r.value, e);
    }
  }

  lemma DirStays(s: Fs, own: Owners, u: Fs, own': Owners, d: nat)
    requires Elsewhere(s, own, u, own', 0) && d != 0 && d in s.cache && Walkable(s, d)
    ensures d in u.cache && u.cache[d] == s.cache[d] && Walkable(u, d)
  {
    hide DiskSlot, OwnersElsewhere;
  }

  /** The parent has room for a link that no entry stands for. */
  lemma RoomForLink(s: Fs, base: nat, d: nat, p: nat)
    requires WellLinked(Abs(s), base) && LinkedDir(s, d) && base + MAXSLOTS - 2 < U16
    requires FreeSlot(Slots(s, d), p) && p < MAXSLOTS
    ensures Ino(s, d).nlink + 1 < U16
  {
    hide Slots, UniqueNames, Parents, FileCounts, Dots, ChildDirs, Closed;
    AbsAt(s);
    DirInAbs(s, d);
    assert (d, p) !in Abs(s).ents;
    hide Abs, EntAt, FreeSlot;
    var x, y := DotPlaces(Abs(s), base, d);
    ChildBoundFree(s, d, x, y, p);
  }

  lemma ApartRelinks(ns: Ns, d: nat, n: nat)
    requires d != 0 && d in ns.nodes && n > 0
    ensures d in Apart(ns).nodes && Apart(Renumbered(ns, d, n)) == Renumbered(Apart(ns), d, n)
  {
  }

  /** The parent's new link. */
  lemma ZeroRelink(s: Fs, own: Owners, d: nat, clean: bool)
    requires SoundBesides(s, own, clean) && d in s.cache && d != 0 && LinkedDir(s, d) && s.cache[d].nlink + 1 < U16
    ensures var u := Relinked(s, d, s.cache[d].nlink + 1);
      && SoundBesides(u, own, clean) && d in Apart(Abs(s)).nodes
      && Apart(Abs(u)) == Renumbered(Apart(Abs(s)), d, s.cache[d].nlink + 1)
      && forall k: nat :: k < SLOTS ==> Ptr(u, 0, k) == Ptr(s, 0, k)
  {
    hide SoundBesides, Abs, Apart, Owns, Elsewhere, StraySame, StrayGrows, Ptr, Others, Slots, Untouched, Decode;
    var n := s.cache[d].nlink + 1;
    var u := Relinked(s, d, n);
    BesidesOwns(s, own, clean);
    RelinkOwns(s, own, d, n);
    RelinkFrame(s, own, d, n);
    StraySameGrows(s, own, u, own);
    BesidesWidth(s, own, clean, d);
    BesidesKept(s, own, u, own, d, clean, clean);
    Relink(s, own, d, n);
    ApartRelinks(Abs(s), d, n);
    CachedInUse(s, 0);
    forall k: nat | k < SLOTS ensures Ptr(u, 0, k) == Ptr(s, 0, k) {
      ElsewhereMaps(s, own, u, own, d, 0, k);
    }
  }

  /** `fail` of a `mkdir` that was given 0. */
  method FailZero(v: Volume) returns (ghost last: Fs)
    requires SoundBesides(v.View(), v.owner, v.faults == 0)
    modifies v`disk, v`table, v`free, v`freeCount, v`cache, v`faults, v`owner
    ensures old(v.faults) <= v.faults && Lost(v, last) && Abs(v.View()) == Apart(Abs(old(v.View())))
  {
    hide SoundBesides, Abs, Apart, Sound, Ptr, Stranded;
    DropZeroLinks(v);
    last := v.View();
    var l := LoseZero(v);
  }

  /** What the two adds to inode 0 take: a block, and then none, since the first slot is still free. */
  lemma DotZeroNeeds(t: Fs, e: Dirent)
    ensures 0 in t.cache && t.cache[0] == FreshInode(true) && Slots(t, 0) == [] ==> AddNeed(t, 0) == 1
    ensures Slots(t, 0) == [e] && !Live(e) && Ptr(t, 0, 0) != 0 ==> AddNeed(t, 0) == 0
  {
    DirOps.DotNeeds(t, 0, e);
    if Slots(t, 0) == [e] && !Live(e) {
      AddNeedAt(t, 0, 0);
    }
  }

  /** The entry in the parent, one block having gone to inode 0. */
  lemma EnterCause(s: Fs, t: Fs, d: nat, name: Name)
    requires Slots(t, d) == Slots(s, d) && AddNeed(t, d) == AddNeed(s, d)
    requires Counting.FreeData(s) == Counting.FreeData(t) + 1
    ensures HasRoom(t, d, name, AddNeed(t, d)) ==> HasRoom(s, d, name, 1 + AddNeed(s, d))
    ensures forall e, unreadable :: AddCause(t, d, name, AddNeed(t, d), e, unreadable) ==>
      AddCause(s, d, name, 1 + AddNeed(s, d), e, unreadable)
  {
    hide Slots, AddNeed, Counting.FreeData;
  }

  lemma CauseIsNot(s: Fs, d: nat, name: Name, need: nat, e: Errno, unreadable: bool)
    requires AddCause(s, d, name, need, e, unreadable)
    ensures e != ENOMEM
  {
    hide Slots, Counting.FreeData, FreeSlot;
  }

  /** An add to inode 0 has failed. */
  method FailDots(v: Volume, e: Errno, ghost z: Fs, ghost t: Fs, ghost d: nat, ghost name: Name, ghost dot: Name,
                  ghost f0: nat, ghost ns: Ns)
    returns (r: Result<()>, ghost last: Fs)
    requires SoundBesides(v.View(), v.owner, v.faults == 0) && Apart(Abs(v.View())) == ns
    requires AddCause(z, 0, dot, AddNeed(z, 0), e, v.faults > f0) && |Slots(z, 0)| < MAXSLOTS && |dot| <= DIRSIZ
    requires Counting.FreeData(t) <= Counting.FreeData(z) + 1 - AddNeed(z, 0)
    modifies v`disk, v`table, v`free, v`freeCount, v`cache, v`faults, v`owner
    ensures old(v.faults) <= v.faults && Lost(v, last) && Abs(v.View()) == ns && r == Err(e)
    ensures AddCause(t, d, name, 1 + AddNeed(t, d), e, v.faults > f0) && e != ENOMEM
  {
    hide SoundBesides, Abs, Apart, Lost, AddNeed, AddCause, Slots, Counting.FreeData;
    ghost var f1 := v.faults;
    DirOps.DotCause(t, d, name, z, 0, dot, e, f1 > f0);
    last := FailZero(v);
    CauseStays(t, d, name, 1 + AddNeed(t, d), e, f1 > f0, v.faults > f0);
    CauseIsNot(t, d, name, 1 + AddNeed(t, d), e, f1 > f0);
    r := Err(e);
  }

  /**
   `xv6fs_mkdir` with 0 at the head of the list.  Its "." is no entry, so ".." takes its
   slot, and the entry in the parent is none either; but the parent gets its link, and
   the block that holds ".." stays marked when the inode goes.
   */
  method MakeZero(v: Volume, d: nat, name: Name, ghost base: nat) returns (r: Result<()>, ghost last: Fs)
    requires v.steady && ZeroFirst(v, d) && LinkedDir(v.View(), d)
    requires WellLinked(Abs(Unzeroed(v.View())), base) && base + MAXSLOTS - 2 < U16
    modifies v`disk, v`table, v`free, v`freeCount, v`cache, v`faults, v`nobuf, v`oom, v`owner
    ensures old(v.faults) <= v.faults && old(v.oom) <= v.oom
    ensures r == Err(ENOMEM) ==> v.oom > old(v.oom) && v.View() == old(v.View())
    ensures r != Err(ENOMEM) ==> Lost(v, last)
    ensures r.Err? && r != Err(ENOMEM) ==>
      && Abs(v.View()) == Abs(Unzeroed(old(v.View())))
      && AddCause(old(v.View()), d, name, 1 + AddNeed(old(v.View()), d), r.error, v.faults > old(v.faults))
    ensures r.Ok? ==>
      && HasRoom(old(v.View()), d, name, 1 + AddNeed(old(v.View()), d))
      && d in Abs(Unzeroed(old(v.View()))).nodes
      && Abs(v.View()) == Renumbered(Abs(Unzeroed(old(v.View()))), d, old(v.cache[d].nlink) + 1)
      && Ptr(last, 0, 0) != 0 && Stray(v.View(), v.owner, Ptr(last, 0, 0))
  {
    hide SoundBesides, Abs, Apart, Sound, Owns, MetaMarked, Slots, Walkable, Ptr, Stranded, ListOk, WellLinked;
    hide LinkedDir, Unzeroed, Live, Stray, Lost, AddNeed, Counting.FreeData, AddCause, HasRoom;
    ghost var t, own, ns := v.View(), v.owner, Abs(Unzeroed(v.View()));
    ghost var n, ds := v.cache[d], Slots(v.View(), d);
    last := t;
    var i := NewInode(v, true);
    if i.Err? {
      return Err(i.error), last;
    }
    MakingZeroStarts(t, own, d, v.faults == 0);
    DotNames();
    ghost var z := v.View();
    NewNeed(t, true, d);
    DotZeroNeeds(z, FreeDirent());
    assert MakingZero(v, d, n, ds, ns);
    var a := DotZero(v, Dot(), 0, d, n, ds, ns, FreeDirent());
    if a.Err? {
      r, last := FailDots(v, a.error, z, t, d, name, Dot(), old(v.faults), ns);
      return;
    }
    DeadDot();
    ghost var y := v.View();
    DotZeroNeeds(y, NewDirent(Dot(), 0));
    a := DotZero(v, DotDot(), d, d, n, ds, ns, NewDirent(Dot(), 0));
    if a.Err? {
      r, last := FailDots(v, a.error, y, t, d, name, DotDot(), old(v.faults), ns);
      return;
    }
    UnzeroedDir(t, d);
    EnterCause(t, v.View(), d, name);
    r, last := EnterZero(v, d, name, Unzeroed(t), base);
  }

  lemma DeadDot()
    ensures !Live(NewDirent(Dot(), 0))
  {
  }

  lemma UnzeroedDir(t: Fs, d: nat)
    requires |t.free| > 0 && t.freeCount > 0 && d in t.cache
    ensures Unzeroed(t).cache == t.cache && Slots(Unzeroed(t), d) == Slots(t, d)
    ensures LinkedDir(Unzeroed(t), d) <==> LinkedDir(t, d)
  {
    hide WordAt, DirentAt, Decode;
    assert forall p: nat :: Slot(Unzeroed(t), d, p) == Slot(t, d, p);
  }

  /** An add moves neither the kind nor the links of its directory. */
  lemma AddKeepsLinks(s: Fs, own: Owners, u: Fs, own': Owners, d: nat, name: Name, inum: nat, r: Result<nat>)
    requires Owns(s, own) && AddPost(s, own, u, own', d, name, inum, r)
    requires s.cache[d].kind == T_DIR && s.cache[d].nlink > 0
    ensures d in u.cache && LinkedDir(u, d) && u.cache[d].nlink == s.cache[d].nlink
    ensures r.Ok? ==> FreeSlot(Slots(s, d), r.value) && r.value < MAXSLOTS
  {
    hide PointersOwned, OwnersPoint, StraySame, Others, Slots, FreeSlot, AddNeed, PutSlot, Decode;
    CachedInUse(u, d);
  }

  /** The end of it: the entry in the parent, the parent's link, and the loss of inode 0. */
  method EnterZero(v: Volume, d: nat, name: Name, ghost s0: Fs, ghost base: nat) returns (r: Result<()>, ghost last: Fs)
    requires v.steady && d in s0.cache && MakingZero(v, d, s0.cache[d], Slots(s0, d), Abs(s0))
      && Ptr(v.View(), 0, 0) != 0
    requires WellLinked(Abs(s0), base) && LinkedDir(s0, d) && base + MAXSLOTS - 2 < U16
    modifies v`disk, v`table, v`free, v`freeCount, v`cache, v`faults, v`nobuf, v`owner
    ensures old(v.faults) <= v.faults && Lost(v, last) && r != Err(ENOMEM)
    ensures r.Err? ==> Abs(v.View()) == Abs(s0)
    ensures r.Err? ==>
      AddCause(old(v.View()), d, name, AddNeed(old(v.View()), d), r.error, v.faults > old(v.faults))
    ensures r.Ok? ==> HasRoom(old(v.View()), d, name, AddNeed(old(v.View()), d))
    ensures r.Ok? ==>
      && d in Abs(s0).nodes && Abs(v.View()) == Renumbered(Abs(s0), d, s0.cache[d].nlink + 1)
      && Ptr(last, 0, 0) != 0 && Stray(v.View(), v.owner, Ptr(last, 0, 0))
  {
    hide SoundBesides, Abs, Apart, Sound, Owns, MetaMarked, AddPost, Slots, Walkable, Ptr, WellLinked, LinkedDir;
    hide Elsewhere, Stray, Decode, FreeSlot, NoBlocks, AddNeed, Counting.FreeData, AddCause, HasRoom;
    ghost var z, own, clean := v.View(), v.owner, v.faults == 0;
    BesidesOwns(z, own, clean);
    DirKind(s0, d);
    DirOps.LinkedCount(s0, d);
    var a := AddEntry(v, d, name, 0);
    ghost var u := v.View();
    BesidesAdd(z, own, u, v.owner, d, name, 0, a, clean, v.faults == 0);
    AddKeepsLinks(z, own, u, v.owner, d, name, 0, a);
    ghost var f1 := v.faults;
    AddCauses(z, own, u, v.owner, d, name, 0, a, f1 > old(v.faults));
    if a.Err? {
      last := FailZero(v);
      CauseStays(z, d, name, AddNeed(z, d), a.error, f1 > old(v.faults), v.faults > old(v.faults));
      CauseIsNot(z, d, name, AddNeed(z, d), a.error, f1 > old(v.faults));
      return Err(a.error), last;
    }
    StillEmpty(z, own, u, v.owner, d, name, a);
    RoomForLink(s0, base, d, a.value);
    CachedIno(s0, d);
    ZeroRelink(u, v.owner, d, v.faults == 0);
    v.cache := v.cache[d := Dirty(v.cache[d].(nlink := v.cache[d].nlink + 1))];
    last := v.View();
    var l := LoseZero(v);
    return Ok(()), last;
  }

  /**
   The same consistent image, and a directory made first.  The name space comes back
   with one link too many on the parent: with the root as the parent it is a tree whose
   root has one more link to begin with, and otherwise no tree.  The block of ".." is
   leaked, so without a failed read the volume is not valid for any base.
   */
  method LoseFirstDir(v: Volume, d: nat, name: Name, ghost base: nat)
    returns (r: Result<()>, given: bool, ghost last: Fs)
    requires v.steady && v.cache == map[] && Consistent(v.sb, v.disk, base) && Kind(DiskSlot(v.sb, v.disk, 0)) == 0
    requires Enterable(MountedFs(v.sb, v.disk), d) && LinkedDir(MountedFs(v.sb, v.disk), d)
    modifies v`disk, v`table, v`free, v`freeCount, v`cache, v`faults, v`nobuf, v`oom, v`owner
    ensures !given ==> (r == Err(EIO) && v.faults > old(v.faults)) || (r == Err(ENOMEM) && v.oom > old(v.oom))
    ensures given ==> Lost(v, last)
    ensures given && r.Err? ==>
      && Abs(v.View()) == Abs(MountedFs(v.sb, old(v.disk)))
      && (Valid(v, base) <==> v.faults > 0 || NoBlocks(last, 0))
    ensures given && r.Err? ==>
      var s := LoadedState(MountedFs(v.sb, old(v.disk)), d);
      AddCause(s, d, name, 1 + AddNeed(s, d), r.error, v.faults > old(v.faults))
    ensures given && r.Ok? ==>
      var ns := Abs(MountedFs(v.sb, old(v.disk)));
      && d in ns.nodes && Abs(v.View()) == Renumbered(ns, d, ns.nodes[d].nlink + 1)
      && Stray(v.View(), v.owner, Ptr(last, 0, 0)) && (v.faults == 0 ==> forall base' :: !Valid(v, base'))
      && (d == ROOTINO ==> WellLinked(Abs(v.View()), base + 1))
      && (d != ROOTINO ==> forall base' :: !WellLinked(Abs(v.View()), base'))
  {
    hide Sound, Consistent, WellLinked, Abs, DiskSlot, Kind, FreeBelow, LoadedSlot, Enterable, Unzeroed, ListOk;
    hide Stranded, MountedFs, LoadedState, LinkedDir, Ptr, Stray, Owns, MetaMarked, Walkable;
    hide AddCause, AddNeed, HasRoom;
    ConsistentTree(v.sb, v.disk, base);
    ghost var s := MountedFs(v.sb, v.disk);
    last, given := v.View(), false;
    r := MountZero(v, d, base);
    if r.Err? {
      return;
    }
    LoadedLinks(s, d);
    DirInAbs(s, d);
    ghost var t, f1 := v.View(), v.faults;
    r, last := MakeZero(v, d, name, base);
    given := r != Err(ENOMEM);
    if given && r.Err? {
      CauseStays(t, d, name, 1 + AddNeed(t, d), r.error, v.faults > f1, v.faults > old(v.faults));
    }
    if r.Ok? {
      ExtraLink(Abs(s), Abs(v.View()), base, d);
      assert !NoBlocks(last, 0);
    }
  }

  lemma LoadedLinks(s: Fs, d: nat)
    requires LinkedDir(s, d)
    ensures LinkedDir(LoadedState(s, d), d) && d in Abs(s).nodes
    ensures d in LoadedState(s, d).cache && LoadedState(s, d).cache[d].nlink == Abs(s).nodes[d].nlink
  {
    hide Decode, Slots;
    AbsAt(s);
    hide Abs;
  }

  /** Look every name up, as `xv6fs_lookup` does. */
  method FindAll(v: Volume, d: nat, names: seq<Name>, handed: seq<nat>) returns (r: Result<()>, found: seq<bool>)
    requires Mapable(v, d) && Walkable(v.View(), d) && Named(Slots(v.View(), d), names, handed) && |handed| == |names|
    modifies v`disk, v`cache, v`faults, v`nobuf, v`owner
    ensures v.View() == old(v.View()) && |found| <= |handed|
    ensures forall k :: 0 <= k < |found| ==> (found[k] <==> handed[k] != 0)
    ensures r.Ok? ==> |found| == |handed|
    ensures r.Err? ==> r.error == EIO && v.faults > old(v.faults)
  {
    hide Owns, MetaMarked, Slots, Walkable, LMap, DirMap.Lookup, FoundAt, Absent;
    found := [];
    for k := 0 to |names|
      invariant v.View() == old(v.View()) && v.owner == old(v.owner) && v.faults == old(v.faults)
      invariant |found| == k && forall j :: 0 <= j < k ==> (found[j] <==> handed[j] != 0)
    {
      DirMap.LookupMeaning(Slots(v.View(), d), names[k]);
      var f, c := FindEntry(v, d, names[k]);
      if f.Err? {
        return Err(f.error), found;
      }
      found := found + [f.value.Some? && f.value.value.inum == handed[k]];
    }
    return Ok(()), found;
  }
}
