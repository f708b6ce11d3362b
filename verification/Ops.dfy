/** The directory operations the VFS calls (`dir.c`), over the whole volume. */
module Ops {
  import opened Bytes
  import opened OnDisk
  import opened Codec
  import opened Results
  import opened State
  import Bitmap
  import opened Ownership
  import opened Counting
  import BlockMap
  import opened Cursor
  import opened Listing
  import opened Directory
  import opened Inodes
  import opened Tree
  import opened Namespace

  /** The invariant of every state between operations, on a device where `sb_getblk` finds its buffers. */
  ghost predicate Valid(v: Volume, base: nat)
    reads v
  {
    && v.steady && Sound(v.View(), v.owner, v.faults == 0)
    && WellLinked(Abs(v.View()), base) && base + MAXSLOTS - 2 < U16
  }

  /** Names as they reach the driver: not empty, no NUL byte, of any length. */
  predicate Nameable(name: Name) {
    |name| > 0 && (forall k :: 0 <= k < |name| ==> name[k] != 0) && name != Dot() && name != DotDot()
  }

  // -------------------------------------------------------- soundness of steps

  lemma DirWalkable(s: Fs, own: Owners, d: nat, clean: bool)
    requires Sound(s, own, clean) && d in s.cache && LinkedDir(s, d)
    ensures Walkable(s, d) && Owns(s, own) && MetaMarked(s)
  {
    hide PointersOwned, OwnersPoint, MetaMarked, Lists, CleanCached, NoLeak, TableOnDisk;
    InWidthOf(s, d);
  }

  lemma AddSound(s: Fs, own: Owners, s': Fs, own': Owners, d: nat, name: Name, inum: nat, r: Result<nat>,
                 clean: bool, clean': bool)
    requires Sound(s, own, clean) && d in s.cache && Walkable(s, d) && (clean' ==> clean)
    requires AddPost(s, own, s', own', d, name, inum, r)
    ensures Sound(s', own', clean') && d in s'.cache && Walkable(s', d) && Elsewhere(s, own, s', own', d)
  {
    hide Owns, MetaMarked, Lists, CleanCached, Widths, NoLeak, TableOnDisk, StraySame, Others, Slots, Elsewhere;
    hide Decode;
    StraySameGrows(s, own, s', own');
    AddWidth(s, own, s', own', d, name, inum, r, clean);
    SoundKept(s, own, s', own', d, clean, clean');
    assert Shape(s) by { OwnsShape(s, own); }
    OthersElsewhere(s, own, s', own', d);
  }

  lemma AddWidth(s: Fs, own: Owners, s': Fs, own': Owners, d: nat, name: Name, inum: nat, r: Result<nat>, clean: bool)
    requires Sound(s, own, clean) && d in s.cache && Walkable(s, d)
    requires AddPost(s, own, s', own', d, name, inum, r)
    ensures d in s'.cache && InWidth(s'.cache[d]) && Walkable(s', d) && (s'.cache[d].dirty || s'.cache[d] == s.cache[d])
  {
    hide PointersOwned, OwnersPoint, MetaMarked, Lists, CleanCached, NoLeak, TableOnDisk, AddPost, Decode, InWidth;
    InWidthOf(s, d);
    AddInWidth(s, own, s', own', d, name, inum, r);
  }

  lemma AddInWidth(s: Fs, own: Owners, s': Fs, own': Owners, d: nat, name: Name, inum: nat, r: Result<nat>)
    requires Walkable(s, d) && InWidth(s.cache[d]) && AddPost(s, own, s', own', d, name, inum, r)
    ensures d in s'.cache && InWidth(s'.cache[d]) && Walkable(s', d) && (s'.cache[d].dirty || s'.cache[d] == s.cache[d])
  {
    hide Owns, StraySame, Others, Slots, Decode;
    SizeSlots(s, d);
  }

  /** A failed add is invisible. */
  lemma AddFailedQuiet(s: Fs, own: Owners, s': Fs, own': Owners, d: nat, name: Name, inum: nat, e: Errno)
    requires Owns(s, own) && AddPost(s, own, s', own', d, name, inum, Err(e))
    ensures Abs(s') == Abs(s)
  {
    hide Others, Slots, StraySame, Abs, Elsewhere, PointersOwned, OwnersPoint, Decode;
    OthersElsewhere(s, own, s', own', d);
    KeysKept(s, own, s', own', d);
    Quiet(s, own, s', own', d);
  }

  // ------------------------------------------------------- causes of failure

  /** Why entering `name` in `d`, which takes `need` blocks, fails with `e`. */
  ghost predicate AddCause(s: Fs, d: nat, name: Name, need: nat, e: Errno, unreadable: bool) {
    || (e == EIO && unreadable)
    || (e == ENOSPC && FreeData(s) < need)
    || (e == EFBIG && FreeSlot(Slots(s, d), MAXSLOTS))
    || (e == ENAMETOOLONG && |name| > DIRSIZ)
  }

  /** No such cause in the volume or the name. */
  ghost predicate HasRoom(s: Fs, d: nat, name: Name, need: nat) {
    need <= FreeData(s) && !FreeSlot(Slots(s, d), MAXSLOTS) && |name| <= DIRSIZ
  }

  /**
   In the parent: the name and the number stand in its lowest free slot, or one behind its
   end, the size covers it, the count is `links` higher, and the other fields are as before.
   */
  ghost predicate NameWritten(s: Fs, s': Fs, d: nat, name: Name, i: nat, links: nat) {
    && d in s.cache && d in s'.cache && |name| <= 14
    && s'.cache[d] == s.cache[d].(addrs := s'.cache[d].addrs, size := 16 * |Slots(s', d)|,
                                  nlink := s.cache[d].nlink + links, dirty := true)
    && exists p: nat :: WrittenIn(s, s', d, p, name, i)
  }

  ghost predicate WrittenIn(s: Fs, s': Fs, d: nat, p: nat, name: Name, i: nat) {
    && |name| <= 14 && FreeSlot(Slots(s, d), p) && EntryBytes(s', d, p, name, i)
    && Slots(s', d) == PutSlot(Slots(s, d), p, NewDirent(name, i))
  }

  /** A failed operation leaves the parent as it was, but for an empty indirect block. */
  ghost predicate DirKept(s: Fs, s': Fs, d: nat) {
    d in s.cache && d in s'.cache && Slots(s', d) == Slots(s, d) && SameAttrs(s.cache[d], s'.cache[d])
  }

  lemma NameIsWritten(s: Fs, t: Fs, own: Owners, u: Fs, own': Owners, d: nat, name: Name, i: nat, p: nat)
    requires AddPost(t, own, u, own', d, name, i, Ok(p)) && EntryBytes(u, d, p, name, i)
    requires d in s.cache && d in t.cache && t.cache[d] == s.cache[d] && Slots(t, d) == Slots(s, d)
    ensures NameWritten(s, u, d, name, i, 0)
  {
    hide Owns, StraySame, Others, Slots, AddNeed, FreeSlot, EntryBytes;
    assert WrittenIn(s, u, d, p, name, i);
  }

  lemma DirKeptSelf(s: Fs, d: nat)
    requires d in s.cache
    ensures DirKept(s, s, d)
  {
  }

  lemma NameNotWritten(s: Fs, t: Fs, own: Owners, u: Fs, own': Owners, d: nat, name: Name, i: nat, e: Errno)
    requires AddPost(t, own, u, own', d, name, i, Err(e))
    requires d in s.cache && d in t.cache && t.cache[d] == s.cache[d] && Slots(t, d) == Slots(s, d)
    ensures DirKept(s, u, d)
  {
    hide Owns, StraySame, Others, Slots, AddNeed, FreeSlot;
  }

  /** Raising a link count, of the parent or of the inode entered, moves nothing else. */
  lemma RelinkWritten(s: Fs, u: Fs, d: nat, name: Name, i: nat, c: nat)
    requires NameWritten(s, u, d, name, i, 0) && c in u.cache
    ensures NameWritten(s, Relinked(u, c, u.cache[c].nlink + 1), d, name, i, if c == d then 1 else 0)
  {
    hide WordAt, DirentAt, Decode, FreeSlot, Le16, At;
    var w := Relinked(u, c, u.cache[c].nlink + 1);
    assert forall l: nat :: LMap(w, d, l) == LMap(u, d, l);
    assert forall p: nat :: Slot(w, d, p) == Slot(u, d, p);
    assert Slots(w, d) == Slots(u, d);
    var p: nat :| WrittenIn(s, u, d, p, name, i);
    assert WrittenIn(s, w, d, p, name, i);
  }

  /** A regular file without contents and with one link. */
  ghost predicate NewFile(s: Fs, i: nat) {
    && i in s.cache && s.cache[i].kind == 2 && s.cache[i].nlink == 1 && s.cache[i].size == 0
    && s.cache[i].major == 0 && s.cache[i].minor == 0 && forall k: nat :: k < SLOTS ==> Ptr(s, i, k) == 0
  }

  /** Why no inode can be had. */
  ghost predicate InodeCause(s: Fs, e: Errno, noMemory: bool) {
    (e == ENOSPC && s.free == []) || (e == ENOMEM && noMemory)
  }

  lemma AddCauses(s: Fs, own: Owners, s': Fs, own': Owners, d: nat, name: Name, inum: nat, r: Result<nat>,
                  unreadable: bool)
    requires Owns(s, own) && AddPost(s, own, s', own', d, name, inum, r) && (r == Err(EIO) ==> unreadable)
    ensures r.Ok? ==> HasRoom(s, d, name, AddNeed(s, d)) && FreeData(s) == FreeData(s') + AddNeed(s, d)
    ensures r.Err? ==> AddCause(s, d, name, AddNeed(s, d), r.error, unreadable)
    ensures |name| > DIRSIZ ==> r == Err(ENAMETOOLONG)
  {
    hide Owns, StraySame, Others, Slots, AddNeed, FreeData, Used;
    AddSpace(s, own, s', own', d, name, inum, r);
    if r.Ok? && FreeSlot(Slots(s, d), MAXSLOTS) {
      FreeSlotUnique(Slots(s, d), r.value, MAXSLOTS);
    }
  }

  lemma SameNeed(s: Fs, s': Fs, d: nat)
    requires SameData(s, s', d)
    ensures AddNeed(s', d) == AddNeed(s, d) && Slots(s', d) == Slots(s, d)
  {
    hide SameData, BlockMap.BlocksNeeded, Slots;
    SameDataSlots(s, s', d);
  }

  // ------------------------------------------------------------------ abandon

  /** Undo of `xv6fs_create` and `xv6fs_mkdir`: `set_nlink(inode, 0); iput(inode);` */
  method Abandon(v: Volume, i: nat)
    requires Sound(v.View(), v.owner, v.faults == 0) && i in v.cache && v.cache[i].dirty && NodeAt(v.View(), i).Some?
    modifies v`disk, v`table, v`free, v`freeCount, v`cache, v`faults, v`owner
    ensures Sound(v.View(), v.owner, v.faults == 0) && old(v.faults) <= v.faults
    ensures i in Abs(old(v.View())).nodes && Abs(v.View()) == Renumbered(Abs(old(v.View())), i, 0)
    ensures Freed(old(v.View()), old(v.owner), v.View(), v.owner, i) && !InUse(v.View(), i)
    ensures v.faults == old(v.faults) ==>
      StraySame(old(v.View()), old(v.owner), v.View(), v.owner) && GaveBack(old(v.View()), v.View(), i)
  {
    hide Sound, Abs, NodeAt, Elsewhere, Slots, Decode, Owns, StraySame, GaveBack, Untouched, InUse;
    ghost var s, own, clean := v.View(), v.owner, v.faults == 0;
    v.cache := v.cache[i := v.cache[i].(nlink := 0)];
    ghost var t := Relinked(s, i, 0);
    assert v.View() == t;
    RelinkLaw(s, own, i, 0, clean);
    SoundOwns(s, own, clean);
    Relink(s, own, i, 0);
    SoundOwns(t, own, clean);
    RelinkOwns(s, own, i, 0);
    EvictInode(v, i);
    ElsewhereTransitive(s, own, t, own, v.View(), v.owner, i);
    GoneQuiet(t, own, v.View(), v.owner, i);
    if v.faults == old(v.faults) {
      BlockMap.StrayTransitive(s, own, t, own, v.View(), v.owner);
      CachedInUse(s, i);
      GivesBack(s, own, v.View(), v.owner, i);
    }
  }

  lemma SoundOwns(s: Fs, own: Owners, clean: bool)
    requires Sound(s, own, clean)
    ensures Owns(s, own) && Shape(s) && MetaMarked(s)
  {
  }

  /** Freeing an unlinked inode is invisible. */
  lemma GoneQuiet(s: Fs, own: Owners, s': Fs, own': Owners, i: nat)
    requires Owns(s, own) && Elsewhere(s, own, s', own', i) && i in s.cache && s.cache[i].nlink == 0 && !InUse(s', i)
    ensures Abs(s') == Abs(s)
  {
    hide Abs, Elsewhere, Slots, Owns, Decode;
    Quiet(s, own, s', own', i);
  }

  // ------------------------------------------------------------------- create

  /** What the VFS guarantees before it calls an operation that enters `name` in directory `d`. */
  ghost predicate CanEnter(v: Volume, base: nat, d: nat, name: Name)
    reads v
  {
    Valid(v, base) && d in v.cache && LinkedDir(v.View(), d) && Nameable(name) && Absent(Slots(v.View(), d), name)
  }

  /** One new entry in `d` for `i`, whose node is now `node`; nothing else in the name space moved. */
  ghost predicate Entered(ns: Ns, ns': Ns, d: nat, name: Name, i: nat, node: Node) {
    exists p: nat :: (d, p) !in ns.ents && ns' == Ns(ns.nodes[i := node], ns.ents[(d, p) := Entry(name, i)])
  }

  lemma NewKeepsDir(s: Fs, own: Owners, isDir: bool, d: nat, clean: bool)
    requires Sound(s, own, clean) && |s.free| > 0 && s.freeCount > 0 && d in s.cache && LinkedDir(s, d)
    ensures var s' := NewState(s, isDir);
      && d != s.free[0] && d in s'.cache && LinkedDir(s', d) && Slots(s', d) == Slots(s, d) && s'.cache[d] == s.cache[d]
      && Sound(s', own, clean) && s.free[0] in s'.cache && s'.cache[s.free[0]] == FreshInode(isDir)
      && !InUse(s, s.free[0]) && Untouched(s, s', {}) && SameData(s, s', d) && StraySame(s, own, s', own)
      && AddNeed(s', d) == AddNeed(s, d) && FreeData(s') == FreeData(s)
  {
    hide Owns, MetaMarked, Lists, CleanCached, Widths, NoLeak, TableOnDisk, Elsewhere, Slots, Decode, Sound;
    hide Untouched, SameData, AddNeed;
    var s', i := NewState(s, isDir), s.free[0];
    NewInodeLaw(s, own, isDir, clean);
    SoundOwns(s, own, clean);
    SoundOwns(s', own, clean);
    CachedInUse(s, d);
    ElsewhereUntouched(s, own, s', own, i);
    assert {} + {i} == {i};
    UntouchedNew(s, s', {}, i);
    UntouchedAt(s, s', {}, d);
    SameNeed(s, s', d);
    NewStray(s, own, isDir);
  }

  lemma NewStray(s: Fs, own: Owners, isDir: bool)
    requires Shape(s) && |s.free| > 0 && s.freeCount > 0 && Shape(NewState(s, isDir))
    ensures StraySame(s, own, NewState(s, isDir), own)
  {
    hide Bitmap.IsSet;
  }

  lemma UntouchedAt(s: Fs, s': Fs, touched: set<nat>, j: nat)
    requires Untouched(s, s', touched) && InUse(s, j) && j !in touched
    ensures SameData(s, s', j)
  {
    hide SameData, InUse;
  }

  /** Create in the name space: a node with one link and its one entry. */
  lemma CreateLinks(ns: Ns, base: nat, x: Place, name: Name, i: nat)
    requires WellLinked(ns, base) && Addable(ns, x, name) && i !in ns.nodes
    ensures WellLinked(Ns(ns.nodes[i := Node(T_FILE, 1)], ns.ents[x := Entry(name, i)]), base)
  {
    hide UniqueNames, Dots, Parents, FileCounts, DirCounts;
    var ns' := Ns(ns.nodes[i := Node(T_FILE, 1)], ns.ents[x := Entry(name, i)]);
    assert PutFile(ns, ns', x, name, i);
    hide WellLinked;
    PutFileLinks(ns, ns', base, x, name, i);
  }

  /** The entry went where the name space has room for it. */
  lemma CanAdd(s: Fs, d: nat, p: nat, name: Name)
    requires LinkedDir(s, d) && Nameable(name) && Absent(Slots(s, d), name) && (d, p) !in Abs(s).ents
    ensures Addable(Abs(s), (d, p), name)
  {
    hide Slots, NodeAt;
    AbsentMeans(s, d, name);
    AbsAt(s);
    hide Abs;
  }

  lemma CreatedAbs(s: Fs, own: Owners, t: Fs, u: Fs, own': Owners, base: nat, d: nat, name: Name, p: nat, clean: bool)
    requires Sound(s, own, clean) && WellLinked(Abs(s), base)
    requires |s.free| > 0 && s.freeCount > 0 && t == NewState(s, false)
    requires d in s.cache && LinkedDir(s, d) && Nameable(name) && Absent(Slots(s, d), name)
    requires AddPost(t, own, u, own', d, name, s.free[0], Ok(p))
    ensures Abs(u) == Ns(Abs(s).nodes[s.free[0] := Node(T_FILE, 1)], Abs(s).ents[(d, p) := Entry(name, s.free[0])])
    ensures WellLinked(Abs(u), base) && s.free[0] !in Abs(s).nodes && (d, p) !in Abs(s).ents
  {
    hide Sound, WellLinked, Slots, Abs, Owns, NodeAt;
    var i := s.free[0];
    Born(s, own, false, clean);
    NewKeepsDir(s, own, false, d, clean);
    SoundOwns(t, own, clean);
    AddedName(t, own, u, own', d, name, i, p);
    Added(t, own, u, own', d, name, i, p);
    CanAdd(s, d, p, name);
    CreateLinks(Abs(s), base, (d, p), name, i);
  }

  lemma AddedName(s: Fs, own: Owners, s': Fs, own': Owners, d: nat, name: Name, inum: nat, p: nat)
    requires AddPost(s, own, s', own', d, name, inum, Ok(p)) && Nameable(name)
    ensures ValidName(name)
  {
    hide Owns, Others, Slots, StraySame;
  }

  lemma AbandonedAbs(ns: Ns, i: nat, node: Node)
    requires Closed(ns) && i !in ns.nodes
    ensures Renumbered(Ns(ns.nodes[i := node], ns.ents), i, 0) == ns
  {
    assert forall x :: x in ns.ents ==> x.0 != i;
  }

  /**
   `xv6fs_create`.  It succeeds only with an inode, the blocks and the slot it needs;
   every failure has one of the listed causes and leaves the name space as it was.
   */
  method Create(v: Volume, d: nat, name: Name, ghost base: nat) returns (r: Result<nat>)
    requires CanEnter(v, base, d, name)
    modifies v`disk, v`table, v`free, v`freeCount, v`cache, v`faults, v`nobuf, v`oom, v`owner
    ensures Valid(v, base) && old(v.faults) <= v.faults && Untouched(old(v.View()), v.View(), {d})
    ensures r.Ok? ==>
      && r.value !in Abs(old(v.View())).nodes && NewFile(v.View(), r.value)
      && NameWritten(old(v.View()), v.View(), d, name, r.value, 0)
      && Entered(Abs(old(v.View())), Abs(v.View()), d, name, r.value, Node(T_FILE, 1))
    ensures r.Ok? ==>
      && HasRoom(old(v.View()), d, name, AddNeed(old(v.View()), d)) && old(v.free) != []
      && v.faults == old(v.faults) && v.oom == old(v.oom)
    ensures r.Err? ==> Abs(v.View()) == Abs(old(v.View())) && DirKept(old(v.View()), v.View(), d)
    ensures r.Err? ==>
      || InodeCause(old(v.View()), r.error, v.oom > old(v.oom))
      || AddCause(old(v.View()), d, name, AddNeed(old(v.View()), d), r.error, v.faults > old(v.faults))
    ensures v.faults == old(v.faults) ==> StraySame(old(v.View()), old(v.owner), v.View(), v.owner)
    ensures old(v.oom) <= v.oom
    ensures |name| > DIRSIZ ==>
      r == Err(ENAMETOOLONG) || (r.Err? && InodeCause(old(v.View()), r.error, v.oom > old(v.oom)))
  {
    hide Sound, WellLinked, Abs, LinkedDir, NodeAt, Slots, AddPost, Owns, MetaMarked, Elsewhere, Freed, Absent;
    hide AddNeed, FreeData, HasRoom, AddCause, Untouched, SameData, FreeSlot, Addable, StraySame, GaveBack;
    hide NameWritten, NewFile, EntryBytes, DirKept;
    ghost var s, own := v.View(), v.owner;
    StrayItself(s, own);
    SoundList(s, own, v.faults == 0);
    var n := NewInode(v, false);
    if n.Err? {
      DirKeptSelf(s, d);
      UntouchedStart(s, own, v.faults == 0, {d});
      return Err(n.error);
    }
    var ino := n.value;
    ghost var t := v.View();
    NewKeepsDir(s, own, false, d, v.faults == 0);
    DirWalkable(t, own, d, v.faults == 0);
    Born(s, own, false, v.faults == 0);
    ghost var clean := v.faults == 0;
    var a := AddEntry(v, d, name, ino);
    AddSound(t, own, v.View(), v.owner, d, name, ino, a, clean, v.faults == 0);
    AddKeeps(t, own, v.View(), v.owner, d, name, ino, a, ino);
    AddCauses(t, own, v.View(), v.owner, d, name, ino, a, v.faults > old(v.faults));
    CausesFrom(s, t, d, name, a);
    AddUntouched(s, t, own, v.View(), v.owner, d);
    AddStray(s, own, t, own, v.View(), v.owner, d, name, ino, a);
    if a.Err? {
      ghost var u, own', f1 := v.View(), v.owner, v.faults;
      SoundOwns(u, own', v.faults == 0);
      AddFailedQuiet(t, own, v.View(), v.owner, d, name, ino, a.error);
      StillLinked(v.View(), ino);
      NameNotWritten(s, t, own, u, own', d, name, ino, a.error);
      Abandon(v, ino);
      KeptApart(s, u, own', v.View(), v.owner, d, ino);
      AbandonedCreate(s, base, ino, Node(T_FILE, 1));
      DropUntouched(s, u, own', v.View(), v.owner, {d}, ino);
      CauseStays(s, d, name, AddNeed(s, d), a.error, f1 > old(v.faults), v.faults > old(v.faults));
      if v.faults == old(v.faults) {
        BlockMap.StrayTransitive(s, own, u, own', v.View(), v.owner);
      }
      return Err(a.error);
    }
    CreatedAbs(s, own, t, v.View(), v.owner, base, d, name, a.value, clean);
    NameIsWritten(s, t, own, v.View(), v.owner, d, name, ino, a.value);
    BornFile(t, own, v.View(), v.owner, d, name, ino, a);
    return Ok(ino);
  }

  lemma StrayItself(s: Fs, own: Owners)
    ensures StraySame(s, own, s, own)
  {
  }

  lemma AddStray(s: Fs, own: Owners, t: Fs, ownT: Owners, u: Fs, own': Owners, d: nat, name: Name, inum: nat,
                 r: Result<nat>)
    requires StraySame(s, own, t, ownT) && AddPost(t, ownT, u, own', d, name, inum, r)
    ensures StraySame(s, own, u, own')
  {
    hide StraySame, Owns, Others, Slots;
    BlockMap.StrayTransitive(s, own, t, ownT, u, own');
  }

  lemma SoundList(s: Fs, own: Owners, clean: bool)
    requires Sound(s, own, clean)
    ensures Shape(s) && ListOk(s)
  {
    hide InUse, PointersOwned, OwnersPoint, MetaMarked, CleanCached, Widths, NoLeak, TableOnDisk;
    ListsOk(s);
  }

  lemma UntouchedStart(s: Fs, own: Owners, clean: bool, touched: set<nat>)
    requires Sound(s, own, clean)
    ensures Untouched(s, s, touched)
  {
    hide Sound, Untouched, Owns;
    SoundOwns(s, own, clean);
    UntouchedSelf(s, own);
    UntouchedMore(s, s, {}, touched);
  }

  /** An inode other than the parent is dropped: the parent stays. */
  lemma KeptApart(s: Fs, u: Fs, own: Owners, w: Fs, own': Owners, d: nat, i: nat)
    requires DirKept(s, u, d) && Owns(u, own) && Freed(u, own, w, own', i) && d != i
    ensures DirKept(s, w, d)
  {
    OwnsShape(u, own);
    CachedInUse(u, d);
    ElsewhereSlots(u, own, w, own', i, d);
    hide Owns, Slots, OwnersElsewhere, DiskSlot;
  }

  lemma BornFile(t: Fs, own: Owners, u: Fs, own': Owners, d: nat, name: Name, i: nat, r: Result<nat>)
    requires Owns(t, own) && AddPost(t, own, u, own', d, name, i, r) && d != i
    requires i in t.cache && t.cache[i] == FreshInode(false)
    ensures NewFile(u, i)
  {
    hide Owns, Slots, StraySame, FreeSlot, OwnersElsewhere;
  }

  /** The causes of a failed add, carried back to a state with the same directory and the same free blocks. */
  lemma CausesFrom(s: Fs, t: Fs, d: nat, name: Name, r: Result<nat>)
    requires Slots(t, d) == Slots(s, d) && AddNeed(t, d) == AddNeed(s, d) && FreeData(t) == FreeData(s)
    ensures HasRoom(t, d, name, AddNeed(t, d)) ==> HasRoom(s, d, name, AddNeed(s, d))
    ensures forall e, unreadable :: AddCause(t, d, name, AddNeed(t, d), e, unreadable) ==>
      AddCause(s, d, name, AddNeed(s, d), e, unreadable)
  {
    hide Slots, AddNeed, FreeData;
  }

  lemma CauseStays(s: Fs, d: nat, name: Name, need: nat, e: Errno, unreadable: bool, unreadable': bool)
    requires AddCause(s, d, name, need, e, unreadable) && (unreadable ==> unreadable')
    ensures AddCause(s, d, name, need, e, unreadable')
  {
    hide Slots, FreeData, FreeSlot;
  }

  lemma AddUntouched(s: Fs, t: Fs, own: Owners, u: Fs, own': Owners, d: nat)
    requires Owns(t, own) && Elsewhere(t, own, u, own', d) && Untouched(s, t, {})
    ensures Untouched(s, u, {d})
  {
    hide Owns, Elsewhere, Untouched;
    ElsewhereUntouched(t, own, u, own', d);
    UntouchedTransitive(s, t, u, {}, {d});
    assert {} + {d} == {d};
  }

  /** A new inode that is dropped again leaves the old ones alone. */
  lemma DropUntouched(s: Fs, u: Fs, own: Owners, w: Fs, own': Owners, touched: set<nat>, i: nat)
    requires Untouched(s, u, touched) && Owns(u, own) && Freed(u, own, w, own', i) && !InUse(s, i)
    ensures Untouched(s, w, touched)
  {
    hide Owns, Elsewhere, Untouched, InUse;
    ElsewhereUntouched(u, own, w, own', i);
    UntouchedTransitive(s, u, w, touched, {i});
    UntouchedNew(s, w, touched, i);
  }

  lemma AddKeeps(s: Fs, own: Owners, s': Fs, own': Owners, d: nat, name: Name, inum: nat, r: Result<nat>, j: nat)
    requires AddPost(s, own, s', own', d, name, inum, r) && j != d && j in s.cache
    ensures j in s'.cache && s'.cache[j] == s.cache[j] && (r.Ok? ==> |name| <= DIRSIZ)
  {
    hide Owns, Slots, StraySame;
  }

  lemma StillLinked(s: Fs, i: nat)
    requires i in Abs(s).nodes
    ensures NodeAt(s, i).Some?
  {
    AbsAt(s);
  }

  lemma AbandonedCreate(s: Fs, base: nat, i: nat, node: Node)
    requires WellLinked(Abs(s), base) && i !in Abs(s).nodes
    ensures Renumbered(Ns(Abs(s).nodes[i := node], Abs(s).ents), i, 0) == Abs(s)
  {
    hide Abs;
    AbandonedAbs(Abs(s), i, node);
  }

  // --------------------------------------------------------------------- link

  lemma LinkedAbs(s: Fs, own: Owners, t: Fs, own': Owners, base: nat, d: nat, name: Name, i: nat, p: nat,
                  clean: bool, clean': bool)
    requires Sound(s, own, clean) && WellLinked(Abs(s), base) && i in s.cache
    requires NodeAt(s, i).Some? && NodeAt(s, i).value.kind != T_DIR
    requires d in s.cache && LinkedDir(s, d) && Nameable(name)
    requires Absent(Slots(s, d), name) && i + 1 < U32 && 0 < i < U16
    requires Sound(t, own', clean') && AddPost(s, own, t, own', d, name, i, Ok(p))
    requires i in t.cache && t.cache[i] == s.cache[i]
    requires s.cache[i].nlink + 1 < U16
    ensures var u := Relinked(t, i, s.cache[i].nlink + 1);
      && Sound(u, own', clean') && WellLinked(Abs(u), base) && (d, p) !in Abs(s).ents && i in Abs(s).nodes
      && Abs(u) == Ns(Abs(s).nodes[i := Node(s.cache[i].kind, s.cache[i].nlink + 1)],
                      Abs(s).ents[(d, p) := Entry(name, i)])
  {
    hide Sound, WellLinked, Slots, Abs, Owns, Elsewhere, Decode;
    var n := s.cache[i].nlink;
    SoundOwns(s, own, clean);
    SoundOwns(t, own', clean');
    AddedName(s, own, t, own', d, name, i, p);
    Added(s, own, t, own', d, name, i, p);
    CanAdd(s, d, p, name);
    RelinkLaw(t, own', i, n + 1, clean');
    AbsAt(s);
    AbsAt(t);
    Relink(t, own', i, n + 1);
    LinkLinks(Abs(s), Abs(Relinked(t, i, n + 1)), base, (d, p), name, i);
  }

  lemma LinkLinks(ns: Ns, ns': Ns, base: nat, x: Place, name: Name, i: nat)
    requires WellLinked(ns, base) && Addable(ns, x, name) && IsFile(ns, i)
    requires ns' == Ns(ns.nodes[i := Node(ns.nodes[i].kind, ns.nodes[i].nlink + 1)], ns.ents[x := Entry(name, i)])
    ensures WellLinked(ns', base)
  {
    hide UniqueNames, Dots, Parents, FileCounts, DirCounts;
    assert PutFile(ns, ns', x, name, i);
    hide WellLinked;
    PutFileLinks(ns, ns', base, x, name, i);
  }

  /** `xv6fs_link`: directories and inodes at the link limit are refused. */
  method Link(v: Volume, i: nat, d: nat, name: Name, ghost base: nat) returns (r: Result<()>)
    requires CanEnter(v, base, d, name) && i in v.cache && v.cache[i].nlink > 0
    modifies v`disk, v`cache, v`faults, v`nobuf, v`owner
    ensures Valid(v, base) && old(v.faults) <= v.faults && Untouched(old(v.View()), v.View(), {d})
    ensures r.Ok? ==>
      && i in Abs(old(v.View())).nodes && NameWritten(old(v.View()), v.View(), d, name, i, 0)
      && i in v.cache && v.cache[i] == old(v.cache)[i].(nlink := old(v.cache)[i].nlink + 1, dirty := true)
      && Entered(Abs(old(v.View())), Abs(v.View()), d, name, i, Node(old(v.cache[i].kind), old(v.cache[i].nlink) + 1))
    ensures r.Err? ==> Abs(v.View()) == Abs(old(v.View())) && DirKept(old(v.View()), v.View(), d)
    ensures r == Err(EPERM) <==> old(v.cache[i].kind) == T_DIR
    ensures r == Err(EMLINK) <==> old(v.cache[i].kind) != T_DIR && old(v.cache[i].nlink) >= 65535
    ensures r.Ok? ==> HasRoom(old(v.View()), d, name, AddNeed(old(v.View()), d)) && v.faults == old(v.faults)
    ensures r.Err? && r.error != EPERM && r.error != EMLINK ==>
      AddCause(old(v.View()), d, name, AddNeed(old(v.View()), d), r.error, v.faults > old(v.faults))
    ensures |name| > DIRSIZ ==> r.Err? && r.error in {EPERM, EMLINK, ENAMETOOLONG}
    ensures StraySame(old(v.View()), old(v.owner), v.View(), v.owner)
  {
    hide Sound, WellLinked, Abs, LinkedDir, Slots, AddPost, Owns, MetaMarked, Elsewhere, Absent, Decode;
    hide AddNeed, FreeData, HasRoom, AddCause, Untouched, SameData, FreeSlot, Addable, StraySame;
    hide NameWritten, EntryBytes, DirKept;
    ghost var s, own, clean := v.View(), v.owner, v.faults == 0;
    UntouchedStart(s, own, clean, {d});
    StrayItself(s, own);
    DirKeptSelf(s, d);
    if v.cache[i].kind == T_DIR {
      return Err(EPERM);
    }
    if v.cache[i].nlink >= 65535 {
      return Err(EMLINK);
    }
    DirWalkable(s, own, d, clean);
    FileIsNotDir(s, own, i, d, clean);
    var a := AddEntry(v, d, name, i);
    AddSound(s, own, v.View(), v.owner, d, name, i, a, clean, v.faults == 0);
    AddKeeps(s, own, v.View(), v.owner, d, name, i, a, i);
    AddCauses(s, own, v.View(), v.owner, d, name, i, a, v.faults > old(v.faults));
    ElsewhereUntouched(s, own, v.View(), v.owner, d);
    AddStray(s, own, s, own, v.View(), v.owner, d, name, i, a);
    if a.Err? {
      AddErrors(s, own, v.View(), v.owner, d, name, i, a.error);
      AddFailedQuiet(s, own, v.View(), v.owner, d, name, i, a.error);
      NameNotWritten(s, s, own, v.View(), v.owner, d, name, i, a.error);
      return Err(a.error);
    }
    LinkedAbs(s, own, v.View(), v.owner, base, d, name, i, a.value, clean, v.faults == 0);
    RelinkUntouched(s, v.View(), v.owner, {d}, i, v.cache[i].nlink + 1, v.faults == 0);
    BlockMap.StrayTransitive(s, own, v.View(), v.owner, Relinked(v.View(), i, v.cache[i].nlink + 1), v.owner);
    NameIsWritten(s, s, own, v.View(), v.owner, d, name, i, a.value);
    RelinkWritten(s, v.View(), d, name, i, i);
    v.cache := v.cache[i := BlockMap.Dirty(v.cache[i].(nlink := v.cache[i].nlink + 1))];
    return Ok(());
  }

  lemma RelinkUntouched(s: Fs, t: Fs, own: Owners, touched: set<nat>, i: nat, n: nat, clean: bool)
    requires Sound(t, own, clean) && i in t.cache && Untouched(s, t, touched)
    ensures Untouched(s, Relinked(t, i, n), touched) && StraySame(t, own, Relinked(t, i, n), own)
  {
    hide Sound, Owns, Elsewhere, Untouched, InUse, StraySame;
    SoundOwns(t, own, clean);
    RelinkOwns(t, own, i, n);
    UntouchedTransitive(s, t, Relinked(t, i, n), touched, {});
    assert touched + {} == touched;
  }

  lemma AddErrors(s: Fs, own: Owners, s': Fs, own': Owners, d: nat, name: Name, inum: nat, e: Errno)
    requires AddPost(s, own, s', own', d, name, inum, Err(e))
    ensures e == ENOSPC || e == EIO || e == ENAMETOOLONG || e == EFBIG
  {
    hide Owns, Slots, StraySame, Others;
  }

  lemma FileIsNotDir(s: Fs, own: Owners, i: nat, d: nat, clean: bool)
    requires Sound(s, own, clean) && i in s.cache && s.cache[i].nlink > 0 && s.cache[i].kind != T_DIR && LinkedDir(s, d)
    ensures i != d && NodeAt(s, i) == Some(Node(s.cache[i].kind, s.cache[i].nlink)) && 0 < i < U16 && InUse(s, i)
  {
    hide PointersOwned, OwnersPoint, MetaMarked, CleanCached, NoLeak, TableOnDisk, Widths;
    NotZero(s, i);
  }

  // ------------------------------------------------------------------- unlink

  /** What the VFS guarantees before unlink and rmdir: `i` is the inode the entry names. */
  ghost predicate CanRemove(v: Volume, d: nat, name: Name, i: nat)
    reads v
  {
    && Sound(v.View(), v.owner, v.faults == 0) && d in v.cache && LinkedDir(v.View(), d)
    && i in v.cache && v.cache[i].nlink > 0
    && forall q: nat :: FoundAt(Slots(v.View(), d), name, q) ==> Slots(v.View(), d)[q].inum == i
  }

  lemma ClearSound(s: Fs, own: Owners, s': Fs, d: nat, q: nat, clean: bool)
    requires Sound(s, own, clean) && d in s.cache && ClearPost(s, own, s', d, q)
    ensures Sound(s', own, clean)
  {
    hide Owns, MetaMarked, Lists, CleanCached, NoLeak, TableOnDisk, StraySame, Others, Slots, InWidth, Decode, Widths;
    assert Shape(s) by { OwnsShape(s, own); }
    StraySameGrows(s, own, s', own);
    CachedInUse(s, d);
    InWidthOf(s, d);
    SoundKept(s, own, s', own, d, clean, clean);
  }

  /** The entry is gone and the inode has one link less. */
  ghost predicate Unlinked(ns: Ns, ns': Ns, d: nat, name: Name, i: nat) {
    exists q: nat :: UnlinkedAt(ns, ns', d, q, name, i)
  }

  ghost predicate UnlinkedAt(ns: Ns, ns': Ns, d: nat, q: nat, name: Name, i: nat) {
    && (d, q) in ns.ents && ns.ents[(d, q)] == Entry(name, i) && i in ns.nodes && ns.nodes[i].nlink > 0
    && ns' == Renumbered(Ns(ns.nodes, ns.ents - {(d, q)}), i, ns.nodes[i].nlink - 1)
  }

  lemma UnlinkAbs(s: Fs, own: Owners, t: Fs, d: nat, name: Name, q: nat, i: nat, clean: bool)
    requires Sound(s, own, clean) && d in s.cache && LinkedDir(s, d) && i in s.cache && s.cache[i].nlink > 0
    requires Walkable(s, d) && FoundAt(Slots(s, d), name, q) && Slots(s, d)[q].inum == i && ClearPost(s, own, t, d, q)
    ensures var u := Relinked(t, i, s.cache[i].nlink - 1);
      Sound(u, own, clean) && UnlinkedAt(Abs(s), Abs(u), d, q, name, i)
  {
    hide Sound, Abs, Slots, Owns, Elsewhere, Decode, Names;
    var n := s.cache[i].nlink;
    SoundOwns(s, own, clean);
    SizeSlots(s, d);
    assert q < |Slots(s, d)| && t.cache == s.cache;
    FoundMeans(s, d, name, q);
    Cleared(s, own, t, d, q);
    ClearSound(s, own, t, d, q, clean);
    SoundOwns(t, own, clean);
    LinkBound(t, own, i, clean);
    RelinkLaw(t, own, i, n - 1, clean);
    AbsAt(s);
    AbsAt(t);
    CachedInUse(s, i);
    CachedInUse(t, i);
    Relink(t, own, i, n - 1);
  }

  lemma LinkBound(s: Fs, own: Owners, i: nat, clean: bool)
    requires Sound(s, own, clean) && i in s.cache
    ensures s.cache[i].nlink < U16
  {
    hide PointersOwned, OwnersPoint, MetaMarked, Lists, CleanCached, NoLeak, TableOnDisk;
    InWidthOf(s, i);
  }

  /** `drop_nlink` on the kernel's 32-bit counter. */
  function DropLink(n: nat): nat {
    if n == 0 then U32 - 1 else n - 1
  }

  /** Exactly the first slot of that name has become free. */
  ghost predicate NameCleared(ds: seq<Dirent>, ds': seq<Dirent>, name: Name, q: nat) {
    FoundAt(ds, name, q) && ds' == ds[q := FreeDirent()]
  }

  /** `xv6fs_unlink`, also the first half of `xv6fs_rmdir`. */
  method Unlink(v: Volume, d: nat, name: Name, i: nat) returns (r: Result<()>)
    requires CanRemove(v, d, name, i)
    modifies v`disk, v`cache, v`faults, v`nobuf, v`owner
    ensures Sound(v.View(), v.owner, v.faults == 0) && old(v.faults) <= v.faults && v.owner == old(v.owner)
    ensures Untouched(old(v.View()), v.View(), {d})
    ensures r.Ok? ==> Unlinked(Abs(old(v.View())), Abs(v.View()), d, name, i)
    ensures r.Ok? ==> v.View() == Relinked(old(v.View()).(disk := v.disk), i, DropLink(old(v.cache)[i].nlink))
    ensures r.Ok? ==> exists q: nat :: NameCleared(Slots(old(v.View()), d), Slots(v.View(), d), name, q)
    ensures r.Err? ==> v.View() == old(v.View()) && (r.error == ENOENT || r.error == EIO)
    ensures r == Err(ENOENT) <==> r != Err(EIO) && Absent(Slots(old(v.View()), d), name)
    ensures if r == Err(EIO) then v.faults > old(v.faults) else v.faults == old(v.faults)
    ensures StraySame(old(v.View()), v.owner, v.View(), v.owner)
  {
    hide Untouched, NameCleared, StraySame;
    hide Sound, Abs, LinkedDir, Slots, Owns, MetaMarked, Elsewhere, Decode, LMap, SetDirent, DirentAt, Names;
    hide ClearPost, UnlinkedAt;
    ghost var s, own, clean := v.View(), v.owner, v.faults == 0;
    DirWalkable(s, own, d, clean);
    UntouchedStart(s, own, clean, {d});
    StrayItself(s, own);
    var f, c := FindEntry(v, d, name);
    if f.Err? {
      SoundFails(s, own, clean);
      return Err(f.error);
    }
    if f.value.None? {
      return Err(ENOENT);
    }
    ghost var q := c.pos / DIRENT_SIZE;
    Positions(q);
    SizeSlots(s, d);
    BlockOnDisk(s, own, d, q / DPB);
    v.disk := v.disk[c.bh.value := SetDirent(v.disk[c.bh.value], c.de, FreeDirent())];
    EntryCleared(s, own, d, q);
    ghost var t := v.View();
    assert t == ClearedState(s, d, q);
    UnlinkAbs(s, own, t, d, name, q, i, clean);
    ClearUntouched(s, own, t, d, name, q, i, clean);
    v.cache := v.cache[i := BlockMap.Dirty(v.cache[i].(nlink := DropLink(v.cache[i].nlink)))];
    return Ok(());
  }

  /** The other files keep their contents, and of the directory's slots only the one named is gone. */
  lemma ClearUntouched(s: Fs, own: Owners, t: Fs, d: nat, name: Name, q: nat, i: nat, clean: bool)
    requires Sound(s, own, clean) && d in s.cache && ClearPost(s, own, t, d, q)
    requires FoundAt(Slots(s, d), name, q) && i in t.cache
    ensures var u := Relinked(t, i, DropLink(t.cache[i].nlink));
      Untouched(s, u, {d}) && NameCleared(Slots(s, d), Slots(u, d), name, q) && StraySame(s, own, u, own)
  {
    hide Sound, Untouched, Slots, Owns, Others, Elsewhere, StraySame, SameData, DropLink, FoundAt;
    var u := Relinked(t, i, DropLink(t.cache[i].nlink));
    SoundOwns(s, own, clean);
    ClearSound(s, own, t, d, q, clean);
    OthersElsewhere(s, own, t, own, d);
    ElsewhereUntouched(s, own, t, own, d);
    RelinkUntouched(s, t, own, {d}, i, DropLink(t.cache[i].nlink), clean);
    SoundOwns(t, own, clean);
    CachedInUse(t, d);
    RelinkOwns(t, own, i, DropLink(t.cache[i].nlink));
    UntouchedAt(t, u, {}, d);
    SameDataSlots(t, u, d);
    BlockMap.StrayTransitive(s, own, t, own, u, own);
  }

  lemma SoundFails(s: Fs, own: Owners, clean: bool)
    requires Sound(s, own, clean)
    ensures Sound(s, own, false)
  {
  }

  lemma UnlinkFileLinks(ns: Ns, ns': Ns, base: nat, d: nat, name: Name, i: nat)
    requires WellLinked(ns, base) && Unlinked(ns, ns', d, name, i) && IsFile(ns, i) && Nameable(name)
    ensures WellLinked(ns', base)
  {
    hide WellLinked;
    var q: nat :| UnlinkedAt(ns, ns', d, q, name, i);
    FileHasNoEntries(ns, base, i);
    assert DropFile(ns, ns', (d, q), i);
    DropFileLinks(ns, ns', base, (d, q), i);
  }

  lemma FileHasNoEntries(ns: Ns, base: nat, i: nat)
    requires WellLinked(ns, base) && IsFile(ns, i)
    ensures forall x :: x in ns.ents ==> x.0 != i
  {
    hide UniqueNames, Dots, Parents, FileCounts, DirCounts;
  }

  lemma DotPlaces(ns: Ns, base: nat, d: nat) returns (x: Place, y: Place)
    requires WellLinked(ns, base) && IsDir(ns, d)
    ensures Has(ns, d, Dot(), x) && Has(ns, d, DotDot(), y) && x != y
  {
    hide UniqueNames, Parents, FileCounts, DirCounts, IsDir, Closed;
    x :| Has(ns, d, Dot(), x);
    y :| Has(ns, d, DotDot(), y);
  }

  lemma DirInAbs(s: Fs, c: nat)
    requires LinkedDir(s, c)
    ensures IsDir(Abs(s), c)
  {
    AbsAt(s);
  }

  lemma NodeIsInode(s: Fs, i: nat)
    requires i in s.cache && i in Abs(s).nodes
    ensures Abs(s).nodes[i] == Node(s.cache[i].kind, s.cache[i].nlink) && NodeAt(s, i).Some?
  {
    AbsAt(s);
    hide Abs, Decode;
  }

  lemma SoundAfterRead(s: Fs, own: Owners, clean: bool, clean': bool)
    requires Sound(s, own, clean) && (clean' ==> clean)
    ensures Sound(s, own, clean')
  {
  }

  lemma DirKind(s: Fs, c: nat)
    requires LinkedDir(s, c) && c in s.cache
    ensures s.cache[c].kind == T_DIR
  {
    hide Decode;
  }

  lemma DotNames()
    ensures ValidName(Dot()) && ValidName(DotDot()) && Dot() != DotDot()
  {
  }
}
