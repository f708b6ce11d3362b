/** Looking up, adding and clearing directory entries (`dir.c`). */
module Directory {
  import opened Bytes
  import opened Layout
  import opened Codec
  import opened Results
  import opened State
  import opened Bitmap
  import opened Ownership
  import opened OnDisk
  import opened BlockMap
  import opened Cursor
  import opened Listing

  // ------------------------------------------------- writing a data block

  ghost function WriteBlock(s: Fs, b: nat, blk: Block): Fs
    requires b < |s.disk|
  {
    s.(disk := s.disk[b := blk])
  }

  /** A write to a data block of inode `i` moves no pointer, no bit, and nothing of any other inode. */
  lemma WriteBlockLaw(s: Fs, own: Owners, i: nat, l: nat, blk: Block)
    requires Owns(s, own) && i in s.cache && l < MAXFILE && LMap(s, i, l) != 0
    ensures DStart(s.sb) <= LMap(s, i, l) < |s.disk| && LMap(s, i, l) in own && own[LMap(s, i, l)] == (i, SlotOf(l))
    ensures var s' := WriteBlock(s, LMap(s, i, l), blk);
      && Owns(s', own) && StraySame(s, own, s', own) && Kept(s, own, s', own, i)
      && forall m: nat :: m < SLOTS ==> Ptr(s', i, m) == Ptr(s, i, m)
  {
    hide IsSet, WordAt, Decode;
    var b := LMap(s, i, l);
    assert InUse(s, i) && Ptr(s, i, SlotOf(l)) == b;
    assert b in own && own[b] == (i, SlotOf(l));
    var s' := WriteBlock(s, b, blk);
    WriteKeepsBits(s.sb, s.disk, b, blk);
    WriteBlockPtrs(s, own, i, l, blk);
    hide Ptr;
    SteadyOwns(s, own, s');
  }

  lemma WriteBlockPtrs(s: Fs, own: Owners, i: nat, l: nat, blk: Block)
    requires Owns(s, own) && InUse(s, i) && l < MAXFILE && LMap(s, i, l) in own && LMap(s, i, l) < |s.disk|
    requires own[LMap(s, i, l)] == (i, SlotOf(l))
    ensures forall j: nat, m: nat :: InUse(s, j) && m < SLOTS ==>
      Ptr(WriteBlock(s, LMap(s, i, l), blk), j, m) == Ptr(s, j, m)
  {
    hide Used, WordAt, Decode, PointersOwned, OwnersPoint;
    var s' := WriteBlock(s, LMap(s, i, l), blk);
    forall j: nat, m: nat | InUse(s, j) && m < SLOTS ensures Ptr(s', j, m) == Ptr(s, j, m) {
      IndirectOwned(s, own, j);
    }
  }

  /** Two logical blocks of one inode never share a disk block. */
  lemma MapsDistinct(s: Fs, own: Owners, i: nat, l: nat, m: nat)
    requires Owns(s, own) && InUse(s, i) && l < MAXFILE && m < MAXFILE && l != m && LMap(s, i, l) != 0
    ensures LMap(s, i, l) != LMap(s, i, m)
  {
    hide Ptr, Used;
  }

  // --------------------------------------------------- writing one entry

  ghost function PutSlot(ds: seq<Dirent>, p: nat, e: Dirent): seq<Dirent>
    requires p <= |ds|
  {
    if p < |ds| then ds[p := e] else ds + [e]
  }

  /** Only slot `p` of directory `d` differs. */
  ghost predicate SlotWritten(s: Fs, s': Fs, d: nat, p: nat, e: Dirent) {
    && Slot(s', d, p) == e
    && forall q: nat :: q != p && q < MAXFILE * DPB ==> Slot(s', d, q) == Slot(s, d, q)
  }

  /** Mapping the block of slot `p`, zeroing it if it is new, and storing one entry. */
  lemma EntryStored(s: Fs, own: Owners, t: Fs, own': Owners, d: nat, p: nat, e: Dirent, isNew: bool)
    requires Owns(s, own) && d in s.cache && p < MAXFILE * DPB && e.inum < U16
    requires MapPost(s, own, t, own', d, p / DPB, true, Ok(Mapped(LMap(t, d, p / DPB), isNew))) && d in t.cache
    ensures var b := LMap(t, d, p / DPB);
      && b < |t.disk|
      && var base := if isNew then ZeroBlock() else t.disk[b];
         SlotWritten(s, WriteBlock(t, b, SetDirent(base, p % DPB, e)), d, p, e)
  {
    hide IsSet, Ptr, DirentAt, SetDirent, PointersOwned, OwnersPoint, StraySame, Kept, Decode;
    var l := p / DPB;
    var b := LMap(t, d, l);
    WriteBlockLaw(t, own', d, l, ZeroBlock());
    var blk: Block := SetDirent(if isNew then ZeroBlock() else t.disk[b], p % DPB, e);
    WriteBlockLaw(t, own', d, l, blk);
    var u := WriteBlock(t, b, blk);
    forall q: nat | q < MAXFILE * DPB ensures Slot(u, d, q) == if q == p then e else Slot(s, d, q) {
      if q / DPB == l {
        SameBlockSlot(s, own, t, own', d, p, q, e, isNew);
      } else {
        OtherBlockSlot(s, own, t, own', d, p, q, blk, isNew);
      }
    }
  }

  lemma SameBlockSlot(s: Fs, own: Owners, t: Fs, own': Owners, d: nat, p: nat, q: nat, e: Dirent, isNew: bool)
    requires Owns(s, own) && d in s.cache && p < MAXFILE * DPB && q / DPB == p / DPB && e.inum < U16
    requires MapPost(s, own, t, own', d, p / DPB, true, Ok(Mapped(LMap(t, d, p / DPB), isNew))) && d in t.cache
    requires LMap(t, d, p / DPB) < |t.disk|
    ensures var b := LMap(t, d, p / DPB);
      var base := if isNew then ZeroBlock() else t.disk[b];
      Slot(WriteBlock(t, b, SetDirent(base, p % DPB, e)), d, q) == if q == p then e else Slot(s, d, q)
  {
    hide IsSet, Ptr, DirentAt, SetDirent, PointersOwned, OwnersPoint, StraySame, Kept, Decode;
    var l := p / DPB;
    var b := LMap(t, d, l);
    var base: Block := if isNew then ZeroBlock() else t.disk[b];
    var blk: Block := SetDirent(base, p % DPB, e);
    WriteBlockLaw(t, own', d, l, blk);
    ZeroBlockReads();
    assert q == l * DPB + q % DPB && p == l * DPB + p % DPB;
    assert Slot(WriteBlock(t, b, blk), d, q) == DirentAt(blk, q % DPB);
    assert DirentAt(base, q % DPB) == Slot(s, d, q);
  }

  lemma OtherBlockSlot(s: Fs, own: Owners, t: Fs, own': Owners, d: nat, p: nat, q: nat, blk: Block, isNew: bool)
    requires Owns(s, own) && d in s.cache && p < MAXFILE * DPB && q < MAXFILE * DPB && q / DPB != p / DPB
    requires MapPost(s, own, t, own', d, p / DPB, true, Ok(Mapped(LMap(t, d, p / DPB), isNew))) && d in t.cache
    requires LMap(t, d, p / DPB) < |t.disk|
    ensures Slot(WriteBlock(t, LMap(t, d, p / DPB), blk), d, q) == Slot(s, d, q)
  {
    hide IsSet, Ptr, DirentAt, StraySame, Kept, Decode, PointersOwned, OwnersPoint;
    var l, m := p / DPB, q / DPB;
    WriteBlockLaw(t, own', d, l, blk);
    MapsDistinct(t, own', d, l, m);
    if LMap(s, d, m) != 0 {
      WriteBlockLaw(s, own, d, m, blk);
    }
    assert LMap(t, d, m) == LMap(s, d, m);
  }

  // ---------------------------------------------------------- whole scans

  /** Among the first `n` slots, the marks are the lowest and the highest free one, or -1. */
  ghost predicate Marked(ds: seq<Dirent>, n: nat, m: Marks) {
    && n <= |ds|
    && (m.first == -1 <==> forall k: nat :: k < n ==> Live(ds[k]))
    && (m.last == -1 <==> m.first == -1)
    && (m.first != -1 ==> exists a: nat, b: nat :: FreePair(ds, n, m, a, b))
  }

  ghost predicate FreePair(ds: seq<Dirent>, n: nat, m: Marks, a: nat, b: nat) {
    && a < n <= |ds| && b < n && m == Marks(DIRENT_SIZE * a, DIRENT_SIZE * b)
    && !Live(ds[a]) && !Live(ds[b])
    && (forall k: nat :: k < a ==> Live(ds[k]))
    && (forall k: nat :: b < k < n ==> Live(ds[k]))
  }

  /** A further run of free slots `from..q` extends the marks. */
  lemma MarkFree(ds: seq<Dirent>, from: nat, q: nat, m: Marks, m': Marks)
    requires Marked(ds, from, m) && from <= q <= |ds| && AllFree(ds, from, q)
    requires Noted(m.first, m.last, m'.first, m'.last, from, q)
    ensures Marked(ds, q, m')
  {
    if from < q {
      if m.first == -1 {
        assert FreePair(ds, q, m', from, q - 1);
      } else {
        var a: nat, b: nat :| FreePair(ds, from, m, a, b);
        assert FreePair(ds, q, m', a, q - 1);
      }
    }
  }

  lemma MarkLive(ds: seq<Dirent>, q: nat, m: Marks)
    requires Marked(ds, q, m) && q < |ds| && Live(ds[q])
    ensures Marked(ds, q + 1, m)
  {
    if m.first != -1 {
      var a: nat, b: nat :| FreePair(ds, q, m, a, b);
      assert FreePair(ds, q + 1, m, a, b);
    }
  }

  /** The slot a new entry goes to: the lowest free one, else the end. */
  ghost predicate FreeSlot(ds: seq<Dirent>, p: nat) {
    p <= |ds| && (forall k: nat :: k < p ==> Live(ds[k])) && (p < |ds| ==> !Live(ds[p]))
  }

  /** That slot, searched for from `p` on. */
  ghost function FirstFree(ds: seq<Dirent>, p: nat): (q: nat)
    requires p <= |ds| && forall k: nat :: k < p ==> Live(ds[k])
    ensures FreeSlot(ds, q)
    decreases |ds| - p
  {
    if p < |ds| && Live(ds[p]) then FirstFree(ds, p + 1) else p
  }

  lemma FreeSlotUnique(ds: seq<Dirent>, p: nat, q: nat)
    requires FreeSlot(ds, p) && FreeSlot(ds, q)
    ensures p == q
  {
  }

  /** Blocks that adding an entry to directory `d` takes. */
  ghost function AddNeed(s: Fs, d: nat): nat {
    BlocksNeeded(s, d, FirstFree(Slots(s, d), 0) / DPB)
  }

  lemma AddNeedAt(s: Fs, d: nat, p: nat)
    requires FreeSlot(Slots(s, d), p)
    ensures AddNeed(s, d) == BlocksNeeded(s, d, p / DPB)
  {
    FreeSlotUnique(Slots(s, d), p, FirstFree(Slots(s, d), 0));
  }

  lemma MarkedSlot(ds: seq<Dirent>, m: Marks) returns (p: nat)
    requires Marked(ds, |ds|, m)
    ensures FreeSlot(ds, p) && DIRENT_SIZE * p == if m.first < 0 then DIRENT_SIZE * |ds| else m.first
  {
    if m.first == -1 {
      p := |ds|;
    } else {
      var a: nat, b: nat :| FreePair(ds, |ds|, m, a, b);
      p := a;
    }
  }

  /** A complete scan from offset 0, as `xv6fs_dir_add_entry` begins: ends with the marks of the whole directory. */
  method ScanDirectory(v: Volume, d: nat) returns (r: Result<Marks>)
    requires Mapable(v, d) && Walkable(v.View(), d)
    modifies v`disk, v`cache, v`faults, v`nobuf, v`owner
    ensures v.View() == old(v.View()) && v.owner == old(v.owner) && v.nobuf == old(v.nobuf)
    ensures r.Err? ==> r.error == EIO && v.faults > old(v.faults)
    ensures r.Ok? ==> v.faults == old(v.faults) && Marked(Slots(v.View(), d), NSlots(v.View(), d), r.value)
  {
    hide Owns, MetaMarked, Slot, LMap, Slots, NSlots, Placed, From, AllFree, Noted, Ino, Marked;
    ghost var s := v.View();
    ghost var ds := Slots(s, d);
    SizeSlots(s, d);
    var c := new DirCursor(d, 0);
    StartPlaced(s, d, 0);
    ghost var from := From(s, d, c.bh, c.pos);
    NothingMarked(s, d);
    while true
      invariant v.View() == s && v.owner == old(v.owner) && v.faults == old(v.faults) && v.nobuf == old(v.nobuf)
      invariant c.dir == d && Placed(s, d, c.bh, c.pos) && -DIRENT_SIZE <= c.pos
      invariant from == From(s, d, c.bh, c.pos) <= |ds|
      invariant Marked(ds, from, Marks(c.firstEmpty, c.lastEmpty))
      decreases |ds| - from
    {
      ghost var m := Marks(c.firstEmpty, c.lastEmpty);
      var a := Advance(v, c);
      if a.Err? {
        return Err(a.error);
      }
      ghost var m' := Marks(c.firstEmpty, c.lastEmpty);
      if a.value.None? {
        MarkFree(ds, from, |ds|, m, m');
        break;
      }
      ghost var q := c.pos / DIRENT_SIZE;
      YieldedFrom(s, d, c.bh, c.pos);
      MarkFree(ds, from, q, m, m');
      MarkLive(ds, q, m');
      from := q + 1;
    }
    r := Ok(Marks(c.firstEmpty, c.lastEmpty));
  }

  lemma NothingMarked(s: Fs, d: nat)
    ensures From(s, d, None, -DIRENT_SIZE) == 0 && Marked(Slots(s, d), 0, Marks(-1, -1))
  {
  }

  // ---------------------------------------------------------------- lookup

  ghost predicate Names(e: Dirent, name: Name) { Live(e) && CName(e.field) == name }

  ghost predicate FoundAt(ds: seq<Dirent>, name: Name, q: nat) {
    q < |ds| && Names(ds[q], name) && forall k: nat :: k < q ==> !Names(ds[k], name)
  }

  ghost predicate Absent(ds: seq<Dirent>, name: Name) {
    forall k: nat :: k < |ds| ==> !Names(ds[k], name)
  }

  lemma NotYet(ds: seq<Dirent>, name: Name, from: nat, q: nat)
    requires AllFree(ds, from, q) && q <= |ds| && forall k: nat :: k < from && k < |ds| ==> !Names(ds[k], name)
    ensures forall k: nat :: k < q ==> !Names(ds[k], name)
  {
  }

  /**
   `xv6fs_find_entry`: the first live slot of that name, with the cursor on it and
   its block held, or nothing when no live slot has the name.
   */
  method FindEntry(v: Volume, d: nat, name: Name) returns (r: Result<Option<Dirent>>, c: DirCursor)
    requires Mapable(v, d) && Walkable(v.View(), d)
    modifies v`disk, v`cache, v`faults, v`nobuf, v`owner
    ensures fresh(c) && v.View() == old(v.View()) && v.owner == old(v.owner)
    ensures r.Err? ==> r.error == EIO && v.faults > old(v.faults)
    ensures r.Ok? ==> v.faults == old(v.faults)
    ensures r.Ok? && r.value.None? ==> Absent(Slots(v.View(), d), name)
    ensures r.Ok? && r.value.Some? ==>
      && 0 <= c.pos && c.pos % DIRENT_SIZE == 0 && c.dir == d
      && FoundAt(Slots(v.View(), d), name, c.pos / DIRENT_SIZE)
      && r.value.value == Slots(v.View(), d)[c.pos / DIRENT_SIZE]
      && c.de == c.pos % BSIZE / DIRENT_SIZE
      && c.bh.Some? && c.bh.value != 0 && c.bh.value == LMap(v.View(), d, c.pos / BSIZE)
  {
    hide Owns, MetaMarked, Slot, LMap, Slots, NSlots, Placed, From, AllFree, Noted, Ino, Names, CName;
    ghost var s := v.View();
    ghost var ds := Slots(s, d);
    SizeSlots(s, d);
    c := new DirCursor(d, 0);
    StartPlaced(s, d, 0);
    ghost var from := From(s, d, c.bh, c.pos);
    NothingMarked(s, d);
    while true
      invariant v.View() == s && v.owner == old(v.owner) && v.faults == old(v.faults)
      invariant c.dir == d && Placed(s, d, c.bh, c.pos) && -DIRENT_SIZE <= c.pos
      invariant from == From(s, d, c.bh, c.pos) <= |ds|
      invariant forall k: nat :: k < from ==> !Names(ds[k], name)
      decreases |ds| - from
    {
      var a := Advance(v, c);
      if a.Err? {
        return Err(a.error), c;
      }
      if a.value.None? {
        NotYet(ds, name, from, |ds|);
        break;
      }
      ghost var q := c.pos / DIRENT_SIZE;
      YieldedFrom(s, d, c.bh, c.pos);
      NotYet(ds, name, from, q);
      var same := NameMatches(a.value.value.field, name);
      SameNames(ds[q], name);
      if same {
        HeldBlock(s, d, c.bh, c.pos);
        return Ok(a.value), c;
      }
      from := q + 1;
    }
    return Ok(None), c;
  }

  lemma SameNames(e: Dirent, name: Name)
    ensures Names(e, name) <==> Live(e) && CName(e.field) == name
  {
  }

  lemma HeldBlock(s: Fs, d: nat, bh: Option<nat>, pos: int)
    requires Placed(s, d, bh, pos) && bh.Some?
    ensures 0 <= pos && pos % DIRENT_SIZE == 0 && bh.value != 0 && bh.value == LMap(s, d, pos / BSIZE)
  {
  }

  /** `xv6fs_dir_is_empty`: at most two live entries; an unreadable directory counts as not empty. */
  method DirIsEmpty(v: Volume, d: nat) returns (empty: bool)
    requires Mapable(v, d) && Walkable(v.View(), d)
    modifies v`disk, v`cache, v`faults, v`nobuf, v`owner
    ensures v.View() == old(v.View()) && v.owner == old(v.owner) && old(v.faults) <= v.faults
    ensures empty ==> |LiveFrom(Slots(v.View(), d), 0)| <= 2 && v.faults == old(v.faults)
    ensures !empty ==> v.faults > old(v.faults) || |LiveFrom(Slots(v.View(), d), 0)| > 2
  {
    hide Owns, MetaMarked, Slot, LMap, Slots, NSlots, Placed, From, AllFree, Noted, Ino, LiveFrom;
    ghost var s := v.View();
    ghost var ds := Slots(s, d);
    SizeSlots(s, d);
    var c := new DirCursor(d, 0);
    StartPlaced(s, d, 0);
    ghost var from := From(s, d, c.bh, c.pos);
    NothingMarked(s, d);
    var count := 0;
    while true
      invariant v.View() == s && v.owner == old(v.owner) && v.faults == old(v.faults)
      invariant c.dir == d && Placed(s, d, c.bh, c.pos) && -DIRENT_SIZE <= c.pos
      invariant from == From(s, d, c.bh, c.pos) <= |ds|
      invariant count <= 2 && count + |LiveFrom(ds, from)| == |LiveFrom(ds, 0)|
      decreases |ds| - from
    {
      var a := Advance(v, c);
      if a.Err? {
        return false;
      }
      if a.value.None? {
        LiveSkips(ds, from, |ds|);
        NoneLeft(ds);
        break;
      }
      ghost var q := c.pos / DIRENT_SIZE;
      YieldedFrom(s, d, c.bh, c.pos);
      LiveSkips(ds, from, q);
      OneLess(ds, q);
      count := count + 1;
      if count > 2 {
        return false;
      }
      from := q + 1;
    }
    return true;
  }

  lemma NoneLeft(ds: seq<Dirent>)
    ensures LiveFrom(ds, |ds|) == []
  {
  }

  lemma OneLess(ds: seq<Dirent>, q: nat)
    requires q < |ds| && Live(ds[q])
    ensures |LiveFrom(ds, q)| == 1 + |LiveFrom(ds, q + 1)|
  {
  }

  // ------------------------------------------------------------- add entry

  function NewDirent(name: Name, inum: nat): Dirent
    requires |name| <= DIRSIZ
  {
    Dirent(inum % U16, Padded(name))
  }

  /** The directory inode after an add: larger if the entry went past the end, and dirty. */
  ghost predicate Grown(n: Inode, m: Inode, size: nat) {
    m == n.(addrs := m.addrs, size := size, dirty := true)
  }

  /**
   On success exactly the lowest free slot (or one slot past the end) has become
   the new entry; on failure every slot reads as before.  Either way ownership
   holds, no block leaks and no other inode is affected.
   */
  ghost predicate AddPost(s: Fs, own: Owners, s': Fs, own': Owners, d: nat, name: Name, inum: nat, r: Result<nat>) {
    && Owns(s', own') && StraySame(s, own, s', own') && Others(s, own, s', own', d)
    && d in s.cache && d in s'.cache
    && match r
       case Ok(p) =>
         && |name| <= DIRSIZ && FreeSlot(Slots(s, d), p) && p < MAXFILE * DPB
         && Slots(s', d) == PutSlot(Slots(s, d), p, NewDirent(name, inum))
         && Grown(s.cache[d], s'.cache[d], DIRENT_SIZE * |Slots(s', d)|)
         && |own'| == |own| + AddNeed(s, d)
       case Err(e) =>
         && Slots(s', d) == Slots(s, d)
         && SameAttrs(s.cache[d], s'.cache[d]) && (s' == s || s'.cache[d].dirty)
         && (e == ENAMETOOLONG <==> |name| > DIRSIZ)
         && (e == EFBIG ==> FreeSlot(Slots(s, d), MAXFILE * DPB))
         && (FreeSlot(Slots(s, d), MAXFILE * DPB) ==> e != ENOSPC)
         && (e == ENOSPC ==> forall b: nat :: DStart(s.sb) <= b < s.sb.size ==> Used(s', b))
         && (e == ENOSPC ==> |own'| < |own| + AddNeed(s, d))
         && (e == ENOSPC || e == EIO || e == ENAMETOOLONG || e == EFBIG)
  }

  /** A failed `xv6fs_get_block` leaves the listing alone. */
  lemma FailedMapKeepsSlots(s: Fs, own: Owners, t: Fs, own': Owners, d: nat, l: nat, create: bool, e: Errno)
    requires Owns(s, own) && Walkable(s, d) && MapPost(s, own, t, own', d, l, create, Err(e))
    ensures Slots(t, d) == Slots(s, d) && SameAttrs(Ino(s, d), Ino(t, d)) && d in t.cache
  {
    hide IsSet, Ptr, DirentAt, StraySame, Decode, OwnersPoint;
    SizeSlots(s, d);
    assert d in t.cache && SameAttrs(s.cache[d], t.cache[d]);
    forall q: nat | q < |Slots(s, d)| ensures Slot(t, d, q) == Slot(s, d, q) {
      var m := q / DPB;
      assert m < MAXFILE && LMap(t, d, m) == LMap(s, d, m);
      if LMap(s, d, m) != 0 {
        assert LMap(s, d, m) in own && own[LMap(s, d, m)] == (d, SlotOf(m));
      }
    }
  }

  lemma AddFails(s: Fs, own: Owners, t: Fs, own': Owners, d: nat, name: Name, inum: nat, p: nat, e: Errno)
    requires Owns(s, own) && Walkable(s, d) && |name| <= DIRSIZ && FreeSlot(Slots(s, d), p)
    requires MapPost(s, own, t, own', d, p / DPB, true, Err(e))
    ensures AddPost(s, own, t, own', d, name, inum, Err(e))
  {
    hide IsSet, Ptr, DirentAt, Slots, Owns, StraySame, Others, Residue, LMap, Decode, AddNeed, BlocksNeeded;
    FailedMapKeepsSlots(s, own, t, own', d, p / DPB, true, e);
    SizeSlots(s, d);
    AddNeedAt(s, d, p);
    assert FreeSlot(Slots(s, d), MAXFILE * DPB) ==> p == MAXFILE * DPB;
  }

  lemma AddUnchanged(s: Fs, own: Owners, d: nat, name: Name, inum: nat, e: Errno)
    requires Owns(s, own) && d in s.cache
    requires (|name| > DIRSIZ && e == ENAMETOOLONG) || (|name| <= DIRSIZ && e == EIO)
    ensures AddPost(s, own, s, own, d, name, inum, Err(e))
  {
    hide PointersOwned, OwnersPoint, FreeSlot, Slots, AddNeed;
  }

  /** The size of a directory once slot `p` lies inside it. */
  function Covering(size: nat, p: nat): nat {
    if DIRENT_SIZE * p + DIRENT_SIZE > size then DIRENT_SIZE * p + DIRENT_SIZE else size
  }

  /** The slots of the directory, once one slot is written and the size covers it. */
  lemma SlotsAfterWrite(s: Fs, u: Fs, d: nat, p: nat, e: Dirent)
    requires Walkable(s, d) && d in u.cache && SlotWritten(s, u, d, p, e) && p <= |Slots(s, d)| && p < MAXFILE * DPB
    requires u.cache[d].size == Covering(s.cache[d].size, p)
    ensures Slots(u, d) == PutSlot(Slots(s, d), p, e)
    ensures u.cache[d].size == DIRENT_SIZE * |Slots(u, d)|
  {
    hide Slot;
    SizeSlots(s, d);
    var ds, ds' := PutSlot(Slots(s, d), p, e), Slots(u, d);
    assert |ds'| == |ds|;
    forall q: nat | q < |ds| ensures ds'[q] == ds[q] {
      assert ds'[q] == Slot(u, d, q);
      if q < |Slots(s, d)| {
        assert Slots(s, d)[q] == Slot(s, d, q);
      }
    }
  }

  ghost function Resized(s: Fs, d: nat, size: nat): Fs
    requires d in s.cache
  {
    s.(cache := s.cache[d := Dirty(s.cache[d].(size := size))])
  }

  /** Size and dirty mark of a directory do not touch its blocks. */
  lemma ResizedLaw(s: Fs, own: Owners, d: nat, size: nat)
    requires Owns(s, own) && d in s.cache
    ensures var s' := Resized(s, d, size);
      && Owns(s', own) && StraySame(s, own, s', own) && Others(s, own, s', own, d)
      && forall p: nat :: Slot(s', d, p) == Slot(s, d, p)
  {
    hide IsSet, WordAt, Decode, DirentAt, OwnersPoint, PointersOwned;
    var s' := Resized(s, d, size);
    assert forall j: nat, m: nat :: Ptr(s', j, m) == Ptr(s, j, m);
    hide Ptr;
    SteadyOwns(s, own, s');
  }

  ghost function AddedState(t: Fs, d: nat, p: nat, e: Dirent, isNew: bool, size: nat): Fs
    requires d in t.cache && LMap(t, d, p / DPB) < |t.disk| && e.inum < U16
  {
    Resized(WriteBlock(t, LMap(t, d, p / DPB),
                       SetDirent(if isNew then ZeroBlock() else t.disk[LMap(t, d, p / DPB)], p % DPB, e)), d, size)
  }

  lemma AddSucceeds(s: Fs, own: Owners, t: Fs, own': Owners, d: nat, name: Name, inum: nat, p: nat, isNew: bool,
                    size: nat)
    requires Owns(s, own) && Walkable(s, d) && |name| <= DIRSIZ && FreeSlot(Slots(s, d), p) && p < MAXFILE * DPB
    requires d in t.cache && MapPost(s, own, t, own', d, p / DPB, true, Ok(Mapped(LMap(t, d, p / DPB), isNew)))
    requires size == Covering(s.cache[d].size, p)
    ensures LMap(t, d, p / DPB) < |t.disk|
    ensures AddPost(s, own, AddedState(t, d, p, NewDirent(name, inum), isNew, size), own', d, name, inum, Ok(p))
  {
    hide IsSet, Ptr, DirentAt, SetDirent, Slot, Slots, PointersOwned, OwnersPoint, StraySame, Others, Decode, LMap;
    hide AddNeed, BlocksNeeded;
    var e := NewDirent(name, inum);
    var l := p / DPB;
    EntryStored(s, own, t, own', d, p, e, isNew);
    AddNeedAt(s, d, p);
    var blk: Block := SetDirent(if isNew then ZeroBlock() else t.disk[LMap(t, d, l)], p % DPB, e);
    WriteBlockLaw(t, own', d, l, blk);
    var u := WriteBlock(t, LMap(t, d, l), blk);
    ResizedLaw(u, own', d, size);
    var w := Resized(u, d, size);
    assert SlotWritten(s, w, d, p, e);
    SlotsAfterWrite(s, w, d, p, e);
    OthersTransitive(s, own, t, own', u, own', d);
    OthersTransitive(s, own, u, own', w, own', d);
    StrayTransitive(s, own, t, own', u, own');
    StrayTransitive(s, own, u, own', w, own');
  }

  lemma AddMeta(s: Fs, own: Owners, s': Fs, own': Owners, d: nat, name: Name, inum: nat, r: Result<nat>)
    requires Owns(s, own) && MetaMarked(s) && AddPost(s, own, s', own', d, name, inum, r)
    ensures MetaMarked(s')
  {
    hide MetaMarked, Owns, Others, Slots;
    StrayKeepsMeta(s, own, s', own');
  }

  // ------------------------------------- when `sb_getblk` finds no buffer

  /**
   What `xv6fs_dir_add_entry` leaves behind without a buffer for a new block: the
   block mapped, and its bit cleared if the bitmap could be read.
   */
  ghost predicate LeftFreed(s: Fs, own: Owners, s': Fs, d: nat, readable: bool) {
    exists t: Fs, own': Owners, l: nat :: FreedAt(s, own, t, own', s', d, l, readable)
  }

  ghost predicate FreedAt(s: Fs, own: Owners, t: Fs, own': Owners, s': Fs, d: nat, l: nat, readable: bool) {
    var b := LMap(t, d, l);
    && d in s.cache && d in t.cache && l < MAXFILE && b != 0
      && MapPost(s, own, t, own', d, l, true, Ok(Mapped(b, true)))
    && s' == t.(disk := s'.disk) && BBlock(t.sb, b) < |t.disk|
    && (s'.disk == t.disk || s'.disk == SetBit(t.sb, t.disk, b, false))
    && (readable ==> s'.disk == SetBit(t.sb, t.disk, b, false))
  }

  lemma FreedLeft(s: Fs, own: Owners, t: Fs, own': Owners, d: nat, l: nat, disk: seq<Block>, readable: bool)
    requires Owns(t, own') && d in s.cache && d in t.cache && l < MAXFILE && LMap(t, d, l) != 0
    requires MapPost(s, own, t, own', d, l, true, Ok(Mapped(LMap(t, d, l), true)))
    requires var b := LMap(t, d, l);
      && (disk == t.disk || (BBlock(t.sb, b) < |t.disk| && disk == SetBit(t.sb, t.disk, b, false)))
      && (readable ==> BBlock(t.sb, b) < |t.disk| && disk == SetBit(t.sb, t.disk, b, false))
    ensures LeftFreed(s, own, t.(disk := disk), d, readable)
  {
    hide MapPost, SetBit, LMap, IsSet;
    WriteBlockLaw(t, own', d, l, ZeroBlock());
    BitmapOnDevice(t.sb, LMap(t, d, l));
    assert FreedAt(s, own, t, own', t.(disk := disk), d, l, readable);
  }

  /**
   The block is freed while still mapped: no ownership holds any more, if and only if
   the bitmap could be read.
   */
  lemma FreedWhileMapped(s: Fs, own: Owners, t: Fs, own': Owners, s': Fs, d: nat, l: nat, readable: bool)
    requires FreedAt(s, own, t, own', s', d, l, readable)
    ensures LMap(s', d, l) == LMap(t, d, l)
    ensures (forall own'' :: !Owns(s', own'')) <==> s'.disk == SetBit(t.sb, t.disk, LMap(t, d, l), false)
  {
    hide IsSet, SetBit, WordAt, Decode, PointersOwned, OwnersPoint, MapPost;
    assert Owns(t, own') by { CreateMaps(s, own, t, own', d, l, Mapped(LMap(t, d, l), true)); }
    var b := LMap(t, d, l);
    WriteBlockLaw(t, own', d, l, ZeroBlock());
    MappedIsUsed(t, own', d, l);
    SetBitLaw(t.sb, t.disk, b, false);
    IndirectOwned(t, own', d);
    assert LMap(s', d, l) == b;
    if s'.disk == SetBit(t.sb, t.disk, b, false) {
      assert Shape(s') && !Used(s', b);
      forall own'' ensures !Owns(s', own'') {
        if Owns(s', own'') {
          MappedIsUsed(s', own'', d, l);
          assert false;
        }
      }
    } else {
      assert s' == t;
    }
  }

  lemma MappedIsUsed(s: Fs, own: Owners, d: nat, l: nat)
    requires Owns(s, own) && d in s.cache && l < MAXFILE && LMap(s, d, l) != 0
    ensures Used(s, LMap(s, d, l))
  {
    hide IsSet, Ptr;
    assert InUse(s, d) && Ptr(s, d, SlotOf(l)) in own;
  }

  /** The offset a new entry goes to: the first free slot, else the end. */
  method WritePos(v: Volume, d: nat) returns (r: Result<nat>)
    requires Mapable(v, d) && Walkable(v.View(), d)
    modifies v`disk, v`cache, v`faults, v`nobuf, v`owner
    ensures v.View() == old(v.View()) && v.owner == old(v.owner) && v.nobuf == old(v.nobuf)
    ensures r.Err? ==> r.error == EIO && v.faults > old(v.faults)
    ensures r.Ok? ==>
      && v.faults == old(v.faults) && r.value % DIRENT_SIZE == 0
      && FreeSlot(Slots(v.View(), d), r.value / DIRENT_SIZE)
  {
    hide Owns, MetaMarked, Slots, NSlots, Marked, FreeSlot;
    ghost var s := v.View();
    var scan := ScanDirectory(v, d);
    if scan.Err? {
      return Err(scan.error);
    }
    SizeSlots(s, d);
    ghost var p := MarkedSlot(Slots(s, d), scan.value);
    Positions(p);
    return Ok(if scan.value.first < 0 then v.cache[d].size else scan.value.first);
  }

  /** The buffer of the block an entry goes to: zeroed if the block is new, read otherwise. */
  method BufferFor(v: Volume, b: nat, isNew: bool) returns (ok: bool)
    requires Device(v.sb, v.disk) && DStart(v.sb) <= b < |v.disk|
    modifies v`disk, v`faults, v`nobuf
    ensures ok ==> v.disk == if isNew then Zeroed(old(v.disk), b) else old(v.disk)
    ensures ok || !isNew ==> v.nobuf == old(v.nobuf)
    ensures ok ==> v.faults == old(v.faults)
    ensures !ok && !isNew ==> v.disk == old(v.disk) && v.faults > old(v.faults)
    ensures !ok && isNew ==> !v.steady && v.nobuf == old(v.nobuf) + 1 && old(v.faults) <= v.faults
    ensures !ok && isNew ==> BBlock(v.sb, b) < |old(v.disk)|
    ensures !ok && isNew && v.faults == old(v.faults) ==> v.disk == SetBit(v.sb, old(v.disk), b, false)
    ensures !ok && isNew ==> v.disk == old(v.disk) || v.disk == SetBit(v.sb, old(v.disk), b, false)
  {
    hide SetBit;
    BitmapOnDevice(v.sb, b);
    if isNew {
      ok := v.GetBlk(b);
      if !ok {
        BFree(v, b);
        return;
      }
      v.disk := Zeroed(v.disk, b);
    } else {
      var bh := v.BRead(b);
      ok := bh.Some?;
    }
  }

  /** `xv6fs_dir_add_entry`; the slot written is returned for the sake of the contract. */
  method AddEntry(v: Volume, d: nat, name: Name, inum: nat) returns (r: Result<nat>)
    requires Mapable(v, d) && Walkable(v.View(), d)
    modifies v`disk, v`cache, v`faults, v`nobuf, v`owner
    ensures v.nobuf == old(v.nobuf) ==> AddPost(old(v.View()), old(v.owner), v.View(), v.owner, d, name, inum, r)
    ensures r.Ok? ==> EntryBytes(v.View(), d, r.value, name, inum)
    ensures v.nobuf == old(v.nobuf) ==> MetaMarked(v.View())
    ensures v.nobuf == old(v.nobuf) ==> if r == Err(EIO) then v.faults > old(v.faults) else v.faults == old(v.faults)
    ensures v.steady ==> v.nobuf == old(v.nobuf)
    ensures v.nobuf != old(v.nobuf) ==>
      && v.nobuf == old(v.nobuf) + 1 && r == Err(EIO)
      && (|| LeftStale(old(v.View()), old(v.owner), v.View(), d)
          || LeftFreed(old(v.View()), old(v.owner), v.View(), d, v.faults == old(v.faults)))
  {
    hide Owns, MetaMarked, Slot, Slots, NSlots, LMap, Marked, AddPost, MapPost, SetDirent, DirentAt, Ptr, IsSet;
    hide FreeSlot, LeftStale, LeftFreed, SetBit, EntryBytes;
    ghost var s, own := v.View(), v.owner;
    if |name| > DIRSIZ {
      AddUnchanged(s, own, d, name, inum, ENAMETOOLONG);
      return Err(ENAMETOOLONG);
    }
    var at := WritePos(v, d);
    if at.Err? {
      r := Err(EIO);
      AddUnchanged(s, own, d, name, inum, EIO);
      return;
    }
    var writePos := at.value;
    ghost var p := writePos / DIRENT_SIZE;
    Positions(p);
    var blkIdx := writePos / BSIZE;
    var blkOff := writePos % BSIZE;
    var g := GetBlock(v, d, blkIdx, true);
    ghost var t, own' := v.View(), v.owner;
    if g.Err? {
      if v.nobuf == old(v.nobuf) {
        AddFails(s, own, t, own', d, name, inum, p, g.error);
      }
      return Err(g.error);
    }
    CreateMaps(s, own, t, own', d, blkIdx, g.value);
    var b := g.value.block;
    BlockOnDisk(t, own', d, blkIdx);
    var buffer := BufferFor(v, b, g.value.isNew);
    if !buffer {
      if g.value.isNew {
        FreedLeft(s, own, t, own', d, blkIdx, v.disk, v.faults == old(v.faults));
      } else {
        AddUnchanged(s, own, d, name, inum, EIO);
      }
      return Err(EIO);
    }
    var e := Dirent(inum % U16, Padded(name));
    v.disk := v.disk[b := SetDirent(v.disk[b], blkOff / DIRENT_SIZE, e)];
    var size := v.cache[d].size;
    if writePos + DIRENT_SIZE > size {
      size := writePos + DIRENT_SIZE;
    }
    v.cache := v.cache[d := Dirty(v.cache[d].(size := size))];
    r := Ok(writePos / DIRENT_SIZE);
    assert v.disk == t.disk[b := v.disk[b]];
    AddSucceeds(s, own, t, own', d, name, inum, p, g.value.isNew, size);
    AddMeta(s, own, v.View(), v.owner, d, name, inum, r);
    BytesWritten(t, own', d, p, name, inum, v.disk, size);
  }

  /** The 16 bytes of slot `p` are the number, the name, and zeros up to the end. */
  ghost predicate EntryBytes(s: Fs, d: nat, p: nat, name: Name, inum: nat) {
    && LMap(s, d, p / 32) != 0 && Le16(s.disk, EntryAt(s, d, p)) == inum % 65536
    && forall k: nat :: k < 14 ==> At(s.disk, EntryAt(s, d, p) + 2 + k) == if k < |name| then name[k] else 0
  }

  lemma BytesWritten(t: Fs, own: Owners, d: nat, p: nat, name: Name, inum: nat, disk: seq<Block>, size: nat)
    requires Owns(t, own) && d in t.cache && p / DPB < MAXFILE && LMap(t, d, p / DPB) != 0 && |name| <= DIRSIZ
    requires var b := LMap(t, d, p / DPB);
      && b < |t.disk| && |disk| == |t.disk| && disk == t.disk[b := disk[b]]
      && DirentAt(disk[b], p % DPB) == NewDirent(name, inum)
    ensures EntryBytes(Resized(t.(disk := disk), d, size), d, p, name, inum)
  {
    hide Owns, Ptr, DirentAt, Le16;
    var b := LMap(t, d, p / DPB);
    WriteBlockLaw(t, own, d, p / DPB, disk[b]);
    assert WriteBlock(t, b, disk[b]) == t.(disk := disk);
    ResizedMap(t.(disk := disk), d, size, p / DPB);
    EntryStands(Resized(t.(disk := disk), d, size), d, p, NewDirent(name, inum), name, inum);
  }

  lemma ResizedMap(s: Fs, d: nat, size: nat, l: nat)
    requires d in s.cache
    ensures LMap(Resized(s, d, size), d, l) == LMap(s, d, l)
  {
    hide WordAt;
  }

  lemma CreateMaps(s: Fs, own: Owners, t: Fs, own': Owners, d: nat, l: nat, m: Mapping)
    requires MapPost(s, own, t, own', d, l, true, Ok(m)) && d in s.cache
    ensures m.Mapped? && l < MAXFILE && m.block != 0 && LMap(t, d, l) == m.block && (!m.isNew ==> t == s && own' == own)
    ensures d in t.cache && Owns(t, own') && SameAttrs(s.cache[d], t.cache[d]) && |t.disk| == |s.disk|
  {
    hide Owns, StraySame, DataKept, LMap;
  }

  lemma BlockOnDisk(s: Fs, own: Owners, d: nat, l: nat)
    requires Owns(s, own) && d in s.cache && l < MAXFILE && LMap(s, d, l) != 0
    ensures Device(s.sb, s.disk) && DStart(s.sb) <= LMap(s, d, l) < |s.disk|
  {
    hide IsSet, Ptr;
    WriteBlockLaw(s, own, d, l, ZeroBlock());
  }

  // ----------------------------------------------------------- clear entry

  ghost function ClearedState(s: Fs, d: nat, q: nat): Fs
    requires LMap(s, d, q / DPB) < |s.disk|
  {
    WriteBlock(s, LMap(s, d, q / DPB), SetDirent(s.disk[LMap(s, d, q / DPB)], q % DPB, FreeDirent()))
  }

  /** Exactly slot `q` has become free; no inode, no pointer and no other inode's block moved. */
  ghost predicate ClearPost(s: Fs, own: Owners, s': Fs, d: nat, q: nat) {
    && Owns(s', own) && StraySame(s, own, s', own) && Others(s, own, s', own, d) && s'.cache == s.cache
    && q < |Slots(s, d)| && Slots(s', d) == Slots(s, d)[q := FreeDirent()]
  }

  lemma EntryCleared(s: Fs, own: Owners, d: nat, q: nat)
    requires Owns(s, own) && Walkable(s, d) && q < |Slots(s, d)| && LMap(s, d, q / DPB) != 0
    ensures EntryBytes(ClearedState(s, d, q), d, q, [], 0)
    ensures LMap(s, d, q / DPB) < |s.disk| && ClearPost(s, own, ClearedState(s, d, q), d, q)
  {
    hide IsSet, Ptr, DirentAt, SetDirent, PointersOwned, OwnersPoint, StraySame, Decode;
    SizeSlots(s, d);
    var l := q / DPB;
    WriteBlockLaw(s, own, d, l, ZeroBlock());
    var blk: Block := SetDirent(s.disk[LMap(s, d, l)], q % DPB, FreeDirent());
    WriteBlockLaw(s, own, d, l, blk);
    var s' := ClearedState(s, d, q);
    forall p: nat | p < |Slots(s, d)| ensures Slot(s', d, p) == if p == q then FreeDirent() else Slot(s, d, p) {
      var m := p / DPB;
      assert LMap(s', d, m) == LMap(s, d, m);
      if m == l {
        assert p == l * DPB + p % DPB && q == l * DPB + q % DPB;
      } else {
        MapsDistinct(s, own, d, l, m);
      }
    }
    ClearedBytes(s', d, q);
  }

  lemma ClearedBytes(s: Fs, d: nat, q: nat)
    requires 0 < LMap(s, d, q / DPB) < |s.disk| && DirentAt(s.disk[LMap(s, d, q / DPB)], q % DPB) == FreeDirent()
    ensures EntryBytes(s, d, q, [], 0)
  {
    hide LMap;
    EntryStands(s, d, q, FreeDirent(), [], 0);
  }

  lemma EntryStands(s: Fs, d: nat, p: nat, e: Dirent, name: Name, inum: nat)
    requires 0 < LMap(s, d, p / DPB) < |s.disk| && DirentAt(s.disk[LMap(s, d, p / DPB)], p % DPB) == e
    requires e.inum == inum % 65536 && forall k: nat :: k < 14 ==> e.field[k] == if k < |name| then name[k] else 0
    ensures EntryBytes(s, d, p, name, inum)
  {
    hide LMap, DirentAt, Le16, At;
    var b := LMap(s, d, p / 32);
    DirentPlace(s.disk, b, p % 32);
    forall k: nat | k < 14 ensures At(s.disk, EntryAt(s, d, p) + 2 + k) == if k < |name| then name[k] else 0 {
      assert e.field[k] == At(s.disk, 512 * b + 16 * (p % 32) + 2 + k);
    }
  }
}
