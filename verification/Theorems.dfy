/** What the invariants of a run say in plain terms. */
module Theorems {
  import opened Bytes
  import opened OnDisk
  import opened Layout
  import opened Codec
  import opened Results
  import opened State
  import Bitmap
  import opened Ownership
  import Counting
  import opened BlockMap
  import Truncate
  import opened Cursor
  import opened Listing
  import opened Directory
  import DirMap
  import opened Inodes
  import opened Tree
  import opened Namespace
  import opened Ops

  // --------------------------------------------------------------- ownership

  /** Stated without an owner map: pointers of inodes in use lie in the data region, are marked, and are distinct. */
  ghost predicate NoSharing(s: Fs) {
    && Shape(s)
    && (forall i: nat, k: nat :: InUse(s, i) && k < SLOTS && Ptr(s, i, k) != 0 ==>
          DStart(s.sb) <= Ptr(s, i, k) < s.sb.size && Used(s, Ptr(s, i, k)))
    && (forall i: nat, k: nat, j: nat, m: nat ::
          InUse(s, i) && InUse(s, j) && k < SLOTS && m < SLOTS && Ptr(s, i, k) != 0 && Ptr(s, i, k) == Ptr(s, j, m) ==>
          i == j && k == m)
  }

  /** The set of blocks some inode in use points at. */
  ghost function Owned(s: Fs): set<nat> {
    set i: nat, k: nat | i < |s.table| && k < SLOTS && InUse(s, i) && Ptr(s, i, k) != 0 :: Ptr(s, i, k)
  }

  lemma OwnedAt(s: Fs)
    ensures forall b: nat :: b in Owned(s) <==>
      exists i: nat, k: nat :: InUse(s, i) && k < SLOTS && Ptr(s, i, k) != 0 && Ptr(s, i, k) == b
  {
    hide InUse, Ptr;
  }

  ghost function SomeOwner(s: Fs, b: nat): (nat, nat)
    requires b in Owned(s)
    ensures InUse(s, SomeOwner(s, b).0) && SomeOwner(s, b).1 < SLOTS
    ensures Ptr(s, SomeOwner(s, b).0, SomeOwner(s, b).1) == b != 0
  {
    OwnedAt(s);
    var i: nat, k: nat :| InUse(s, i) && k < SLOTS && Ptr(s, i, k) != 0 && Ptr(s, i, k) == b;
    (i, k)
  }

  /** Having an owner map is the same as having no shared, unmarked or misplaced pointer. */
  lemma OwnershipMeaning(s: Fs)
    ensures NoSharing(s) <==> exists own: Owners :: Owns(s, own)
  {
    hide InUse, Ptr, Used, Shape, Owned;
    if NoSharing(s) {
      var own: Owners := map b | b in Owned(s) :: SomeOwner(s, b);
      OwnedAt(s);
      assert PointersOwned(s, own);
      assert Owns(s, own);
    }
  }

  lemma OwnersAreOwned(s: Fs, own: Owners)
    requires Owns(s, own)
    ensures own.Keys == Owned(s)
  {
    hide Used, Ptr, InUse, Owned, Shape;
    OwnedAt(s);
    forall b | b in Owned(s) ensures b in own {
      var x := SomeOwner(s, b);
      assert Ptr(s, x.0, x.1) in own;
    }
    forall b | b in own ensures b in Owned(s) {
      OwnerNotZero(s, own, b);
    }
  }

  lemma OwnerNotZero(s: Fs, own: Owners, b: nat)
    requires Owns(s, own) && b in own
    ensures b != 0
  {
  }

  // ------------------------------------------------------------ conservation

  /** Free, owned and leaked data blocks add up to the data region. */
  lemma BlocksAddUp(s: Fs, own: Owners)
    requires Owns(s, own)
    ensures Counting.FreeData(s) + |Owned(s)| + |Counting.StrayIn(s, own, DStart(s.sb), s.sb.size)| ==
      s.sb.size - DStart(s.sb)
  {
    hide Bitmap.IsSet, Ptr, InUse, Bitmap.Ones, Bitmap.Zeros, Owned;
    Counting.OwnersAddUp(s, own);
    OwnersAreOwned(s, own);
  }

  /** Conservation in every state of a run without failed reads: free + owned = data region. */
  lemma Conservation(s: Fs, own: Owners)
    requires Sound(s, own, true)
    ensures Counting.FreeData(s) + |Owned(s)| == s.sb.size - DStart(s.sb)
  {
    hide Lists, CleanCached, Widths, TableOnDisk, MetaMarked, Stray, Owned, Bitmap.Zeros;
    BlocksAddUp(s, own);
    assert Counting.StrayIn(s, own, DStart(s.sb), s.sb.size) == {};
  }

  lemma KeysShrink(own: Owners, own': Owners)
    requires own'.Keys <= own.Keys
    ensures |own| == |own'| + |own.Keys - own'.Keys|
  {
    assert own.Keys == own'.Keys + (own.Keys - own'.Keys);
    assert |own| == |own.Keys| && |own'| == |own'.Keys|;
  }

  /** Truncation: the free count rises by exactly the number of pointers dropped. */
  lemma TruncationFrees(s: Fs, own: Owners, s': Fs, own': Owners, i: nat, n: nat)
    requires Owns(s, own) && Truncate.TruncPost(s, own, s', own', i, n, true)
    ensures Counting.FreeData(s') == Counting.FreeData(s) + |own.Keys - own'.Keys|
  {
    assert StraySame(s, own, s', own') && Owns(s', own') && own'.Keys <= own.Keys;
    hide Owns, StraySame, Truncate.TruncPost, Counting.FreeData;
    Counting.FreeCountMoves(s, own, s', own');
    KeysShrink(own, own');
  }

  // ------------------------------------------------------------ round trips

  /** A mapped block stays mapped to the same place by any call for any inode and block, whatever its outcome. */
  lemma MapStays(s: Fs, own: Owners, t: Fs, own': Owners, i: nat, l: nat, j: nat, m: nat, create: bool,
                 r: Result<Mapping>)
    requires Owns(s, own) && i in s.cache && l < MAXFILE && LMap(s, i, l) != 0
    requires MapPost(s, own, t, own', j, m, create, r)
    ensures LMap(t, i, l) == LMap(s, i, l) && t.cache.Keys == s.cache.Keys && Owns(t, own')
  {
    hide Owns, StraySame, DataKept, Ptr, Used, Residue, Others;
    OwnsShape(s, own);
    OwnsShape(t, own');
    KeysKept(s, own, t, own', j);
    CachedInUse(s, i);
    if i != j {
      OthersMaps(s, own, t, own', j, i, SlotOf(l));
    }
  }

  /**
   Asking for a mapped block returns it and changes nothing; only a failed read of
   the indirect block prevents that.
   */
  lemma AskedAgain(s: Fs, own: Owners, t: Fs, own': Owners, i: nat, l: nat, create: bool, r: Result<Mapping>)
    requires l < MAXFILE && LMap(s, i, l) != 0 && MapPost(s, own, t, own', i, l, create, r)
    ensures t == s && own' == own
    ensures r == Ok(Mapped(LMap(s, i, l), false)) || (r == Err(EIO) && NDIRECT <= l)
  {
    hide Owns, StraySame, Kept, DataKept, Ptr, Used, Residue;
  }

  /** A call of `xv6fs_get_block`: inode, logical block, and whether to create. */
  datatype Ask = Ask(i: nat, l: nat, create: bool)

  datatype Stage = Stage(fs: Fs, own: Owners, faults: nat)

  ghost function Here(v: Volume): Stage
    reads v
  {
    Stage(v.View(), v.owner, v.faults)
  }

  ghost predicate Asked(m: Stage, m': Stage, ask: Ask, reply: Result<Mapping>) {
    && MapPost(m.fs, m.own, m'.fs, m'.own, ask.i, ask.l, ask.create, reply)
    && if reply == Err(EIO) then m'.faults > m.faults else m'.faults == m.faults
  }

  /** The stages of a run of calls. */
  ghost predicate MapRun(trace: seq<Stage>, asks: seq<Ask>, replies: seq<Result<Mapping>>) {
    && |trace| == |asks| + 1 && |replies| == |asks| && Owns(trace[0].fs, trace[0].own)
    && forall k :: 0 <= k < |asks| ==> Asked(trace[k], trace[k + 1], asks[k], replies[k])
  }

  /** Any calls for inodes in core make such a run, whatever reads fail. */
  method Map(v: Volume, asks: seq<Ask>) returns (replies: seq<Result<Mapping>>, ghost trace: seq<Stage>)
    requires v.steady && Owns(v.View(), v.owner) && MetaMarked(v.View())
    requires forall k :: 0 <= k < |asks| ==> asks[k].i in v.cache
    modifies v`disk, v`cache, v`faults, v`nobuf, v`owner
    ensures MapRun(trace, asks, replies) && trace[0] == old(Here(v)) && trace[|asks|] == Here(v)
    ensures Owns(v.View(), v.owner) && MetaMarked(v.View()) && v.cache.Keys == old(v.cache).Keys
    ensures old(v.faults) <= v.faults
  {
    hide Owns, MetaMarked, MapPost;
    replies, trace := [], [Here(v)];
    for k := 0 to |asks|
      invariant MapRun(trace, asks[..k], replies) && trace[0] == old(Here(v)) && trace[k] == Here(v)
      invariant Owns(v.View(), v.owner) && MetaMarked(v.View()) && v.cache.Keys == old(v.cache).Keys
      invariant old(v.faults) <= v.faults
    {
      ghost var s, own := v.View(), v.owner;
      var reply := GetBlock(v, asks[k].i, asks[k].l, asks[k].create);
      MapKeeps(s, own, v.View(), v.owner, asks[k].i, asks[k].l, asks[k].create, reply);
      replies, trace := replies + [reply], trace + [Here(v)];
    }
    assert asks[..|asks|] == asks;
  }

  /**
   A block that a create mapped is what every later call for it returns: if call `a` of
   a run mapped a block and call `z` asks for it again, whatever calls lie between, then
   `z` yields the same block, as not new, or could not read the indirect block; and it
   changes nothing.
   */
  lemma MapIsStable(trace: seq<Stage>, asks: seq<Ask>, replies: seq<Result<Mapping>>, a: nat, z: nat)
    requires MapRun(trace, asks, replies) && a < z < |asks| && asks[a].create && replies[a].Ok?
    requires asks[a].i in trace[a].fs.cache && asks[z].i == asks[a].i && asks[z].l == asks[a].l
    ensures replies[a].value.Mapped? && replies[a].value.block != 0 && asks[a].l < MAXFILE
    ensures
      || replies[z] == Ok(Mapped(replies[a].value.block, false))
      || (replies[z] == Err(EIO) && NDIRECT <= asks[z].l && trace[z + 1].faults > trace[z].faults)
    ensures trace[z + 1].fs == trace[z].fs && trace[z + 1].own == trace[z].own
  {
    hide MapPost, Owns, LMap, MapRun;
    var i, l := asks[a].i, asks[a].l;
    StageAt(trace, asks, replies, a);
    CreateMaps(trace[a].fs, trace[a].own, trace[a + 1].fs, trace[a + 1].own, i, l, replies[a].value);
    StaysMapped(trace, asks, replies, i, l, a + 1, z);
    StageAt(trace, asks, replies, z);
    AskedAgain(trace[z].fs, trace[z].own, trace[z + 1].fs, trace[z + 1].own, i, l, asks[z].create, replies[z]);
  }

  lemma StageAt(trace: seq<Stage>, asks: seq<Ask>, replies: seq<Result<Mapping>>, k: nat)
    requires MapRun(trace, asks, replies) && k < |asks|
    ensures |trace| == |asks| + 1 && |replies| == |asks| && Asked(trace[k], trace[k + 1], asks[k], replies[k])
  {
    hide Owns, Asked;
  }

  lemma {:induction false} StaysMapped(trace: seq<Stage>, asks: seq<Ask>, replies: seq<Result<Mapping>>, i: nat, l: nat,
                                       a: nat, z: nat)
    requires MapRun(trace, asks, replies) && a <= z <= |asks| && l < MAXFILE
    requires Owns(trace[a].fs, trace[a].own) && i in trace[a].fs.cache && LMap(trace[a].fs, i, l) != 0
    ensures Owns(trace[z].fs, trace[z].own) && i in trace[z].fs.cache
    ensures LMap(trace[z].fs, i, l) == LMap(trace[a].fs, i, l)
    decreases z - a
  {
    hide MapPost, Owns, LMap, MapRun;
    if a < z {
      StageAt(trace, asks, replies, a);
      MapStays(trace[a].fs, trace[a].own, trace[a + 1].fs, trace[a + 1].own, i, l, asks[a].i, asks[a].l,
               asks[a].create, replies[a]);
      StaysMapped(trace, asks, replies, i, l, a + 1, z);
    }
  }

  lemma MapKeeps(s: Fs, own: Owners, t: Fs, own': Owners, i: nat, l: nat, create: bool, r: Result<Mapping>)
    requires MapPost(s, own, t, own', i, l, create, r)
    ensures t.cache.Keys == s.cache.Keys && Owns(t, own')
  {
    hide Owns, StraySame, DataKept, MapResult, Spent;
  }

  ghost predicate NoBlocks(s: Fs, i: nat) { forall k: nat :: k < SLOTS ==> Ptr(s, i, k) == 0 }

  lemma EmptyOwnsNothing(s: Fs, own: Owners, i: nat)
    requires Owns(s, own) && NoBlocks(s, i)
    ensures forall b :: b in own ==> own[b].0 != i
  {
    hide Ptr, Used, InUse, Shape;
    forall b | b in own ensures own[b].0 != i {
      OwnerNotZero(s, own, b);
    }
  }

  /** Same stray blocks and same owned blocks: same bitmap. */
  lemma SameBitmap(s: Fs, own: Owners, s': Fs, own': Owners)
    requires Owns(s, own) && Owns(s', own') && StraySame(s, own, s', own') && own'.Keys == own.Keys
    ensures forall b: nat :: Used(s', b) <==> Used(s, b)
  {
    hide Used, Ptr, InUse, Shape;
    forall b: nat ensures Used(s', b) <==> Used(s, b) {
      assert Stray(s', own', b) <==> Stray(s, own, b);
    }
  }

  function Creates(i: nat, blocks: seq<nat>): (asks: seq<Ask>)
    ensures |asks| == |blocks| && forall k :: 0 <= k < |asks| ==> asks[k] == Ask(i, blocks[k], true)
  {
    seq(|blocks|, k requires 0 <= k < |blocks| => Ask(i, blocks[k], true))
  }

  /**
   Grow and shrink: from an inode without blocks, any creates in any order,
   whatever becomes of them, followed by truncation to nothing, leave the bitmap as
   it was, bit for bit, unless a read fails during the truncation.
   */
  method GrowShrink(v: Volume, i: nat, blocks: seq<nat>)
    returns (replies: seq<Result<Mapping>>, ghost trace: seq<Stage>)
    requires v.steady && Mapable(v, i) && NoBlocks(v.View(), i)
    modifies v`disk, v`cache, v`faults, v`nobuf, v`owner
    ensures MapRun(trace, Creates(i, blocks), replies) && trace[0] == old(Here(v))
    ensures Owns(v.View(), v.owner) && old(v.faults) <= trace[|blocks|].faults <= v.faults
    ensures v.faults == trace[|blocks|].faults ==>
      NoBlocks(v.View(), i) && forall b: nat :: Used(v.View(), b) <==> Used(old(v.View()), b)
  {
    hide Owns, MetaMarked, MapRun, Truncate.TruncPost, StraySame, OwnersElsewhere, Used, NoBlocks;
    ghost var s, own := v.View(), v.owner;
    SelfElsewhere(own, i);
    StraySelf(s, own);
    replies, trace := Map(v, Creates(i, blocks));
    GrownAlone(trace, i, blocks, replies, |blocks|);
    ghost var t, ownT, grown := v.View(), v.owner, v.faults;
    Truncate.TruncateBlocks(v, i, 0);
    ShrinkStep(s, own, t, ownT, v.View(), v.owner, i, v.faults == grown);
  }

  lemma {:induction false} GrownAlone(trace: seq<Stage>, i: nat, blocks: seq<nat>, replies: seq<Result<Mapping>>,
                                      n: nat)
    requires MapRun(trace, Creates(i, blocks), replies) && n <= |blocks| && i in trace[0].fs.cache
    ensures Owns(trace[n].fs, trace[n].own) && Shape(trace[n].fs) && i in trace[n].fs.cache
    ensures StraySame(trace[0].fs, trace[0].own, trace[n].fs, trace[n].own)
    ensures OwnersElsewhere(trace[0].own, trace[n].own, i)
  {
    hide Owns, MapPost, StraySame, OwnersElsewhere;
    if n == 0 {
      StraySelf(trace[0].fs, trace[0].own);
      SelfElsewhere(trace[0].own, i);
    } else {
      GrownAlone(trace, i, blocks, replies, n - 1);
      StageAt(trace, Creates(i, blocks), replies, n - 1);
      GrowStep(trace[0].fs, trace[0].own, trace[n - 1].fs, trace[n - 1].own, trace[n].fs, trace[n].own, i,
               blocks[n - 1], replies[n - 1]);
    }
  }

  lemma StraySelf(s: Fs, own: Owners)
    requires Owns(s, own)
    ensures StraySame(s, own, s, own) && Shape(s)
  {
  }

  lemma GrowStep(s: Fs, own: Owners, t: Fs, ownT: Owners, u: Fs, ownU: Owners, i: nat, l: nat, r: Result<Mapping>)
    requires Owns(s, own) && Shape(t) && StraySame(s, own, t, ownT) && OwnersElsewhere(own, ownT, i)
    requires MapPost(t, ownT, u, ownU, i, l, true, r) && i in t.cache
    ensures Owns(u, ownU) && Shape(u) && i in u.cache && StraySame(s, own, u, ownU) && OwnersElsewhere(own, ownU, i)
  {
    hide Owns, StraySame, DataKept, LMap, Residue, Used;
    OwnsShape(s, own);
    OwnsShape(u, ownU);
    StrayTransitive(s, own, t, ownT, u, ownU);
  }

  lemma ShrinkStep(s: Fs, own: Owners, t: Fs, ownT: Owners, u: Fs, ownU: Owners, i: nat, clean: bool)
    requires Owns(s, own) && NoBlocks(s, i) && Shape(t) && StraySame(s, own, t, ownT) && OwnersElsewhere(own, ownT, i)
    requires Truncate.TruncPost(t, ownT, u, ownU, i, 0, clean)
    ensures Owns(u, ownU)
    ensures clean ==> NoBlocks(u, i) && forall b: nat :: Used(u, b) <==> Used(s, b)
  {
    hide Owns, StraySame, DataKept, LMap, Truncate.EntryLeft, Used, Ptr, StrayGrows;
    if clean {
      OwnsShape(s, own);
      OwnsShape(u, ownU);
      TruncatedToNothing(t, ownT, u, ownU, i);
      EmptyOwnsNothing(s, own, i);
      EmptyOwnsNothing(u, ownU, i);
      StrayTransitive(s, own, t, ownT, u, ownU);
      SameBitmap(s, own, u, ownU);
    }
  }

  lemma StillWalkable(s: Fs, own: Owners, s': Fs, own': Owners, d: nat, name: Name, inum: nat, r: Result<nat>)
    requires Walkable(s, d) && AddPost(s, own, s', own', d, name, inum, r)
    ensures Walkable(s', d) && Owns(s', own')
    ensures r.Err? ==> Slots(s', d) == Slots(s, d)
    ensures r.Ok? ==>
      && |name| <= DIRSIZ && FreeSlot(Slots(s, d), r.value)
      && Slots(s', d) == PutSlot(Slots(s, d), r.value, NewDirent(name, inum))
  {
    hide Owns, StraySame, Others, Slots, Decode;
    SizeSlots(s, d);
  }

  /**
   End to end on the bytes: a name added where it was absent is found with its
   number; after a failed add it is not found.
   */
  method AddThenFind(v: Volume, d: nat, name: Name, inum: nat)
    returns (added: Result<nat>, found: Result<Option<Dirent>>)
    requires v.steady && Mapable(v, d) && Walkable(v.View(), d) && ValidName(name)
    requires 0 < inum < U16 && Absent(Slots(v.View(), d), name)
    modifies v`disk, v`cache, v`faults, v`nobuf, v`owner
    ensures added.Ok? ==> EntryBytes(v.View(), d, added.value, name, inum)
    ensures added.Err? ==>
      AddCause(old(v.View()), d, name, AddNeed(old(v.View()), d), added.error, v.faults > old(v.faults))
    ensures found.Ok? && added.Ok? ==> found.value.Some? && found.value.value.inum == inum
    ensures found.Ok? && added.Err? ==> found.value.None?
    ensures found.Err? ==> v.faults > old(v.faults)
  {
    hide Owns, MetaMarked, AddPost, Slots, Walkable, FreeSlot, LMap, DirMap.LookupFrom, CName, PutSlot;
    hide EntryBytes, AddCause, AddNeed, HasRoom;
    ghost var s, own := v.View(), v.owner;
    added := AddEntry(v, d, name, inum);
    ghost var f1 := v.faults;
    AddCauses(s, own, v.View(), v.owner, d, name, inum, added, f1 > old(v.faults));
    StillWalkable(s, own, v.View(), v.owner, d, name, inum, added);
    AddedStays(s, own, v.View(), v.owner, d, name, inum, added);
    if added.Ok? {
      DirMap.AddThenLookup(Slots(s, d), added.value, name, inum);
    }
    DirMap.LookupMeaning(Slots(v.View(), d), name);
    var c;
    found, c := FindEntry(v, d, name);
    if added.Err? {
      CauseStays(s, d, name, AddNeed(s, d), added.error, f1 > old(v.faults), v.faults > old(v.faults));
    }
  }

  lemma AddedStays(s: Fs, own: Owners, s': Fs, own': Owners, d: nat, name: Name, inum: nat, r: Result<nat>)
    requires AddPost(s, own, s', own', d, name, inum, r)
    ensures d in s'.cache
  {
    hide Owns, StraySame, Others, Slots;
  }

  // Names on a volume, and names in the tree

  /** Looking a name up in a directory gives the number its one live slot holds. */
  lemma EntryIsFound(s: Fs, base: nat, d: nat, p: nat)
    requires WellLinked(Abs(s), base) && (d, p) in Abs(s).ents
    ensures DirMap.Lookup(Slots(s, d), Abs(s).ents[(d, p)].name) == Some(Abs(s).ents[(d, p)].inum)
  {
    AbsAt(s);
    hide Parents, Dots, FileCounts, DirCounts, Slots, CName, Abs, Closed, DirMap.Lookup;
    var ds, e := Slots(s, d), Abs(s).ents[(d, p)];
    assert e == EntryOf(ds[p]) && Live(ds[p]);
    forall k: nat | k < p ensures !Names(ds[k], e.name) {
      assert Live(ds[k]) ==> (d, k) in Abs(s).ents && Abs(s).ents[(d, k)] == EntryOf(ds[k]);
    }
    assert FoundAt(ds, e.name, p);
    DirMap.LookupMeaning(ds, e.name);
  }

  /**
   In every directory "." leads to the directory itself, and ".." to the directory that
   holds its entry, or from the root to the root.
   */
  lemma DotsLead(s: Fs, base: nat, d: nat)
    requires WellLinked(Abs(s), base) && LinkedDir(s, d)
    ensures DirMap.Lookup(Slots(s, d), [46]) == Some(d)
    ensures d == 1 ==> DirMap.Lookup(Slots(s, d), [46, 46]) == Some(1)
    ensures forall e: nat, q: nat ::
      LinkedDir(s, e) && q < |Slots(s, e)| && q < MAXSLOTS && Live(Slots(s, e)[q]) && Slots(s, e)[q].inum == d
      && CName(Slots(s, e)[q].field) != [46] && CName(Slots(s, e)[q].field) != [46, 46] ==>
        DirMap.Lookup(Slots(s, d), [46, 46]) == Some(e)
  {
    AbsAt(s);
    hide Slots, CName, Abs, DirMap.Lookup, FileCounts, DirCounts;
    var x, y := DotPlaces(Abs(s), base, d);
    assert x == (d, x.1) && y == (d, y.1);
    EntryIsFound(s, base, d, x.1);
    EntryIsFound(s, base, d, y.1);
    forall e: nat, q: nat
      | LinkedDir(s, e) && q < |Slots(s, e)| && q < MAXSLOTS && Live(Slots(s, e)[q]) && Slots(s, e)[q].inum == d
        && CName(Slots(s, e)[q].field) != [46] && CName(Slots(s, e)[q].field) != [46, 46]
      ensures DirMap.Lookup(Slots(s, d), [46, 46]) == Some(e)
    {
      assert (e, q) in Abs(s).ents && Abs(s).ents[(e, q)] == EntryOf(Slots(s, e)[q]);
      assert NamesDir(Abs(s), (e, q));
    }
  }

  /** In a well-linked tree no directory lists a name twice. */
  lemma ListedOnce(s: Fs, own: Owners, base: nat, d: nat, clean: bool)
    requires WellLinked(Abs(s), base) && Sound(s, own, clean) && LinkedDir(s, d) && d in s.cache
    ensures DirMap.NamesUnique(Slots(s, d))
  {
    hide Sound, Abs, WellLinked, LinkedDir, Slots, CName;
    DirWalkable(s, own, d, clean);
    SizeSlots(s, d);
    forall p: nat, q: nat | p < q < |Slots(s, d)| && Live(Slots(s, d)[p]) && Live(Slots(s, d)[q])
      ensures CName(Slots(s, d)[p].field) != CName(Slots(s, d)[q].field)
    {
      EntriesAreLive(s, base, d, p);
    }
  }

  lemma StillSearchable(s: Fs, own: Owners, d: nat, clean: bool)
    requires Sound(s, own, clean) && d in s.cache && s.cache[d].kind == T_DIR
    ensures Walkable(s, d) && Owns(s, own) && MetaMarked(s)
  {
    hide PointersOwned, OwnersPoint, MetaMarked, Lists, CleanCached, NoLeak, TableOnDisk;
    CachedInUse(s, d);
    InWidthOf(s, d);
  }

  lemma ClearedLookups(ds: seq<Dirent>, ds': seq<Dirent>, name: Name)
    requires DirMap.NamesUnique(ds) && exists q: nat :: NameCleared(ds, ds', name, q)
    ensures Absent(ds', name)
    ensures forall other: Name :: other != name ==> DirMap.Lookup(ds', other) == DirMap.Lookup(ds, other)
  {
    hide DirMap.Lookup, Absent;
    var q: nat :| NameCleared(ds, ds', name, q);
    DirMap.ClearThenLookup(ds, q, name);
    DirMap.LookupMeaning(ds', name);
  }

  /**
   End to end on the bytes: after a successful unlink the name is not found, and
   every other name of the directory leads where it led; after a failed one the
   directory is as it was.
   */
  method UnlinkThenFind(v: Volume, d: nat, name: Name, i: nat, ghost base: nat)
    returns (removed: Result<()>, found: Result<Option<Dirent>>)
    requires CanRemove(v, d, name, i) && WellLinked(Abs(v.View()), base)
    modifies v`disk, v`cache, v`faults, v`nobuf, v`owner
    ensures removed.Ok? ==>
      Absent(Slots(v.View(), d), name) && (found == Ok(None) || (found.Err? && v.faults > old(v.faults)))
    ensures removed.Ok? ==> forall other: Name :: other != name ==>
      DirMap.Lookup(Slots(v.View(), d), other) == DirMap.Lookup(Slots(old(v.View()), d), other)
    ensures removed.Ok? ==> Unlinked(Abs(old(v.View())), Abs(v.View()), d, name, i)
    ensures removed.Err? ==> v.View() == old(v.View())
    ensures removed.Err? ==>
      || (removed.error == ENOENT && Absent(Slots(v.View(), d), name))
      || (removed.error == EIO && v.faults > old(v.faults))
  {
    hide Sound, Abs, WellLinked, LinkedDir, Slots, Absent, FoundAt, Unlinked, NameCleared, Untouched, Owns;
    hide MetaMarked;
    hide Walkable, LMap, DropLink;
    ghost var s := v.View();
    ListedOnce(s, v.owner, base, d, v.faults == 0);
    DirKind(s, d);
    removed := Unlink(v, d, name, i);
    if removed.Ok? {
      ClearedLookups(Slots(s, d), Slots(v.View(), d), name);
    }
    StillSearchable(v.View(), v.owner, d, v.faults == 0);
    var c;
    ghost var t := v.View();
    found, c := FindEntry(v, d, name);
    assert Absent(Slots(t, d), name) ==> found.Err? || found.value.None? by {
      NothingFound(Slots(t, d), name);
    }
  }

  lemma NothingFound(ds: seq<Dirent>, name: Name)
    ensures Absent(ds, name) ==> forall q: nat :: !FoundAt(ds, name, q)
  {
  }

  /** Write, evict, load again: the inode comes back with every field it had, even if the write to disk failed. */
  method Recycle(v: Volume, i: nat) returns (r: Result<Inode>)
    requires Sound(v.View(), v.owner, v.faults == 0) && i in v.cache
    requires v.cache[i].nlink > 0 && v.cache[i].kind in {T_DIR, T_FILE, T_DEV}
    modifies v`disk, v`table, v`free, v`freeCount, v`cache, v`faults, v`nobuf, v`oom, v`owner
    ensures r == Ok(old(v.cache[i]).(dirty := false)) || (r == Err(ENOMEM) && v.oom > old(v.oom))
    ensures Ino(v.View(), i) == old(v.cache[i]).(dirty := false) && (r.Ok? ==> i in v.cache)
    ensures i < |v.table| && Decode(v.table[i]) == old(v.cache[i]).(dirty := false)
    ensures v.faults == old(v.faults) ==> HeldAt(v.disk, 512 * v.sb.inodestart + 64 * i, old(v.cache[i]))
    ensures Sound(v.View(), v.owner, v.faults == 0)
  {
    hide HeldAt, SameBut;
    hide Sound, Decode, Elsewhere, Encode, SetRaw, DiskSlot, RawAt, Owns, BlankSlots, StraySame, GaveBack, Freed;
    SoundOwns(v.View(), v.owner, v.faults == 0);
    var w := WriteInode(v, i);
    EvictInode(v, i);
    SoundBlank(v.View(), v.owner, v.faults == 0);
    r := Iget(v, i);
  }

  // ------------------------------------------------------- non-interference

  /** A write anywhere in the data region leaves every bitmap bit and every dinode on disk alone. */
  lemma DataWriteKeepsMetadata(s: Fs, x: nat, blk: Block)
    requires Shape(s) && DStart(s.sb) <= x < |s.disk|
    ensures forall b: nat :: Bitmap.IsSet(s.sb, s.disk[x := blk], b) <==> Bitmap.IsSet(s.sb, s.disk, b)
    ensures forall i: nat :: i < s.sb.ninodes ==> DiskSlot(s.sb, s.disk[x := blk], i) == DiskSlot(s.sb, s.disk, i)
  {
    hide Bitmap.IsSet, RawAt;
    Bitmap.WriteKeepsBits(s.sb, s.disk, x, blk);
    forall i: nat | i < s.sb.ninodes ensures DiskSlot(s.sb, s.disk[x := blk], i) == DiskSlot(s.sb, s.disk, i) {
      RegionsDisjoint(s.sb, i, i, 0, 0);
    }
  }

  /** Mapping a block for one inode leaves the map and the listing of every other inode as they were. */
  lemma MappingKeepsOthers(s: Fs, own: Owners, s': Fs, own': Owners, i: nat, l: nat, create: bool,
                           r: Result<Mapping>, j: nat)
    requires Owns(s, own) && MapPost(s, own, s', own', i, l, create, r) && j != i && InUse(s, j)
    ensures Ino(s', j) == Ino(s, j) && Slots(s', j) == Slots(s, j)
    ensures forall m: nat :: m < MAXFILE ==> LMap(s', j, m) == LMap(s, j, m)
  {
    hide Owns, StraySame, DataKept, MapResult, Others, Elsewhere, Ptr, Slots, Ino, InUse;
    OwnsShape(s, own);
    OthersElsewhere(s, own, s', own', i);
    ElsewhereInUse(s, own, s', own', i, j);
    ElsewhereSlots(s, own, s', own', i, j);
    forall m: nat | m < MAXFILE ensures LMap(s', j, m) == LMap(s, j, m) {
      ElsewhereMaps(s, own, s', own', i, j, SlotOf(m));
    }
  }

  /** So does adding a directory entry, whether it succeeds or fails. */
  lemma AddingKeepsOthers(s: Fs, own: Owners, s': Fs, own': Owners, d: nat, name: Name, inum: nat, r: Result<nat>,
                          j: nat)
    requires Owns(s, own) && AddPost(s, own, s', own', d, name, inum, r) && j != d && InUse(s, j)
    ensures Ino(s', j) == Ino(s, j) && Slots(s', j) == Slots(s, j)
    ensures forall m: nat :: m < MAXFILE ==> LMap(s', j, m) == LMap(s, j, m)
  {
    hide Owns, StraySame, Others, Elsewhere, Ptr, Slots, Ino, InUse, FreeSlot;
    OwnsShape(s, own);
    OthersElsewhere(s, own, s', own', d);
    ElsewhereInUse(s, own, s', own', d, j);
    ElsewhereSlots(s, own, s', own', d, j);
    forall m: nat | m < MAXFILE ensures LMap(s', j, m) == LMap(s, j, m) {
      ElsewhereMaps(s, own, s', own', d, j, SlotOf(m));
    }
  }

  // -------------------------------------------------------------- link counts

  /** The live entries of linked directories that name `i`. */
  ghost function EntriesNaming(s: Fs, i: nat): set<Place> {
    set x | x in Ents(s) && Ents(s)[x].inum == i
  }

  lemma PlainOnly(ns: Ns, i: nat)
    requires Closed(ns) && Dots(ns) && IsFile(ns, i)
    ensures Refs(ns, i) == set x | x in ns.ents && ns.ents[x].inum == i
  {
    hide Dots, Plain;
    forall x | x in ns.ents && ns.ents[x].inum == i ensures Plain(ns.ents[x]) {
      FilesHavePlainEntries(ns, x);
    }
  }

  /** A linked file has exactly as many links as live entries name it. */
  lemma FileLinkCount(s: Fs, base: nat, i: nat)
    requires WellLinked(Abs(s), base) && InUse(s, i) && Ino(s, i).nlink > 0 && Ino(s, i).kind != T_DIR
    ensures Ino(s, i).nlink == |EntriesNaming(s, i)|
  {
    AbsAt(s);
    hide UniqueNames, Parents, Dots, DirCounts, Closed, EntAt, Refs, Ents, Nodes;
    assert IsFile(Abs(s), i);
    PlainOnly(Abs(s), i);
    assert Refs(Abs(s), i) == EntriesNaming(s, i);
  }

  /** A linked directory has its base (2, below the root) plus one link per child directory, at most 4480 in all. */
  lemma DirLinkCount(s: Fs, base: nat, d: nat)
    requires WellLinked(Abs(s), base) && LinkedDir(s, d)
    ensures Ino(s, d).nlink == (if d == ROOTINO then base else 2) + |ChildDirs(Abs(s), d)|
    ensures |ChildDirs(Abs(s), d)| <= MAXSLOTS - 2
    ensures d != ROOTINO ==> Ino(s, d).nlink <= MAXSLOTS
  {
    AbsAt(s);
    DirInAbs(s, d);
    hide UniqueNames, Parents, Dots, FileCounts, Closed, EntAt, Abs, ChildDirs;
    var x, y := DotPlaces(Abs(s), base, d);
    ChildBound(s, d, x, y);
  }

  /** No live entry of a linked directory names a free or unlinked inode, and no two have the same name. */
  lemma EntriesAreLive(s: Fs, base: nat, d: nat, p: nat)
    requires WellLinked(Abs(s), base) && LinkedDir(s, d) && p < |Slots(s, d)| && p < MAXSLOTS && Live(Slots(s, d)[p])
    ensures InUse(s, Slots(s, d)[p].inum) && Ino(s, Slots(s, d)[p].inum).nlink > 0
    ensures forall q: nat :: q < |Slots(s, d)| && q < MAXSLOTS && q != p && Live(Slots(s, d)[q]) ==>
      CName(Slots(s, d)[q].field) != CName(Slots(s, d)[p].field)
  {
    AbsAt(s);
    hide Parents, Dots, FileCounts, DirCounts, Slots, CName, Abs;
    assert (d, p) in Abs(s).ents && Abs(s).ents[(d, p)] == EntryOf(Slots(s, d)[p]);
    forall q: nat | q < |Slots(s, d)| && q < MAXSLOTS && q != p && Live(Slots(s, d)[q])
      ensures CName(Slots(s, d)[q].field) != CName(Slots(s, d)[p].field)
    {
      assert (d, q) in Abs(s).ents && Abs(s).ents[(d, q)] == EntryOf(Slots(s, d)[q]);
    }
  }

  /** The safety half, whatever reads have failed: no two pointers share a block and none names a free one. */
  lemma SafeUnderFaults(s: Fs, own: Owners)
    requires Sound(s, own, false)
    ensures NoSharing(s)
  {
    hide Owns, NoSharing;
    OwnershipMeaning(s);
    assert Owns(s, own);
  }
}
