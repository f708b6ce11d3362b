/** Resizing and writing regular files (`xv6fs_setattr`, and the block mapping behind a write). */
module Files {
  import opened Bytes
  import opened Codec
  import opened Results
  import opened State
  import Bitmap
  import opened Ownership
  import Counting
  import opened BlockMap
  import opened Truncate
  import Cursor
  import Directory
  import opened Inodes
  import Tree
  import opened Namespace
  import Ops

  const MAXBYTES := 71680

  function DivRoundUp(n: nat, d: nat): nat
    requires d > 0
  {
    (n + d - 1) / d
  }

  /** A step on inode `i` that ends with `i` dirty, of the same kind and link count, and not a directory. */
  lemma FileStep(s: Fs, own: Owners, s': Fs, own': Owners, i: nat, clean: bool, clean': bool)
    requires Sound(s, own, clean) && i in s.cache && i in s'.cache && s.cache[i].kind != T_DIR
    requires Owns(s', own') && Others(s, own, s', own', i)
    requires StrayGrows(s, own, s', own') && (clean' ==> clean && StraySame(s, own, s', own'))
    requires s'.cache[i] == s.cache[i].(addrs := s'.cache[i].addrs, size := s'.cache[i].size, dirty := true)
    requires s'.cache[i].size < U32
    ensures Sound(s', own', clean') && Abs(s') == Abs(s) && Untouched(s, s', {i})
  {
    hide Owns, MetaMarked, Lists, CleanCached, Widths, NoLeak, TableOnDisk, StraySame, StrayGrows, Others, Elsewhere;
    hide Abs, Cursor.Slots, Decode, Untouched;
    assert Shape(s) && Shape(s') by { OwnsShape(s, own); OwnsShape(s', own'); }
    CachedInUse(s, i);
    InWidthOf(s, i);
    SoundKept(s, own, s', own', i, clean, clean');
    OthersElsewhere(s, own, s', own', i);
    ElsewhereUntouched(s, own, s', own', i);
    Quiet(s, own, s', own', i);
  }

  /** Logical block `l` of `i` is where it was, with the bytes it had. */
  ghost predicate SameBlock(s: Fs, s': Fs, i: nat, l: nat) {
    LMap(s', i, l) == LMap(s, i, l) && (LMap(s, i, l) != 0 ==> SameBytes(s, s', LMap(s, i, l)))
  }

  lemma KeptBlock(s: Fs, own: Owners, s': Fs, own': Owners, i: nat, l: nat)
    requires Owns(s, own) && InUse(s, i) && l < MAXFILE && LMap(s', i, l) == LMap(s, i, l) && DataKept(s, own', s')
    requires forall b :: b in own && own[b] == (i, SlotOf(l)) ==> b in own' && own'[b] == own[b]
    ensures SameBlock(s, s', i, l)
  {
    hide Ptr, Used, PointersOwned, OwnersPoint;
    if LMap(s, i, l) != 0 {
      OwnedBlock(s, own, i, SlotOf(l));
    }
  }

  ghost function Sized(s: Fs, i: nat, size: nat): Fs
    requires i in s.cache
  {
    s.(cache := s.cache[i := s.cache[i].(size := size)])
  }

  lemma SizedLaw(s: Fs, own: Owners, i: nat, size: nat)
    requires Owns(s, own) && i in s.cache
    ensures var s' := Sized(s, i, size);
      && Owns(s', own) && StraySame(s, own, s', own) && Others(s, own, s', own, i)
      && forall k: nat :: Ptr(s', i, k) == Ptr(s, i, k)
  {
    hide Bitmap.IsSet, WordAt, Decode, PointersOwned, OwnersPoint, StraySame;
    RecordsOwn(s, own, Sized(s, i, size));
  }

  ghost function Dirtied(s: Fs, i: nat): Fs
    requires i in s.cache
  {
    s.(cache := s.cache[i := Dirty(s.cache[i])])
  }

  lemma DirtiedLaw(s: Fs, own: Owners, i: nat)
    requires Owns(s, own) && i in s.cache
    ensures var s' := Dirtied(s, i);
      && Owns(s', own) && StraySame(s, own, s', own) && Others(s, own, s', own, i)
      && forall k: nat :: Ptr(s', i, k) == Ptr(s, i, k)
  {
    hide Bitmap.IsSet, WordAt, Decode, PointersOwned, OwnersPoint, StraySame;
    RecordsOwn(s, own, Dirtied(s, i));
  }

  lemma TruncParts(s: Fs, own: Owners, t: Fs, ownT: Owners, i: nat, n: nat, clean: bool)
    requires TruncPost(s, own, t, ownT, i, n, clean) && i in s.cache
    ensures Owns(t, ownT) && Others(s, own, t, ownT, i) && StrayGrows(s, own, t, ownT) && i in t.cache
    ensures t.cache[i] == s.cache[i].(addrs := t.cache[i].addrs)
    ensures clean ==> StraySame(s, own, t, ownT)
    ensures DataKept(s, ownT, t) && forall b :: b in ownT ==> b in own && own[b] == ownT[b]
    ensures forall l: nat :: l < n && l < MAXFILE ==> LMap(t, i, l) == LMap(s, i, l)
    ensures forall l: nat :: n <= l < NDIRECT ==> LMap(t, i, l) == 0
    ensures clean ==> forall l: nat :: n <= l < MAXFILE ==> LMap(t, i, l) == 0
  {
    hide Owns, Others, StrayGrows, StraySame, DataKept, LMap, EntryLeft;
  }

  /** The three steps of a resize taken together. */
  lemma ResizeSteps(s: Fs, own: Owners, t: Fs, ownT: Owners, i: nat, size: nat, n: nat, clean: bool, quiet: bool,
                    clean': bool)
    requires Sound(s, own, clean) && i in s.cache && s.cache[i].kind != T_DIR && size <= MAXBYTES
    requires TruncPost(Sized(s, i, size), own, t, ownT, i, n, quiet) && i in t.cache && (clean' ==> clean && quiet)
    ensures var w := Dirtied(t, i);
      && Sound(w, ownT, clean') && Abs(w) == Abs(s) && w.cache[i].size == size && Untouched(s, w, {i})
      && (forall l: nat :: l < n && l < MAXFILE ==> SameBlock(s, w, i, l))
      && (forall l: nat :: n <= l < NDIRECT ==> LMap(w, i, l) == 0)
      && (quiet ==> forall l: nat :: n <= l < MAXFILE ==> LMap(w, i, l) == 0)
      && (quiet ==> StraySame(s, own, w, ownT) && CutBack(s, w, i, n))
  {
    hide Sound, Owns, Others, StrayGrows, StraySame, Ptr, TruncPost, Abs, Decode, DataKept, SameBlock, Untouched;
    var e, w := Sized(s, i, size), Dirtied(t, i);
    Ops.SoundOwns(s, own, clean);
    SizedLaw(s, own, i, size);
    TruncParts(e, own, t, ownT, i, n, quiet);
    DirtiedLaw(t, ownT, i);
    ResizeParts(s, own, t, ownT, i, size, n, quiet);
    FileStep(s, own, w, ownT, i, clean, clean');
    assert forall l: nat :: LMap(w, i, l) == LMap(t, i, l) && LMap(e, i, l) == LMap(s, i, l);
    OwnsShape(s, own);
    CachedInUse(s, i);
    SameDisks(s, e, t, w, ownT);
    forall l: nat | l < n && l < MAXFILE ensures SameBlock(s, w, i, l) {
      StillOwned(w, ownT, i, l);
      KeptMapped(s, own, w, ownT, i, l);
    }
    if quiet {
      CutsBack(s, own, w, ownT, i, n);
    }
  }

  /** Every block of `i` from logical block `n` on is free in `s'`. */
  ghost predicate CutBack(s: Fs, s': Fs, i: nat, n: nat) {
    forall l: nat :: n <= l < MAXFILE && LMap(s, i, l) != 0 ==> !Used(s', LMap(s, i, l))
  }

  lemma CutsBack(s: Fs, own: Owners, w: Fs, ownW: Owners, i: nat, n: nat)
    requires Owns(s, own) && Owns(w, ownW) && i in s.cache && StraySame(s, own, w, ownW)
    requires (forall b :: b in ownW ==> b in own && own[b] == ownW[b])
    requires forall l: nat :: n <= l < MAXFILE ==> LMap(w, i, l) == 0
    ensures CutBack(s, w, i, n)
  {
    hide Ptr, Used, PointersOwned, Shape;
    assert InUse(s, i) by { OwnsShape(s, own); CachedInUse(s, i); }
    forall l: nat | n <= l < MAXFILE && LMap(s, i, l) != 0 ensures !Used(w, LMap(s, i, l)) {
      var b := LMap(s, i, l);
      OwnedBlock(s, own, i, SlotOf(l));
      assert !Stray(w, ownW, b) && LMap(w, i, l) == 0;
    }
  }

  lemma SameDisks(s: Fs, e: Fs, t: Fs, w: Fs, own: Owners)
    requires DataKept(e, own, t) && e.disk == s.disk && w.disk == t.disk
    ensures DataKept(s, own, w)
  {
  }

  lemma StillOwned(s: Fs, own: Owners, i: nat, l: nat)
    requires Owns(s, own) && i in s.cache && l < MAXFILE
    ensures LMap(s, i, l) != 0 ==> LMap(s, i, l) in own && own[LMap(s, i, l)].1 != INDIRECT && LMap(s, i, l) < |s.disk|
  {
    hide Ptr, Used, PointersOwned, OwnersPoint;
    CachedInUse(s, i);
    if LMap(s, i, l) != 0 {
      OwnedBlock(s, own, i, SlotOf(l));
    }
  }

  lemma KeptMapped(s: Fs, own: Owners, w: Fs, ownW: Owners, i: nat, l: nat)
    requires DataKept(s, ownW, w) && LMap(w, i, l) == LMap(s, i, l)
    requires LMap(w, i, l) != 0 ==>
      LMap(w, i, l) in ownW && ownW[LMap(w, i, l)].1 != INDIRECT && LMap(w, i, l) < |w.disk|
    ensures SameBlock(s, w, i, l)
  {
    hide Ptr;
  }

  lemma CoveredBlocks(size: nat, l: nat)
    ensures l < DivRoundUp(size, BSIZE) <==> l * BSIZE < size
  {
  }

  /** The three steps of a resize, on any volume that has owners for its blocks. */
  method ResizeBlocks(v: Volume, i: nat, size: nat) returns (ghost t: Fs)
    requires Owns(v.View(), v.owner) && i in v.cache
    modifies v`disk, v`cache, v`faults, v`owner
    ensures TruncPost(Sized(old(v.View()), i, size), old(v.owner), t, v.owner, i, DivRoundUp(size, BSIZE),
                      v.faults == old(v.faults))
    ensures i in t.cache && v.View() == Dirtied(t, i) && old(v.faults) <= v.faults
    ensures Owns(v.View(), v.owner) && Others(old(v.View()), old(v.owner), v.View(), v.owner, i)
    ensures StrayGrows(old(v.View()), old(v.owner), v.View(), v.owner)
    ensures v.faults == old(v.faults) ==> StraySame(old(v.View()), old(v.owner), v.View(), v.owner)
  {
    hide Owns, LMap, TruncPost, Decode, StraySame, StrayGrows, Others;
    ghost var s, own, f0 := v.View(), v.owner, v.faults;
    SizedLaw(s, own, i, size);
    v.cache := v.cache[i := v.cache[i].(size := size)];
    TruncateBlocks(v, i, DivRoundUp(size, BSIZE));
    t := v.View();
    ResizeParts(s, own, t, v.owner, i, size, DivRoundUp(size, BSIZE), v.faults == f0);
    v.cache := v.cache[i := Dirty(v.cache[i])];
  }

  lemma ResizeParts(s: Fs, own: Owners, t: Fs, ownT: Owners, i: nat, size: nat, n: nat, quiet: bool)
    requires Owns(s, own) && i in s.cache && TruncPost(Sized(s, i, size), own, t, ownT, i, n, quiet)
    ensures i in t.cache && Owns(Dirtied(t, i), ownT) && Others(s, own, Dirtied(t, i), ownT, i)
    ensures StrayGrows(s, own, Dirtied(t, i), ownT) && (quiet ==> StraySame(s, own, Dirtied(t, i), ownT))
  {
    hide Owns, Others, StrayGrows, StraySame, Ptr, TruncPost, Decode, DataKept;
    var e := Sized(s, i, size);
    SizedLaw(s, own, i, size);
    TruncParts(e, own, t, ownT, i, n, quiet);
    var w := Dirtied(t, i);
    DirtiedLaw(t, ownT, i);
    OthersTransitive(s, own, e, own, t, ownT, i);
    OthersTransitive(s, own, t, ownT, w, ownT, i);
    StraySameGrows(s, own, e, own);
    StraySameGrows(t, ownT, w, ownT);
    StrayChain(s, own, e, own, t, ownT);
    StrayChain(s, own, t, ownT, w, ownT);
    if quiet {
      StrayTransitive(s, own, e, own, t, ownT);
      StrayTransitive(s, own, t, ownT, w, ownT);
    }
  }

  /** The size part of `xv6fs_setattr`: blocks that hold a byte below the new size stay, the others go. */
  method SetSize(v: Volume, i: nat, size: nat, ghost base: nat)
    requires Ops.Valid(v, base) && i in v.cache && v.cache[i].kind != T_DIR && size <= MAXBYTES
    modifies v`disk, v`cache, v`faults, v`owner
    ensures Ops.Valid(v, base) && old(v.faults) <= v.faults && Untouched(old(v.View()), v.View(), {i})
    ensures Abs(v.View()) == Abs(old(v.View())) && i in v.cache
    ensures v.cache[i] == old(v.cache)[i].(addrs := v.cache[i].addrs, size := size, dirty := true)
    ensures forall l: nat :: l < MAXFILE && l * BSIZE < size ==> SameBlock(old(v.View()), v.View(), i, l)
    ensures forall l: nat :: l < NDIRECT && l * BSIZE >= size ==> LMap(v.View(), i, l) == 0
    ensures v.faults == old(v.faults) ==>
      && (forall l: nat :: l < MAXFILE && l * BSIZE >= size ==> LMap(v.View(), i, l) == 0)
      && CutBack(old(v.View()), v.View(), i, DivRoundUp(size, BSIZE))
      && StraySame(old(v.View()), old(v.owner), v.View(), v.owner)
  {
    hide Sound, Owns, LMap, TruncPost, Abs, Tree.WellLinked, Decode, SameBlock, Untouched, StraySame, CutBack, Others;
    hide StrayGrows;
    ghost var s, own, clean := v.View(), v.owner, v.faults == 0;
    Ops.SoundOwns(s, own, clean);
    ghost var f0 := v.faults;
    ghost var t := ResizeBlocks(v, i, size);
    TruncParts(Sized(s, i, size), own, t, v.owner, i, DivRoundUp(size, BSIZE), v.faults == f0);
    ResizeSteps(s, own, t, v.owner, i, size, DivRoundUp(size, BSIZE), clean, v.faults == f0, v.faults == 0);
    forall l: nat ensures l < DivRoundUp(size, BSIZE) <==> l * BSIZE < size {
      CoveredBlocks(size, l);
    }
  }

  // ------------------------------------------------------------ file writes

  /** A block mapped, written and covered by the size: ownership needs nothing else. */
  lemma StoreParts(s: Fs, own: Owners, t: Fs, own': Owners, i: nat, l: nat, data: Block, size: nat, m: Mapping)
    requires Owns(s, own) && i in s.cache && MapPost(s, own, t, own', i, l, true, Ok(m)) && i in t.cache
    ensures l < MAXFILE && m.Mapped? && 0 < m.block == LMap(t, i, l) < |t.disk|
    ensures var w := Dirtied(Sized(Directory.WriteBlock(t, LMap(t, i, l), data), i, size), i);
      && Owns(w, own') && Others(s, own, w, own', i) && StraySame(s, own, w, own')
      && forall k: nat :: k < SLOTS ==> Ptr(w, i, k) == Ptr(t, i, k)
  {
    hide Owns, Others, StraySame, Ptr, MapPost, Decode, DataKept;
    Directory.CreateMaps(s, own, t, own', i, l, m);
    Directory.WriteBlockLaw(t, own', i, l, data);
    var u := Directory.WriteBlock(t, LMap(t, i, l), data);
    SizedLaw(u, own', i, size);
    var e := Sized(u, i, size);
    DirtiedLaw(e, own', i);
    var w := Dirtied(e, i);
    MapParts(s, own, t, own', i, l, m);
    OthersTransitive(s, own, t, own', u, own', i);
    OthersTransitive(s, own, u, own', e, own', i);
    OthersTransitive(s, own, e, own', w, own', i);
    StrayTransitive(s, own, t, own', u, own');
    StrayTransitive(s, own, u, own', e, own');
    StrayTransitive(s, own, e, own', w, own');
  }

  lemma WriteSteps(s: Fs, own: Owners, t: Fs, own': Owners, i: nat, l: nat, data: Block, size: nat, m: Mapping,
                   clean: bool)
    requires Sound(s, own, clean) && i in s.cache && s.cache[i].kind != T_DIR && l < MAXFILE && size < U32
    requires MapPost(s, own, t, own', i, l, true, Ok(m)) && i in t.cache
    ensures m.Mapped? && m.block == LMap(t, i, l) < |t.disk|
    ensures var w := Dirtied(Sized(Directory.WriteBlock(t, LMap(t, i, l), data), i, size), i);
      && Sound(w, own', clean) && Abs(w) == Abs(s) && LMap(w, i, l) == m.block && Untouched(s, w, {i})
      && StraySame(s, own, w, own')
      && (forall k: nat :: k < MAXFILE && k != l ==> SameBlock(s, w, i, k))
  {
    hide Sound, Owns, Others, StraySame, Ptr, MapPost, Abs, Decode, DataKept, SameBlock, Untouched;
    Ops.SoundOwns(s, own, clean);
    Directory.CreateMaps(s, own, t, own', i, l, m);
    StoreParts(s, own, t, own', i, l, data, size, m);
    MapParts(s, own, t, own', i, l, m);
    var w := Dirtied(Sized(Directory.WriteBlock(t, LMap(t, i, l), data), i, size), i);
    StraySameGrows(s, own, w, own');
    FileStep(s, own, w, own', i, clean, clean);
    OwnsShape(t, own');
    CachedInUse(s, i);
    CachedInUse(t, i);
    forall k: nat | k < MAXFILE && k != l ensures SameBlock(s, w, i, k) {
      KeptBlock(s, own, t, own, i, k);
      Directory.MapsDistinct(t, own', i, l, k);
      assert LMap(w, i, k) == LMap(t, i, k);
      OtherBlockKept(s, t, w, i, k, LMap(t, i, l), data);
    }
  }

  lemma OtherBlockKept(s: Fs, t: Fs, w: Fs, i: nat, k: nat, b: nat, data: Block)
    requires SameBlock(s, t, i, k) && LMap(w, i, k) == LMap(t, i, k) && b < |t.disk| && b != LMap(t, i, k)
    requires w.disk == t.disk[b := data]
    ensures SameBlock(s, w, i, k)
  {
    hide Ptr;
  }

  lemma MapParts(s: Fs, own: Owners, t: Fs, own': Owners, i: nat, l: nat, m: Mapping)
    requires MapPost(s, own, t, own', i, l, true, Ok(m)) && l < MAXFILE
    ensures Owns(t, own') && StraySame(s, own, t, own') && Others(s, own, t, own', i) && DataKept(s, own, t)
    ensures forall k: nat :: k < MAXFILE && k != l ==> LMap(t, i, k) == LMap(s, i, k)
  {
    hide Owns, StraySame, Others, DataKept, Ptr;
  }

  /** A failed mapping changes nothing but, perhaps, an all-zero indirect block. */
  lemma MapFailed(s: Fs, own: Owners, t: Fs, own': Owners, i: nat, l: nat, e: Errno, clean: bool, clean': bool)
    requires Sound(s, own, clean) && i in s.cache && s.cache[i].kind != T_DIR && (clean' ==> clean)
    requires MapPost(s, own, t, own', i, l, true, Err(e))
    ensures Sound(t, own', clean') && Abs(t) == Abs(s) && Untouched(s, t, {i}) && StraySame(s, own, t, own')
    ensures forall k: nat :: k < MAXFILE ==> SameBlock(s, t, i, k)
    ensures e == EIO || (e == EFBIG && l >= MAXFILE) || (e == ENOSPC && Counting.FreeData(s) < BlocksNeeded(s, i, l))
  {
    hide Owns, StraySame, DataKept, LMap, Abs, Decode, MetaMarked, Lists, CleanCached, Widths, NoLeak, TableOnDisk;
    hide Residue, Others, SameBlock, Untouched, BlocksNeeded, Counting.FreeData, Used;
    Counting.MapSpace(s, own, t, own', i, l, Err(e));
    MapFailedBlocks(s, own, t, own', i, l, e);
    MapFailedFrame(s, own, t, own', i, l, e);
    StraySameGrows(s, own, t, own');
    KeysKept(s, own, t, own', i);
    SmallSize(s, own, i, clean);
    if t == s {
      assert Shape(s) by { OwnsShape(s, own); }
      CachedInUse(s, i);
      InWidthOf(s, i);
      SoundKept(s, own, t, own', i, clean, clean');
    } else {
      FileStep(s, own, t, own', i, clean, clean');
    }
  }

  lemma MapFailedBlocks(s: Fs, own: Owners, t: Fs, own': Owners, i: nat, l: nat, e: Errno)
    requires Owns(s, own) && i in s.cache && MapPost(s, own, t, own', i, l, true, Err(e))
    ensures forall k: nat :: k < MAXFILE ==> SameBlock(s, t, i, k)
  {
    hide PointersOwned, OwnersPoint, StraySame, DataKept, LMap, Kept, SameBlock, Used, Residue;
    CachedInUse(s, i);
    forall k: nat | k < MAXFILE ensures SameBlock(s, t, i, k) {
      KeptBlock(s, own, t, own, i, k);
    }
  }

  lemma MapFailedFrame(s: Fs, own: Owners, t: Fs, own': Owners, i: nat, l: nat, e: Errno)
    requires Owns(s, own) && i in s.cache && MapPost(s, own, t, own', i, l, true, Err(e))
    ensures Untouched(s, t, {i})
  {
    assert Kept(s, own, t, own', i);
    hide MapPost, PointersOwned, OwnersPoint, Others, Elsewhere, Untouched;
    OthersElsewhere(s, own, t, own', i);
    ElsewhereUntouched(s, own, t, own', i);
  }

  lemma SmallSize(s: Fs, own: Owners, i: nat, clean: bool)
    requires Sound(s, own, clean) && i in s.cache
    ensures s.cache[i].size < U32
  {
    hide PointersOwned, OwnersPoint, MetaMarked, Lists, CleanCached, NoLeak, TableOnDisk;
    InWidthOf(s, i);
  }

  function Larger(a: nat, b: nat): (c: nat)
    ensures a <= c && b <= c && (c == a || c == b)
  {
    if a > b then a else b
  }

  /** The size is never lowered: it is raised to `size` if it was below.  Only addresses change besides. */
  ghost predicate Raised(n: Inode, m: Inode, size: nat) {
    && m == n.(addrs := m.addrs, size := m.size, dirty := true)
    && m.size >= n.size && m.size >= size && (m.size == n.size || m.size == size)
  }

  /** One block of a buffered write, on any volume that has owners for its blocks. */
  method StoreBlock(v: Volume, i: nat, l: nat, data: Block, size: nat)
    returns (r: Result<nat>, ghost g: Result<Mapping>, ghost t: Fs)
    requires v.steady && Mapable(v, i)
    modifies v`disk, v`cache, v`faults, v`nobuf, v`owner
    ensures MapPost(old(v.View()), old(v.owner), t, v.owner, i, l, true, g) && i in t.cache
    ensures r.Ok? ==>
      && l < MAXFILE && g.Ok? && g.value.Mapped? && g.value.block == r.value && 0 < r.value == LMap(t, i, l) < |t.disk|
      && v.View() == Dirtied(Sized(Directory.WriteBlock(t, r.value, data), i, Larger(size, old(v.cache[i].size))), i)
    ensures r.Ok? ==> Raised(old(v.cache)[i], v.cache[i], size)
    ensures r.Err? ==> g == Err(r.error) && v.View() == t
    ensures if r == Err(EIO) then v.faults > old(v.faults) else v.faults == old(v.faults)
    ensures Mapable(v, i) && Others(old(v.View()), old(v.owner), v.View(), v.owner, i)
    ensures StraySame(old(v.View()), old(v.owner), v.View(), v.owner)
  {
    hide Owns, MetaMarked, LMap, MapPost, Decode, StraySame, Others;
    ghost var s, own := v.View(), v.owner;
    var m := GetBlock(v, i, l, true);
    g, t := m, v.View();
    MapFrame(s, own, t, v.owner, i, l, g);
    if m.Err? {
      return Err(m.error), g, t;
    }
    Directory.CreateMaps(s, own, t, v.owner, i, l, g.value);
    var newSize := Larger(size, v.cache[i].size);
    StoreParts(s, own, t, v.owner, i, l, data, newSize, g.value);
    var b := m.value.block;
    v.disk := v.disk[b := data];
    v.cache := v.cache[i := v.cache[i].(size := newSize)];
    v.cache := v.cache[i := Dirty(v.cache[i])];
    StraySameGrows(s, own, v.View(), v.owner);
    StrayKeepsMeta(s, own, v.View(), v.owner);
    return Ok(b), g, t;
  }

  lemma MapFrame(s: Fs, own: Owners, t: Fs, own': Owners, i: nat, l: nat, r: Result<Mapping>)
    requires MapPost(s, own, t, own', i, l, true, r) && i in s.cache
    ensures Owns(t, own') && Others(s, own, t, own', i) && StraySame(s, own, t, own') && i in t.cache
  {
    hide Owns, StraySame, DataKept, MapResult, Spent;
  }

  /**
   One block of a buffered write: map it, creating it if need be, store the data,
   and let the size grow.  Every other block of the file keeps its place and its
   bytes; a failed write keeps them all.
   */
  method WriteFileBlock(v: Volume, i: nat, l: nat, data: Block, size: nat, ghost base: nat) returns (r: Result<nat>)
    requires Ops.Valid(v, base) && i in v.cache && v.cache[i].kind != T_DIR && size <= MAXBYTES
    modifies v`disk, v`cache, v`faults, v`nobuf, v`owner
    ensures Ops.Valid(v, base) && old(v.faults) <= v.faults && Untouched(old(v.View()), v.View(), {i})
    ensures Abs(v.View()) == Abs(old(v.View()))
    ensures r.Ok? ==>
      l < MAXFILE && 0 < r.value < |v.disk| && LMap(v.View(), i, l) == r.value && v.disk[r.value] == data
    ensures r.Ok? ==>
      i in v.cache && Raised(old(v.cache)[i], v.cache[i], size)
    ensures r.Ok? ==> forall k: nat :: k < MAXFILE && k != l ==> SameBlock(old(v.View()), v.View(), i, k)
    ensures r.Ok? ==> BlocksNeeded(old(v.View()), i, l) <= Counting.FreeData(old(v.View())) && v.faults == old(v.faults)
    ensures r.Err? ==> forall k: nat :: k < MAXFILE ==> SameBlock(old(v.View()), v.View(), i, k)
    ensures r.Err? ==>
      || (r.error == EIO && v.faults > old(v.faults)) || (r.error == EFBIG && l >= MAXFILE)
      || (r.error == ENOSPC && Counting.FreeData(old(v.View())) < BlocksNeeded(old(v.View()), i, l))
    ensures StraySame(old(v.View()), old(v.owner), v.View(), v.owner)
  {
    hide Sound, Owns, MetaMarked, LMap, MapPost, Abs, Tree.WellLinked, Decode, SameBlock, Untouched,
      BlocksNeeded, StraySame;
    hide Counting.FreeData, Others;
    ghost var s, own, clean := v.View(), v.owner, v.faults == 0;
    Ops.SoundOwns(s, own, clean);
    ghost var g, t;
    r, g, t := StoreBlock(v, i, l, data, size);
    if r.Err? {
      MapFailed(s, own, v.View(), v.owner, i, l, r.error, clean, v.faults == 0);
      return;
    }
    SmallSize(s, own, i, clean);
    WriteSteps(s, own, t, v.owner, i, l, data, Larger(size, s.cache[i].size), g.value, clean);
    Counting.MapSpace(s, own, t, v.owner, i, l, g);
  }
}
