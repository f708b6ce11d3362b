/** Removing and making directories (`xv6fs_rmdir`, `xv6fs_mkdir`), over the whole volume. */
module DirOps {
  import opened Bytes
  import opened OnDisk
  import opened Codec
  import opened Results
  import opened State
  import opened Ownership
  import opened Counting
  import BlockMap
  import opened Cursor
  import opened Listing
  import opened Directory
  import DirMap
  import opened Inodes
  import opened Tree
  import opened Namespace
  import opened Ops

  // -------------------------------------------------------------------- rmdir

  lemma NoThird(live: seq<nat>, a: nat, b: nat, q: nat)
    requires |live| <= 2 && a in live && b in live && q in live && a != b
    ensures q == a || q == b
  {
  }

  lemma EntryIsLive(s: Fs, c: nat, y: Place)
    requires y in Abs(s).ents && y.0 == c
    ensures y.1 in LiveFrom(Slots(s, c), 0)
  {
    hide NodeAt, Slots, CName;
    AbsAt(s);
    assert y == (y.0, y.1);
    LiveFromExact(Slots(s, c), 0);
  }

  /** At most two live entries, two of which are the dots: nothing else is in the directory. */
  lemma EmptyMeans(s: Fs, base: nat, c: nat)
    requires WellLinked(Abs(s), base) && LinkedDir(s, c) && |LiveFrom(Slots(s, c), 0)| <= 2
    ensures forall y :: y in Abs(s).ents && y.0 == c ==> !Plain(Abs(s).ents[y])
  {
    AbsAt(s);
    assert IsDir(Abs(s), c);
    hide NodeAt, Slots, WellLinked, LiveFrom, Abs, EntAt, LinkedDir, IsDir;
    var a, b := DotPlaces(Abs(s), base, c);
    EntryIsLive(s, c, a);
    EntryIsLive(s, c, b);
    forall y | y in Abs(s).ents && y.0 == c ensures !Plain(Abs(s).ents[y]) {
      EntryIsLive(s, c, y);
      NoThird(LiveFrom(Slots(s, c), 0), a.1, b.1, y.1);
    }
  }

  /** An empty directory below the root has exactly two links. */
  lemma EmptyHasTwo(ns: Ns, base: nat, c: nat, x: Place)
    requires WellLinked(ns, base) && NamesDir(ns, x) && ns.ents[x].inum == c
    requires forall y :: y in ns.ents && y.0 == c ==> !Plain(ns.ents[y])
    ensures ns.nodes[c].nlink == 2 && c != ROOTINO && x.0 != c
    ensures x.0 in ns.nodes && IsDir(ns, x.0) && ns.nodes[x.0].nlink >= 2
  {
    hide UniqueNames, Dots, FileCounts;
    assert ChildDirs(ns, c) == {};
    assert x in ChildDirs(ns, x.0) && IsDir(ns, x.0) && IsDir(ns, c);
  }

  lemma RmdirSteps(ns: Ns, ns1: Ns, ns2: Ns, ns3: Ns, d: nat, q: nat, name: Name, c: nat)
    requires UnlinkedAt(ns, ns1, d, q, name, c) && NamesDir(ns, (d, q))
    requires ns.nodes[c].nlink == 2 && d != c && IsDir(ns, d)
    requires ns.nodes[d].nlink >= 2 && forall y :: y in ns.ents && y.0 == c ==> !Plain(ns.ents[y])
    requires c in ns1.nodes && ns2 == Renumbered(ns1, c, 0)
    requires d in ns2.nodes && ns3 == Renumbered(ns2, d, ns.nodes[d].nlink - 1)
    ensures DropDir(ns, ns3, (d, q), c)
  {
    assert ns1 == Ns(ns.nodes[c := Node(T_DIR, 1)], ns.ents - {(d, q)});
    assert ns2.nodes == ns.nodes - {c};
    assert ns3.nodes == (ns.nodes - {c})[d := Node(T_DIR, ns.nodes[d].nlink - 1)];
  }

  /** After the entry is gone: the removed directory has one link left, the parent at least two. */
  lemma RmdirCounts(ns: Ns, ns1: Ns, base: nat, d: nat, q: nat, name: Name, c: nat)
    requires WellLinked(ns, base) && UnlinkedAt(ns, ns1, d, q, name, c) && IsDir(ns, c) && Nameable(name)
    requires forall y :: y in ns.ents && y.0 == c ==> !Plain(ns.ents[y])
    ensures NamesDir(ns, (d, q)) && ns.nodes[c].nlink == 2 && d != c && IsDir(ns, d) && ns.nodes[d].nlink >= 2
    ensures ns1 == Ns(ns.nodes[c := Node(T_DIR, 1)], ns.ents - {(d, q)})
  {
    assert NamesDir(ns, (d, q));
    hide WellLinked;
    EmptyHasTwo(ns, base, c, (d, q));
  }

  /** The two decrements that follow the unlink. */
  lemma RmdirRelinks(s1: Fs, own: Owners, d: nat, c: nat, n: nat, clean: bool)
    requires Sound(s1, own, clean) && c in s1.cache && d in s1.cache && c != d && n < U16
    requires c in Abs(s1).nodes && d in Abs(s1).nodes
    ensures d in Renumbered(Abs(s1), c, 0).nodes
    ensures var s3 := Relinked(Relinked(s1, c, 0), d, n);
      Sound(s3, own, clean) && Abs(s3) == Renumbered(Renumbered(Abs(s1), c, 0), d, n)
  {
    hide NodeAt, Slots, Abs, LinkedDir, Sound, Elsewhere, Owns, Decode;
    NodeIsInode(s1, c);
    RelinkLaw(s1, own, c, 0, clean);
    SoundOwns(s1, own, clean);
    Relink(s1, own, c, 0);
    var s2 := Relinked(s1, c, 0);
    SoundOwns(s2, own, clean);
    NodeIsInode(s2, d);
    RelinkLaw(s2, own, d, n, clean);
    Relink(s2, own, d, n);
  }

  /** The entry `name` of `d`, the empty directory `c` it names, and one link of `d` are gone. */
  ghost predicate RemovedDir(ns: Ns, ns': Ns, d: nat, name: Name, c: nat) {
    exists q: nat :: DropDir(ns, ns', (d, q), c) && ns.ents[(d, q)].name == name
  }

  lemma RmdirAbs(s: Fs, s1: Fs, own: Owners, base: nat, d: nat, name: Name, c: nat, clean: bool)
    requires WellLinked(Abs(s), base) && Sound(s1, own, clean)
    requires Unlinked(Abs(s), Abs(s1), d, name, c) && Nameable(name)
    requires LinkedDir(s, c) && |LiveFrom(Slots(s, c), 0)| <= 2 && d in s1.cache && c in s1.cache
    ensures s1.cache[c].nlink == 1 && s1.cache[d].nlink >= 2 && d != c
    ensures var s3 := Relinked(Relinked(s1, c, 0), d, s1.cache[d].nlink - 1);
      && Sound(s3, own, clean) && WellLinked(Abs(s3), base)
      && RemovedDir(Abs(s), Abs(s3), d, name, c)
  {
    hide NodeAt, Slots, WellLinked, LiveFrom, Abs, EntAt, LinkedDir, IsDir, Sound, Owns, Plain, Renumbered;
    hide DropDir, NamesDir, Nameable;
    EmptyMeans(s, base, c);
    DirInAbs(s, c);
    var q: nat :| UnlinkedAt(Abs(s), Abs(s1), d, q, name, c);
    RmdirCounts(Abs(s), Abs(s1), base, d, q, name, c);
    NodeIsInode(s1, c);
    RmdirNodes(s, s1, base, d, q, c);
    NodeIsInode(s1, d);
    LinkBound(s1, own, d, clean);
    var n := s1.cache[d].nlink - 1;
    RmdirRelinks(s1, own, d, c, n, clean);
    var s3 := Relinked(Relinked(s1, c, 0), d, n);
    RmdirSteps(Abs(s), Abs(s1), Renumbered(Abs(s1), c, 0), Abs(s3), d, q, name, c);
    DropDirLinks(Abs(s), Abs(s3), base, (d, q), c);
    assert Abs(s).ents[(d, q)].name == name;
  }

  lemma RmdirNodes(s: Fs, s1: Fs, base: nat, d: nat, q: nat, c: nat)
    requires Abs(s1) == Ns(Abs(s).nodes[c := Node(T_DIR, 1)], Abs(s).ents - {(d, q)}) && d != c && IsDir(Abs(s), d)
    ensures d in Abs(s1).nodes && Abs(s1).nodes[d] == Abs(s).nodes[d]
  {
    hide Abs;
  }

  // What the decrements make of a directory, whatever its count was

  function DropIn(cache: map<nat, Inode>, i: nat): (r: map<nat, Inode>)
    requires i in cache
    ensures r.Keys == cache.Keys
  {
    cache[i := BlockMap.Dirty(cache[i].(nlink := DropLink(cache[i].nlink)))]
  }

  /** The second decrement of the removed directory, and the one of its parent. */
  ghost function RemovedState(s: Fs, d: nat, c: nat): Fs
    requires c in s.cache && d in s.cache
  {
    s.(cache := DropIn(DropIn(s.cache, c), d))
  }

  /** Decrements of `c` in a successful rmdir: by the unlink, by rmdir itself, and as its own parent. */
  function Drops(d: nat, c: nat): nat { if c == d then 3 else 2 }

  lemma RemovedOwns(s: Fs, t: Fs, own: Owners, d: nat, c: nat)
    requires Owns(t, own) && c in t.cache && d in t.cache && Untouched(s, t, {d})
    ensures var u := RemovedState(t, d, c);
      Owns(u, own) && Untouched(s, u, {d}) && Slots(u, d) == Slots(t, d) && StraySame(t, own, u, own)
  {
    hide Owns, Elsewhere, Untouched, SameData, Slots, DropLink, StraySame;
    var t1 := Relinked(t, c, DropLink(t.cache[c].nlink));
    var u := Relinked(t1, d, DropLink(t1.cache[d].nlink));
    assert u == RemovedState(t, d, c);
    assert InUse(t, d) by { OwnsShape(t, own); }
    RelinkOwns(t, own, c, DropLink(t.cache[c].nlink));
    RelinkOwns(t1, own, d, DropLink(t1.cache[d].nlink));
    var none: set<nat> := {};
    UntouchedTransitive(t, t1, u, none, none);
    assert none + none == none;
    UntouchedAt(t, u, {}, d);
    SameDataSlots(t, u, d);
    UntouchedTransitive(s, t, u, {d}, {});
    assert {d} + {} == {d};
    BlockMap.StrayTransitive(t, own, t1, own, u, own);
  }

  /** The volume stays sound exactly when no decrement wrapped. */
  lemma RemovedSound(t: Fs, own: Owners, d: nat, c: nat, clean: bool)
    requires Sound(t, own, clean) && c in t.cache && d in t.cache && (c != d ==> t.cache[d].nlink > 0)
    ensures Sound(RemovedState(t, d, c), own, clean) <==> t.cache[c].nlink + 1 >= Drops(d, c)
  {
    hide Sound, Owns, Elsewhere, Slots;
    var t1 := Relinked(t, c, DropLink(t.cache[c].nlink));
    var u := Relinked(t1, d, DropLink(t1.cache[d].nlink));
    assert u == RemovedState(t, d, c);
    if t.cache[c].nlink + 1 >= Drops(d, c) {
      LinkBound(t, own, c, clean);
      RelinkLaw(t, own, c, DropLink(t.cache[c].nlink), clean);
      LinkBound(t1, own, d, clean);
      RelinkLaw(t1, own, d, DropLink(t1.cache[d].nlink), clean);
    } else if Sound(u, own, clean) {
      LinkBound(u, own, c, clean);
      assert false;
    }
  }

  /** A tree whose counts are right loses the directory, its dot entries and one link of the parent. */
  lemma RmdirRight(s: Fs, t: Fs, own: Owners, base: nat, d: nat, name: Name, c: nat, clean: bool)
    requires WellLinked(Abs(s), base) && Sound(t, own, clean) && Unlinked(Abs(s), Abs(t), d, name, c) && Nameable(name)
    requires LinkedDir(s, c) && |LiveFrom(Slots(s, c), 0)| <= 2 && d in t.cache && c in t.cache
    ensures var u := RemovedState(t, d, c);
      && c != d && u.cache[c].nlink == 0 && Sound(u, own, clean) && WellLinked(Abs(u), base)
      && RemovedDir(Abs(s), Abs(u), d, name, c)
  {
    hide Sound, Abs, Slots, WellLinked, LinkedDir, Unlinked, Nameable, LiveFrom, RemovedDir;
    RmdirAbs(s, t, own, base, d, name, c, clean);
    assert RemovedState(t, d, c) == Relinked(Relinked(t, c, 0), d, t.cache[d].nlink - 1);
  }

  /**
   `xv6fs_rmdir`: refuses a directory with more than two live entries; otherwise its
   entry goes, it loses two links and the parent one, on 32-bit counters.  It ends
   with no links exactly when it had two, and a count of one wraps; in a tree whose
   counts are right neither is in question.
   */
  method Rmdir(v: Volume, d: nat, name: Name, c: nat, ghost base: nat) returns (r: Result<()>)
    requires CanRemove(v, d, name, c) && LinkedDir(v.View(), c)
    modifies v`disk, v`cache, v`faults, v`nobuf, v`owner
    ensures Owns(v.View(), v.owner) && old(v.faults) <= v.faults && Untouched(old(v.View()), v.View(), {d})
    ensures r.Ok? ==>
      && v.faults == old(v.faults) && v.owner == old(v.owner) && |LiveFrom(Slots(old(v.View()), c), 0)| <= 2
      && v.cache == DropIn(DropIn(DropIn(old(v.cache), c), c), d)
      && v.View() == old(v.View()).(disk := v.disk, cache := v.cache)
      && exists q: nat :: NameCleared(Slots(old(v.View()), d), Slots(v.View(), d), name, q)
    ensures r.Ok? ==> (v.cache[c].nlink == 0 <==> old(v.cache[c].nlink) == Drops(d, c))
    ensures r.Ok? ==> (Sound(v.View(), v.owner, v.faults == 0) <==> old(v.cache[c].nlink) >= Drops(d, c))
    ensures r.Ok? && WellLinked(Abs(old(v.View())), base) && Nameable(name) ==>
      && c != d && Sound(v.View(), v.owner, v.faults == 0) && WellLinked(Abs(v.View()), base)
      && RemovedDir(Abs(old(v.View())), Abs(v.View()), d, name, c)
    ensures r.Err? ==> v.View() == old(v.View()) && Sound(v.View(), v.owner, v.faults == 0)
    ensures r.Err? ==>
      || (r.error == ENOTEMPTY && (v.faults > old(v.faults) || |LiveFrom(Slots(old(v.View()), c), 0)| > 2))
      || (r.error == ENOENT && Absent(Slots(old(v.View()), d), name))
      || (r.error == EIO && v.faults > old(v.faults))
    ensures |LiveFrom(Slots(old(v.View()), c), 0)| > 2 ==> r == Err(ENOTEMPTY)
    ensures StraySame(old(v.View()), old(v.owner), v.View(), v.owner)
  {
    hide Sound, Abs, LinkedDir, Slots, Owns, MetaMarked, Elsewhere, Decode, WellLinked, LiveFrom, Unlinked, Nameable;
    hide FoundAt, RemovedDir, Absent, NodeAt, Untouched, NameCleared, RemovedState, StraySame;
    ghost var s, own, clean := v.View(), v.owner, v.faults == 0;
    StrayItself(s, own);
    DirWalkable(s, own, c, clean);
    UntouchedStart(s, own, clean, {d});
    var empty := DirIsEmpty(v, c);
    SoundAfterRead(s, own, clean, v.faults == 0);
    if !empty {
      return Err(ENOTEMPTY);
    }
    var u := Unlink(v, d, name, c);
    ghost var t := v.View();
    SoundOwns(t, own, v.faults == 0);
    if u.Err? {
      return Err(u.error);
    }
    LinkedCount(s, d);
    RemovedOwns(s, t, own, d, c);
    RemovedSound(t, own, d, c, v.faults == 0);
    RemovedIs(t, d, c);
    BlockMap.StrayTransitive(s, own, t, own, RemovedState(t, d, c), own);
    if WellLinked(Abs(s), base) && Nameable(name) {
      RmdirRight(s, t, own, base, d, name, c, v.faults == 0);
    }
    v.cache := DropIn(v.cache, c);
    v.cache := DropIn(v.cache, d);
    return Ok(());
  }

  lemma RemovedIs(t: Fs, d: nat, c: nat)
    requires c in t.cache && d in t.cache
    ensures RemovedState(t, d, c) == t.(cache := DropIn(DropIn(t.cache, c), d))
  {
  }

  lemma LinkedCount(s: Fs, d: nat)
    requires LinkedDir(s, d) && d in s.cache
    ensures s.cache[d].nlink > 0
  {
    hide Decode;
  }

  /** What is left on disk of a directory whose count wrapped: still a directory, its count cut to 16 bits. */
  lemma WrappedOnDisk(n: Inode)
    requires n.kind == T_DIR
    ensures Kind(Encode(n)) == T_DIR && Decode(Encode(n)).nlink == n.nlink % U16
  {
    hide Encode, HalfAt, WordAt;
    EncodeFields(n);
    assert HalfAt(Encode(n), 0) == HalfField(n, 0) && HalfAt(Encode(n), 3) == HalfField(n, 3);
  }

  lemma CachedNotFree(s: Fs, own: Owners, i: nat, clean: bool)
    requires Sound(s, own, clean) && i in s.cache
    ensures i !in s.free && 0 < i < |s.table|
  {
    hide PointersOwned, OwnersPoint, MetaMarked, CleanCached, NoLeak, TableOnDisk, Widths;
    NotZero(s, i);
  }

  /**
   Removal and eviction, the VFS writing a linked inode back in between: the inode
   is free again if and only if it had exactly two links.  With one, as a directory
   made by xv6 itself has, it stays a directory with 65535 links that no entry need name.
   */
  method RmdirThenEvict(v: Volume, d: nat, name: Name, c: nat) returns (r: Result<()>)
    requires CanRemove(v, d, name, c) && LinkedDir(v.View(), c) && c != d
    modifies v`disk, v`table, v`free, v`freeCount, v`cache, v`faults, v`nobuf, v`owner
    ensures r.Ok? ==> (c in v.free <==> old(v.cache[c].nlink) == 2)
    ensures r.Ok? ==> (InUse(v.View(), c) <==> old(v.cache[c].nlink) != 2) && c !in v.cache
    ensures r.Ok? && old(v.cache[c].nlink) == 1 ==>
      c < |v.table| && Kind(v.table[c]) == T_DIR && Decode(v.table[c]).nlink == 65535
    ensures r.Err? ==> v.View() == old(v.View())
  {
    hide Sound, Abs, LinkedDir, Slots, Owns, MetaMarked, Elsewhere, Decode, Encode, WellLinked, LiveFrom, Nameable;
    hide FoundAt, RemovedDir, Absent, NodeAt, Untouched, NameCleared, Kind, DiskSlot, SetDiskSlot, CanRemove, Ino;
    hide HeldAt, SameBut;
    RemovableParts(v, d, name, c);
    ghost var s := v.View();
    r := Rmdir(v, d, name, c, 0);
    if r.Err? {
      return;
    }
    assert Shape(v.View()) by { OwnsShape(v.View(), v.owner); }
    assert v.cache[c].kind == T_DIR;
    WrappedOnDisk(v.cache[c]);
    if v.cache[c].nlink > 0 {
      var w := WriteInode(v, c);
    }
    EvictInode(v, c);
  }

  lemma RemovableParts(v: Volume, d: nat, name: Name, c: nat)
    requires CanRemove(v, d, name, c) && LinkedDir(v.View(), c)
    ensures c in v.cache && d in v.cache && v.cache[c].kind == T_DIR && c !in v.free && 0 < c < |v.table|
  {
    hide Sound, LinkedDir, Slots;
    CachedNotFree(v.View(), v.owner, c, v.faults == 0);
    DirKind(v.View(), c);
  }

  /** The failing input: one link, which two decrements take to 2^32 - 1, and the codec to 65535. */
  lemma OneLinkWraps(s: Fs, own: Owners, c: nat, clean: bool)
    requires Sound(s, own, clean) && c in s.cache && s.cache[c].kind == T_DIR
    ensures var t := Relinked(s, c, 1);
      && Sound(t, own, clean) && DropLink(DropLink(t.cache[c].nlink)) == U32 - 1
      && Decode(Encode(t.cache[c].(nlink := DropLink(DropLink(t.cache[c].nlink))))).nlink == 65535
  {
    hide Sound, Owns, Elsewhere, Slots, Decode, Encode, InUse;
    RelinkLaw(s, own, c, 1, clean);
    WrappedOnDisk(Relinked(s, c, 1).cache[c].(nlink := U32 - 1));
  }

  // -------------------------------------------------------------------- mkdir

  /** Between the steps of `xv6fs_mkdir`: the new directory `i` is in core and dirty, and the name space is `ns`. */
  ghost predicate Making(t: Fs, own: Owners, clean: bool, d: nat, i: nat, nlink: nat, ns: Ns) {
    && Sound(t, own, clean) && i != d && 0 < i < U16 && 0 < d < U16
    && i in t.cache && t.cache[i].dirty && LinkedDir(t, i)
    && d in t.cache && LinkedDir(t, d) && t.cache[d].nlink == nlink
    && Abs(t) == ns
  }

  lemma MakingStarts(s: Fs, own: Owners, d: nat, clean: bool)
    requires Sound(s, own, clean) && |s.free| > 0 && s.freeCount > 0 && d in s.cache && LinkedDir(s, d)
    ensures Making(NewState(s, true), own, clean, d, s.free[0], s.cache[d].nlink,
                   Ns(Abs(s).nodes[s.free[0] := Node(T_DIR, 2)], Abs(s).ents))
    ensures Slots(NewState(s, true), s.free[0]) == [] && s.free[0] !in Abs(s).nodes
    ensures Slots(NewState(s, true), d) == Slots(s, d)
  {
    hide Sound, Abs, LinkedDir, NodeAt, Slots, Decode;
    Born(s, own, true, clean);
    NewKeepsDir(s, own, true, d, clean);
    SmallNumber(s, own, d, clean);
  }

  lemma SmallNumber(s: Fs, own: Owners, d: nat, clean: bool)
    requires Sound(s, own, clean) && d in s.cache
    ensures 0 < d < U16
  {
    hide PointersOwned, OwnersPoint, MetaMarked, CleanCached, NoLeak, TableOnDisk, Widths;
    NotZero(s, d);
  }

  /** Adding an entry to `e`, the new directory or its parent. */
  lemma MakingAdds(t: Fs, own: Owners, u: Fs, own': Owners, clean: bool, clean': bool, d: nat, i: nat, nlink: nat,
                   ns: Ns, e: nat, name: Name, inum: nat, p: nat)
    requires Making(t, own, clean, d, i, nlink, ns) && (clean' ==> clean) && (e == d || e == i) && 0 < inum < U16
    requires AddPost(t, own, u, own', e, name, inum, Ok(p)) && ValidName(name)
    ensures Making(u, own', clean', d, i, nlink, Ns(ns.nodes, ns.ents[(e, p) := Entry(name, inum)]))
    ensures (e, p) !in ns.ents && FreeSlot(Slots(t, e), p)
    ensures Slots(u, e) == PutSlot(Slots(t, e), p, NewDirent(name, inum))
  {
    hide Sound, Abs, Slots, Decode, Owns, Others, Elsewhere, StraySame, Live, CName, LinkedDir, FreeSlot;
    DirWalkable(t, own, e, clean);
    AddSound(t, own, u, own', e, name, inum, Ok(p), clean, clean');
    SoundOwns(t, own, clean);
    Added(t, own, u, own', e, name, inum, p);
    MakingKeeps(t, own, u, own', d, i, e, name, inum, Ok(p));
  }

  lemma MakingFails(t: Fs, own: Owners, u: Fs, own': Owners, clean: bool, clean': bool, d: nat, i: nat, nlink: nat,
                    ns: Ns, e: nat, name: Name, inum: nat, err: Errno)
    requires Making(t, own, clean, d, i, nlink, ns) && (clean' ==> clean) && (e == d || e == i)
    requires AddPost(t, own, u, own', e, name, inum, Err(err))
    ensures Making(u, own', clean', d, i, nlink, ns)
  {
    hide Sound, Abs, Slots, Decode, Owns, Others, Elsewhere, StraySame, Live, LinkedDir;
    DirWalkable(t, own, e, clean);
    AddSound(t, own, u, own', e, name, inum, Err(err), clean, clean');
    SoundOwns(t, own, clean);
    AddFailedQuiet(t, own, u, own', e, name, inum, err);
    MakingKeeps(t, own, u, own', d, i, e, name, inum, Err(err));
  }

  lemma MakingKeeps(t: Fs, own: Owners, u: Fs, own': Owners, d: nat, i: nat, e: nat, name: Name, inum: nat,
                    r: Result<nat>)
    requires Shape(t) && AddPost(t, own, u, own', e, name, inum, r) && (e == d || e == i) && d != i
    requires i in t.cache && t.cache[i].dirty && d in t.cache && LinkedDir(t, i) && LinkedDir(t, d)
    ensures i in u.cache && u.cache[i].dirty && d in u.cache && LinkedDir(u, i) && LinkedDir(u, d)
    ensures u.cache[d].nlink == t.cache[d].nlink
  {
    hide Owns, Slots, StraySame, FreeSlot, Decode, PutSlot;
  }

  /** Abandoning the new directory takes its entries along and leaves the name space as it was. */
  lemma MakingUndone(ns: Ns, ns': Ns, i: nat)
    requires Closed(ns) && i !in ns.nodes && ns'.nodes == ns.nodes[i := Node(T_DIR, 2)]
    requires forall x :: x in ns'.ents && x.0 != i ==> x in ns.ents && ns'.ents[x] == ns.ents[x]
    requires forall x :: x in ns.ents ==> x in ns'.ents
    ensures Renumbered(ns', i, 0) == ns
  {
    assert forall x :: x in ns.ents ==> x.0 != i;
    assert Renumbered(ns', i, 0).ents == ns.ents;
  }

  ghost function MadeNs(ns: Ns, x: Place, name: Name, i: nat): Ns {
    Ns(ns.nodes[i := Node(T_DIR, 2)],
       ns.ents[(i, 0) := Entry(Dot(), i)][(i, 1) := Entry(DotDot(), x.0)][x := Entry(name, i)])
  }

  lemma MadePuts(ns: Ns, x: Place, name: Name, i: nat)
    requires Closed(ns) && Addable(ns, x, name) && i !in ns.nodes
    ensures x.0 in MadeNs(ns, x, name, i).nodes && x.0 != i
    ensures PutDir(ns, Renumbered(MadeNs(ns, x, name, i), x.0, ns.nodes[x.0].nlink + 1), x, name, i)
  {
    hide Plain, Has;
    var ns' := Renumbered(MadeNs(ns, x, name, i), x.0, ns.nodes[x.0].nlink + 1);
    assert ns'.nodes == ns.nodes[x.0 := Node(T_DIR, ns.nodes[x.0].nlink + 1)][i := Node(T_DIR, 2)];
  }

  lemma MadeKids(ns: Ns, x: Place, name: Name, i: nat)
    requires Closed(ns) && Addable(ns, x, name) && i !in ns.nodes
    ensures |ChildDirs(MadeNs(ns, x, name, i), x.0)| == |ChildDirs(ns, x.0)| + 1
  {
    hide Plain, PutDir, Addable, IsDir;
    MadePuts(ns, x, name, i);
    var made := MadeNs(ns, x, name, i);
    var ns' := Renumbered(made, x.0, ns.nodes[x.0].nlink + 1);
    PutDirSame(ns, ns', x, name, i);
    SameDirs(made, ns', x.0);
    assert ChildDirs(ns', x.0) == ChildDirs(made, x.0);
  }

  lemma SameDirs(ns: Ns, ns': Ns, d: nat)
    requires d in ns.nodes && d in ns'.nodes
    requires ns' == Ns(ns.nodes[d := Node(ns.nodes[d].kind, ns'.nodes[d].nlink)], ns.ents)
    ensures forall j :: IsDir(ns', j) <==> IsDir(ns, j)
    ensures forall x :: NamesDir(ns', x) <==> NamesDir(ns, x)
  {
  }

  /** The parent has room for one more link: its children, the new one included, fit in its slots. */
  lemma ParentRoom(s: Fs, u: Fs, base: nat, x: Place, name: Name, i: nat)
    requires WellLinked(Abs(s), base) && Addable(Abs(s), x, name) && i !in Abs(s).nodes && base + MAXSLOTS - 2 < U16
    requires Abs(u) == MadeNs(Abs(s), x, name, i)
    ensures Abs(s).nodes[x.0].nlink + 1 < U16
  {
    hide Abs, UniqueNames, Parents, FileCounts, Plain, ChildDirs, Dots, NamesDir;
    var a, b := DotPlaces(Abs(s), base, x.0);
    assert x.0 != i && a != x && b != x;
    assert Has(Abs(u), x.0, Dot(), a) && Has(Abs(u), x.0, DotDot(), b);
    ChildBound(u, x.0, a, b);
    MadeKids(Abs(s), x, name, i);
  }

  lemma MkdirEnds(s: Fs, u: Fs, own: Owners, clean: bool, base: nat, d: nat, p: nat, name: Name, i: nat, nlink: nat)
    requires WellLinked(Abs(s), base) && Addable(Abs(s), (d, p), name)
    requires i !in Abs(s).nodes && base + MAXSLOTS - 2 < U16
    requires Making(u, own, clean, d, i, nlink, MadeNs(Abs(s), (d, p), name, i)) && nlink == Abs(s).nodes[d].nlink
    ensures nlink + 1 < U16
    ensures var w := Relinked(u, d, nlink + 1);
      Sound(w, own, clean) && PutDir(Abs(s), Abs(w), (d, p), name, i) && WellLinked(Abs(w), base)
  {
    hide Sound, Abs, Slots, Decode, Owns, Elsewhere, WellLinked, PutDir, Addable, MadeNs, Renumbered, Closed;
    ParentRoom(s, u, base, (d, p), name, i);
    WellLinkedClosed(Abs(s), base);
    MadePuts(Abs(s), (d, p), name, i);
    RelinkLaw(u, own, d, nlink + 1, clean);
    SoundOwns(u, own, clean);
    Relink(u, own, d, nlink + 1);
    PutDirLinks(Abs(s), Abs(Relinked(u, d, nlink + 1)), base, (d, p), name, i);
  }

  lemma WellLinkedClosed(ns: Ns, base: nat)
    requires WellLinked(ns, base)
    ensures Closed(ns)
  {
  }

  lemma FirstSlots(e: Dirent, p: nat)
    ensures FreeSlot([], p) ==> p == 0
    ensures FreeSlot([e], p) && Live(e) ==> p == 1
  {
  }

  /** The `fail` label of `xv6fs_mkdir`. */
  method UndoMkdir(v: Volume, i: nat, ghost s: Fs, ghost own: Owners, ghost d: nat, ghost nlink: nat, ghost ns: Ns,
                   ghost base: nat, ghost touched: set<nat>)
    requires Making(v.View(), v.owner, v.faults == 0, d, i, nlink, ns) && WellLinked(Abs(s), base) && i !in Abs(s).nodes
    requires ns.nodes == Abs(s).nodes[i := Node(T_DIR, 2)]
    requires forall x :: x in ns.ents && x.0 != i ==> x in Abs(s).ents && ns.ents[x] == Abs(s).ents[x]
    requires forall x :: x in Abs(s).ents ==> x in ns.ents
    requires Untouched(s, v.View(), touched) && !InUse(s, i) && StraySame(s, own, v.View(), v.owner)
    requires DirKept(s, v.View(), d)
    modifies v`disk, v`table, v`free, v`freeCount, v`cache, v`faults, v`owner
    ensures Sound(v.View(), v.owner, v.faults == 0) && old(v.faults) <= v.faults && Abs(v.View()) == Abs(s)
    ensures Untouched(s, v.View(), touched) && DirKept(s, v.View(), d)
    ensures v.faults == old(v.faults) ==> StraySame(s, own, v.View(), v.owner)
  {
    hide Sound, Abs, LinkedDir, NodeAt, WellLinked, Closed, Freed, Decode, InUse, Untouched, StraySame, GaveBack;
    hide DirKept;
    StillLinked(v.View(), i);
    WellLinkedClosed(Abs(s), base);
    ghost var u, ownU := v.View(), v.owner;
    SoundOwns(u, ownU, v.faults == 0);
    Abandon(v, i);
    KeptApart(s, u, ownU, v.View(), v.owner, d, i);
    MakingUndone(Abs(s), ns, i);
    DropUntouched(s, u, ownU, v.View(), v.owner, touched, i);
    if v.faults == old(v.faults) {
      BlockMap.StrayTransitive(s, own, u, ownU, v.View(), v.owner);
    }
  }

  lemma MakingReady(t: Fs, own: Owners, clean: bool, d: nat, i: nat, nlink: nat, ns: Ns)
    requires Making(t, own, clean, d, i, nlink, ns)
    ensures Owns(t, own) && MetaMarked(t) && i in t.cache && d in t.cache && Walkable(t, i) && Walkable(t, d)
    ensures i != d && 0 < i < U16 && 0 < d < U16 && t.cache[d].nlink == nlink
  {
    hide Sound, Abs, LinkedDir, Owns, MetaMarked, Walkable;
    DirWalkable(t, own, i, clean);
    DirWalkable(t, own, d, clean);
  }

  // Room: what the two dot entries and the entry in the parent take

  /** An empty directory needs a block for its first entry, and none for the second. */
  lemma DotNeeds(t: Fs, i: nat, e: Dirent)
    ensures i in t.cache && t.cache[i] == FreshInode(true) && Slots(t, i) == [] ==> AddNeed(t, i) == 1
    ensures Slots(t, i) == [e] && Live(e) ==> AddNeed(t, i) == 0
  {
    hide Decode, WordAt, DirentAt;
    if Slots(t, i) == [] {
      AddNeedAt(t, i, 0);
    }
    if Slots(t, i) == [e] && Live(e) {
      AddNeedAt(t, i, 1);
      assert Slots(t, i)[0] == Slot(t, i, 0) == e;
    }
  }

  /** A dot entry that cannot be made is a failure of the whole operation with the same cause. */
  lemma DotCause(s: Fs, d: nat, name: Name, t: Fs, i: nat, dot: Name, e: Errno, unreadable: bool)
    requires AddCause(t, i, dot, AddNeed(t, i), e, unreadable) && |Slots(t, i)| < MAXSLOTS && |dot| <= DIRSIZ
    requires FreeData(s) <= FreeData(t) + 1 - AddNeed(t, i)
    ensures AddCause(s, d, name, 1 + AddNeed(s, d), e, unreadable)
  {
    hide Slots, AddNeed, FreeData;
  }

  /** So is the entry in the parent, one block having gone to the dot entries. */
  lemma LastCause(s: Fs, t: Fs, d: nat, name: Name)
    requires SameData(s, t, d) && FreeData(s) == FreeData(t) + 1
    ensures HasRoom(t, d, name, AddNeed(t, d)) ==> HasRoom(s, d, name, 1 + AddNeed(s, d))
    ensures forall e, unreadable :: AddCause(t, d, name, AddNeed(t, d), e, unreadable) ==>
      AddCause(s, d, name, 1 + AddNeed(s, d), e, unreadable)
  {
    hide Slots, AddNeed, FreeData, SameData;
    SameNeed(s, t, d);
  }

  /** An add to the new directory touches no inode that was in use before. */
  lemma MakingUntouched(s: Fs, t: Fs, own: Owners, u: Fs, own': Owners, i: nat, name: Name, inum: nat, r: Result<nat>)
    requires Untouched(s, t, {}) && !InUse(s, i) && Owns(t, own) && AddPost(t, own, u, own', i, name, inum, r)
    ensures Untouched(s, u, {})
  {
    AddElsewhere(t, own, u, own', i, name, inum, r);
    hide Owns, AddPost, InUse, Elsewhere, Untouched;
    AddUntouched(s, t, own, u, own', i);
    var none: set<nat> := {};
    assert none + {i} == {i};
    UntouchedNew(s, u, none, i);
  }

  lemma AddElsewhere(t: Fs, own: Owners, u: Fs, own': Owners, i: nat, name: Name, inum: nat, r: Result<nat>)
    requires Owns(t, own) && AddPost(t, own, u, own', i, name, inum, r)
    ensures Elsewhere(t, own, u, own', i)
  {
    OwnsShape(t, own);
    hide Owns, Slots, StraySame, FreeSlot, Others, Elsewhere, PutSlot;
    OthersElsewhere(t, own, u, own', i);
  }

  /** A directory in the making: all its fields but the addresses, with `k` entries. */
  ghost predicate NewDir(s: Fs, i: nat, k: nat) {
    && i in s.cache && s.cache[i].kind == 1 && s.cache[i].nlink == 2 && s.cache[i].size == 16 * k
    && s.cache[i].major == 0 && s.cache[i].minor == 0
  }

  lemma NewDirAdds(s: Fs, own: Owners, u: Fs, own': Owners, d: nat, i: nat, e: nat, name: Name, inum: nat, p: nat,
                   k: nat)
    requires Owns(s, own) && AddPost(s, own, u, own', e, name, inum, Ok(p)) && NewDir(s, i, k)
    ensures e == i && |Slots(u, i)| == k + 1 ==> NewDir(u, i, k + 1)
    ensures e != i ==> NewDir(u, i, k) && Slots(u, i) == Slots(s, i)
  {
    hide Owns, Slots, StraySame, FreeSlot, OwnersElsewhere, InUse;
    if e != i {
      OwnsShape(s, own);
      CachedInUse(s, i);
      AddElsewhere(s, own, u, own', e, name, inum, Ok(p));
      ElsewhereSlots(s, own, u, own', e, i);
    }
  }

  ghost predicate SameDir(s: Fs, t: Fs, d: nat) {
    d in s.cache && d in t.cache && t.cache[d] == s.cache[d] && Slots(t, d) == Slots(s, d)
  }

  /** The entries of the new directory leave the parent alone. */
  lemma ParentStays(s: Fs, t: Fs, own: Owners, u: Fs, own': Owners, d: nat, i: nat, dot: Name, inum: nat,
                    r: Result<nat>)
    requires SameDir(s, t, d) && Owns(t, own) && AddPost(t, own, u, own', i, dot, inum, r) && d != i
    ensures SameDir(s, u, d) && DirKept(s, u, d)
  {
    hide Slots, Owns, FreeSlot, StraySame, OwnersElsewhere, InUse;
    OwnsShape(t, own);
    CachedInUse(t, d);
    AddElsewhere(t, own, u, own', i, dot, inum, r);
    ElsewhereSlots(t, own, u, own', i, d);
  }

  /** What a new directory lists: itself under "." and its parent under "..". */
  lemma DotsListed(ds: seq<Dirent>, i: nat, d: nat)
    requires 0 < i < U16 && 0 < d < U16 && ds == [NewDirent(Dot(), i), NewDirent(DotDot(), d)]
    ensures ds == [NewDirent([46], i), NewDirent([46, 46], d)] && Live(ds[0]) && Live(ds[1])
    ensures DirMap.Lookup(ds, [46]) == Some(i) && DirMap.Lookup(ds, [46, 46]) == Some(d)
  {
    hide CName, DirMap.Lookup, Padded;
    NameRoundTrip([46]);
    NameRoundTrip([46, 46]);
    DirMap.LookupMeaning(ds, [46]);
    DirMap.LookupMeaning(ds, [46, 46]);
    assert FoundAt(ds, [46], 0) && FoundAt(ds, [46, 46], 1);
  }

  /**
   `xv6fs_mkdir`: an inode, a block for its dot entries, and an entry in the parent,
   which gains a link.  Every failure has one of the listed causes and is undone.
   */
  method Mkdir(v: Volume, d: nat, name: Name, ghost base: nat) returns (r: Result<nat>)
    requires CanEnter(v, base, d, name)
    modifies v`disk, v`table, v`free, v`freeCount, v`cache, v`faults, v`nobuf, v`oom, v`owner
    ensures Valid(v, base) && old(v.faults) <= v.faults && Untouched(old(v.View()), v.View(), {d})
    ensures r.Ok? ==>
      r.value in v.cache && exists p: nat :: PutDir(Abs(old(v.View())), Abs(v.View()), (d, p), name, r.value)
    ensures r.Ok? ==>
      && NewDir(v.View(), r.value, 2) && NameWritten(old(v.View()), v.View(), d, name, r.value, 1)
      && Slots(v.View(), r.value) == [NewDirent([46], r.value), NewDirent([46, 46], d)]
      && DirMap.Lookup(Slots(v.View(), r.value), [46]) == Some(r.value)
      && DirMap.Lookup(Slots(v.View(), r.value), [46, 46]) == Some(d)
    ensures r.Ok? ==>
      && HasRoom(old(v.View()), d, name, 1 + AddNeed(old(v.View()), d)) && old(v.free) != []
      && v.faults == old(v.faults) && v.oom == old(v.oom)
    ensures r.Err? ==> Abs(v.View()) == Abs(old(v.View())) && DirKept(old(v.View()), v.View(), d)
    ensures r.Err? ==>
      || InodeCause(old(v.View()), r.error, v.oom > old(v.oom))
      || AddCause(old(v.View()), d, name, 1 + AddNeed(old(v.View()), d), r.error, v.faults > old(v.faults))
    ensures v.faults == old(v.faults) ==> StraySame(old(v.View()), old(v.owner), v.View(), v.owner)
    ensures old(v.oom) <= v.oom
  {
    hide Sound, WellLinked, Abs, LinkedDir, NodeAt, Slots, AddPost, Owns, MetaMarked, Absent, Making, Walkable;
    hide PutDir;
    hide FreeSlot, Nameable, Addable, Padded, Dot, DotDot, AddNeed, FreeData, HasRoom, AddCause, Untouched;
    hide SameData, InUse, StraySame, NameWritten, EntryBytes, DirKept;
    ghost var s, own, clean, f0 := v.View(), v.owner, v.faults == 0, v.faults;
    ghost var nlink := v.cache[d].nlink;
    SoundList(s, own, clean);
    StrayItself(s, own);
    var n := NewInode(v, true);
    if n.Err? {
      DirKeptSelf(s, d);
      UntouchedStart(s, own, clean, {d});
      return Err(n.error);
    }
    var ino := n.value;
    MakingStarts(s, own, d, clean);
    NewKeepsDir(s, own, true, d, clean);
    ghost var ns := Ns(Abs(s).nodes[ino := Node(T_DIR, 2)], Abs(s).ents);
    DotNames();

    ghost var t, own1, clean1 := v.View(), v.owner, v.faults == 0;
    MakingReady(t, own1, clean1, d, ino, nlink, ns);
    DotNeeds(t, ino, FreeDirent());
    var a := AddEntry(v, ino, Dot(), ino);
    AddCauses(t, own1, v.View(), v.owner, ino, Dot(), ino, a, v.faults > f0);
    MakingUntouched(s, t, own1, v.View(), v.owner, ino, Dot(), ino, a);
    AddStray(s, own, t, own1, v.View(), v.owner, ino, Dot(), ino, a);
    if a.Err? {
      DotCause(s, d, name, t, ino, Dot(), a.error, v.faults > f0);
      MakingFails(t, own1, v.View(), v.owner, clean1, v.faults == 0, d, ino, nlink, ns, ino, Dot(), ino, a.error);
      ghost var f1 := v.faults;
      ParentStays(s, t, own1, v.View(), v.owner, d, ino, Dot(), ino, a);
      UndoMkdir(v, ino, s, own, d, nlink, ns, base, {});
      UntouchedMore(s, v.View(), {}, {d});
      CauseStays(s, d, name, 1 + AddNeed(s, d), a.error, f1 > f0, v.faults > f0);
      return Err(a.error);
    }
    MakingAdds(t, own1, v.View(), v.owner, clean1, v.faults == 0, d, ino, nlink, ns, ino, Dot(), ino, a.value);
    FirstSlots(NewDirent(Dot(), ino), a.value);
    ns := Ns(ns.nodes, ns.ents[(ino, 0) := Entry(Dot(), ino)]);

    NewDirAdds(t, own1, v.View(), v.owner, d, ino, ino, Dot(), ino, a.value, 0);
    ParentStays(s, t, own1, v.View(), v.owner, d, ino, Dot(), ino, a);
    r := MkdirRest(v, d, name, ino, s, own, nlink, ns, base);
    if r.Ok? {
      DotsListed(Slots(v.View(), ino), ino, d);
    }
  }

  /** The second half of `xv6fs_mkdir`: ".." in the new directory, then its entry in the parent. */
  method MkdirRest(v: Volume, d: nat, name: Name, ino: nat, ghost s: Fs, ghost own: Owners, ghost nlink: nat,
                   ghost ns: Ns, ghost base: nat)
    returns (r: Result<nat>)
    requires v.steady && WellLinked(Abs(s), base) && base + MAXSLOTS - 2 < U16 && ino !in Abs(s).nodes
    requires d in s.cache && LinkedDir(s, d) && s.cache[d].nlink == nlink && Nameable(name) && Absent(Slots(s, d), name)
    requires ns == Ns(Abs(s).nodes[ino := Node(T_DIR, 2)], Abs(s).ents[(ino, 0) := Entry(Dot(), ino)])
    requires Making(v.View(), v.owner, v.faults == 0, d, ino, nlink, ns)
    requires Slots(v.View(), ino) == [NewDirent(Dot(), ino)] && Live(NewDirent(Dot(), ino)) && NewDir(v.View(), ino, 1)
    requires Untouched(s, v.View(), {}) && !InUse(s, ino) && FreeData(s) == FreeData(v.View()) + 1
    requires StraySame(s, own, v.View(), v.owner) && SameDir(s, v.View(), d)
    modifies v`disk, v`table, v`free, v`freeCount, v`cache, v`faults, v`nobuf, v`owner
    ensures Valid(v, base) && old(v.faults) <= v.faults && Untouched(s, v.View(), {d})
    ensures r.Ok? ==>
      r.value == ino && ino in v.cache && exists p: nat :: PutDir(Abs(s), Abs(v.View()), (d, p), name, ino)
    ensures r.Ok? ==>
      Slots(v.View(), ino) == [NewDirent(Dot(), ino), NewDirent(DotDot(), d)] && NewDir(v.View(), ino, 2)
    ensures r.Ok? ==> HasRoom(s, d, name, 1 + AddNeed(s, d)) && v.faults == old(v.faults)
    ensures r.Ok? ==> NameWritten(s, v.View(), d, name, ino, 1)
    ensures r.Err? ==> Abs(v.View()) == Abs(s) && DirKept(s, v.View(), d)
    ensures r.Err? ==> AddCause(s, d, name, 1 + AddNeed(s, d), r.error, v.faults > old(v.faults))
    ensures v.faults == old(v.faults) ==> StraySame(s, own, v.View(), v.owner)
  {
    hide Sound, WellLinked, Abs, LinkedDir, NodeAt, Slots, AddPost, Owns, MetaMarked, Absent, Making, Walkable;
    hide PutDir;
    hide FreeSlot, Live, Nameable, Addable, Padded, Dot, DotDot, MadeNs;
    hide AddNeed, FreeData, HasRoom, AddCause, Untouched, SameData, InUse, StraySame;
    hide NameWritten, EntryBytes, DirKept;
    DotNames();
    ghost var t, own1, clean1, f0 := v.View(), v.owner, v.faults == 0, v.faults;
    MakingReady(t, own1, clean1, d, ino, nlink, ns);
    DotNeeds(t, ino, NewDirent(Dot(), ino));
    var a := AddEntry(v, ino, DotDot(), d);
    AddCauses(t, own1, v.View(), v.owner, ino, DotDot(), d, a, v.faults > f0);
    MakingUntouched(s, t, own1, v.View(), v.owner, ino, DotDot(), d, a);
    AddStray(s, own, t, own1, v.View(), v.owner, ino, DotDot(), d, a);
    if a.Err? {
      DotCause(s, d, name, t, ino, DotDot(), a.error, v.faults > f0);
      MakingFails(t, own1, v.View(), v.owner, clean1, v.faults == 0, d, ino, nlink, ns, ino, DotDot(), d, a.error);
      ghost var f1 := v.faults;
      ParentStays(s, t, own1, v.View(), v.owner, d, ino, DotDot(), d, a);
      UndoMkdir(v, ino, s, own, d, nlink, ns, base, {});
      UntouchedMore(s, v.View(), {}, {d});
      CauseStays(s, d, name, 1 + AddNeed(s, d), a.error, f1 > f0, v.faults > f0);
      return Err(a.error);
    }
    MakingAdds(t, own1, v.View(), v.owner, clean1, v.faults == 0, d, ino, nlink, ns, ino, DotDot(), d, a.value);
    FirstSlots(NewDirent(Dot(), ino), a.value);
    NewDirAdds(t, own1, v.View(), v.owner, d, ino, ino, DotDot(), d, a.value, 1);
    ParentStays(s, t, own1, v.View(), v.owner, d, ino, DotDot(), d, a);
    r := MkdirEntry(v, d, name, ino, s, own, nlink, Ns(ns.nodes, ns.ents[(ino, 1) := Entry(DotDot(), d)]), base);
  }

  /** The end of `xv6fs_mkdir`: the entry in the parent, and the parent's link. */
  method MkdirEntry(v: Volume, d: nat, name: Name, ino: nat, ghost s: Fs, ghost own: Owners, ghost nlink: nat,
                    ghost ns: Ns, ghost base: nat)
    returns (r: Result<nat>)
    requires v.steady && WellLinked(Abs(s), base) && base + MAXSLOTS - 2 < U16 && ino !in Abs(s).nodes
    requires d in s.cache && LinkedDir(s, d) && s.cache[d].nlink == nlink && Nameable(name) && Absent(Slots(s, d), name)
    requires ns == Ns(Abs(s).nodes[ino := Node(T_DIR, 2)],
                      Abs(s).ents[(ino, 0) := Entry(Dot(), ino)][(ino, 1) := Entry(DotDot(), d)])
    requires Slots(v.View(), ino) == [NewDirent(Dot(), ino), NewDirent(DotDot(), d)] && NewDir(v.View(), ino, 2)
    requires Making(v.View(), v.owner, v.faults == 0, d, ino, nlink, ns)
    requires Untouched(s, v.View(), {}) && !InUse(s, ino) && FreeData(s) == FreeData(v.View()) + 1
    requires StraySame(s, own, v.View(), v.owner) && SameDir(s, v.View(), d)
    modifies v`disk, v`table, v`free, v`freeCount, v`cache, v`faults, v`nobuf, v`owner
    ensures Valid(v, base) && old(v.faults) <= v.faults && Untouched(s, v.View(), {d})
    ensures r.Ok? ==>
      r.value == ino && ino in v.cache && exists p: nat :: PutDir(Abs(s), Abs(v.View()), (d, p), name, ino)
    ensures r.Ok? ==>
      Slots(v.View(), ino) == [NewDirent(Dot(), ino), NewDirent(DotDot(), d)] && NewDir(v.View(), ino, 2)
    ensures r.Ok? ==> HasRoom(s, d, name, 1 + AddNeed(s, d)) && v.faults == old(v.faults)
    ensures r.Ok? ==> NameWritten(s, v.View(), d, name, ino, 1)
    ensures r.Err? ==> Abs(v.View()) == Abs(s) && DirKept(s, v.View(), d)
    ensures r.Err? ==> AddCause(s, d, name, 1 + AddNeed(s, d), r.error, v.faults > old(v.faults))
    ensures v.faults == old(v.faults) ==> StraySame(s, own, v.View(), v.owner)
  {
    hide Sound, WellLinked, Abs, LinkedDir, NodeAt, Slots, AddPost, Owns, MetaMarked, Absent, Making, Walkable;
    hide PutDir;
    hide FreeSlot, Live, Nameable, Addable, Padded, Dot, DotDot, MadeNs;
    hide AddNeed, FreeData, HasRoom, AddCause, Untouched, SameData, InUse, Elsewhere, StraySame;
    hide NameWritten, EntryBytes, DirKept;
    ghost var t, own1, clean1, f0 := v.View(), v.owner, v.faults == 0, v.faults;
    MakingReady(t, own1, clean1, d, ino, nlink, ns);
    InUseDir(s, d);
    UntouchedAt(s, t, {}, d);
    LastCause(s, t, d, name);
    var a := AddEntry(v, d, name, ino);
    AddCauses(t, own1, v.View(), v.owner, d, name, ino, a, v.faults > f0);
    AddElsewhere(t, own1, v.View(), v.owner, d, name, ino, a);
    AddUntouched(s, t, own1, v.View(), v.owner, d);
    AddStray(s, own, t, own1, v.View(), v.owner, d, name, ino, a);
    if a.Err? {
      MakingFails(t, own1, v.View(), v.owner, clean1, v.faults == 0, d, ino, nlink, ns, d, name, ino, a.error);
      ghost var f1 := v.faults;
      NameNotWritten(s, t, own1, v.View(), v.owner, d, name, ino, a.error);
      UndoMkdir(v, ino, s, own, d, nlink, ns, base, {d});
      CauseStays(s, d, name, 1 + AddNeed(s, d), a.error, f1 > f0, v.faults > f0);
      return Err(a.error);
    }
    NewDirAdds(t, own1, v.View(), v.owner, d, ino, d, name, ino, a.value, 2);
    AddedName(t, own1, v.View(), v.owner, d, name, ino, a.value);
    MakingAdds(t, own1, v.View(), v.owner, clean1, v.faults == 0, d, ino, nlink, ns, d, name, ino, a.value);
    MadeHere(s, ns, d, a.value, name, ino, nlink);
    ghost var p := a.value;
    MkdirEnds(s, v.View(), v.owner, v.faults == 0, base, d, p, name, ino, nlink);
    MakingReady(v.View(), v.owner, v.faults == 0, d, ino, nlink, MadeNs(Abs(s), (d, p), name, ino));
    MakingRelinks(s, v.View(), v.owner, v.faults == 0, d, ino, nlink, MadeNs(Abs(s), (d, p), name, ino));
    BlockMap.StrayTransitive(s, own, v.View(), v.owner, Relinked(v.View(), d, nlink + 1), v.owner);
    RelinkElsewhere(v.View(), d, nlink + 1, ino);
    NameIsWritten(s, t, own1, v.View(), v.owner, d, name, ino, a.value);
    RelinkWritten(s, v.View(), d, name, ino, d);
    v.cache := v.cache[d := BlockMap.Dirty(v.cache[d].(nlink := v.cache[d].nlink + 1))];
    return Ok(ino);
  }

  lemma RelinkElsewhere(s: Fs, d: nat, n: nat, i: nat)
    requires d in s.cache && i != d
    ensures Slots(Relinked(s, d, n), i) == Slots(s, i)
  {
    hide WordAt, DirentAt, Decode;
    assert forall p: nat :: Slot(Relinked(s, d, n), i, p) == Slot(s, i, p);
  }

  lemma InUseDir(s: Fs, d: nat)
    requires LinkedDir(s, d)
    ensures InUse(s, d)
  {
  }

  lemma MakingRelinks(s: Fs, u: Fs, own: Owners, clean: bool, d: nat, i: nat, nlink: nat, ns: Ns)
    requires Making(u, own, clean, d, i, nlink, ns) && Untouched(s, u, {d})
    ensures Untouched(s, Relinked(u, d, nlink + 1), {d}) && StraySame(u, own, Relinked(u, d, nlink + 1), own)
  {
    hide Sound, Untouched, LinkedDir, Abs, StraySame;
    RelinkUntouched(s, u, own, {d}, d, nlink + 1, clean);
  }

  lemma MadeHere(s: Fs, ns3: Ns, d: nat, p: nat, name: Name, i: nat, nlink: nat)
    requires d in s.cache && LinkedDir(s, d) && s.cache[d].nlink == nlink && Nameable(name) && Absent(Slots(s, d), name)
    requires ns3 == Ns(Abs(s).nodes[i := Node(T_DIR, 2)],
                       Abs(s).ents[(i, 0) := Entry(Dot(), i)][(i, 1) := Entry(DotDot(), d)])
    requires (d, p) !in ns3.ents
    ensures Addable(Abs(s), (d, p), name) && d in Abs(s).nodes && Abs(s).nodes[d].nlink == nlink
    ensures Ns(ns3.nodes, ns3.ents[(d, p) := Entry(name, i)]) == MadeNs(Abs(s), (d, p), name, i)
  {
    hide Abs, Slots, Absent, Nameable, Addable, NodeAt;
    CanAdd(s, d, p, name);
    DirInAbs(s, d);
    NodeIsInode(s, d);
  }
}
