/** The name space a volume stands for, and what each driver step does to it. */
module Namespace {
  import opened Bytes
  import opened Codec
  import opened Results
  import opened State
  import opened Ownership
  import Bitmap
  import BlockMap
  import opened Cursor
  import opened Listing
  import opened Directory
  import opened Inodes
  import opened Tree

  const MAXSLOTS := 4480

  ghost function NodeAt(s: Fs, i: nat): Option<Node> {
    if InUse(s, i) && Ino(s, i).nlink > 0 then Some(Node(Ino(s, i).kind, Ino(s, i).nlink)) else None
  }

  ghost predicate LinkedDir(s: Fs, d: nat) {
    NodeAt(s, d).Some? && NodeAt(s, d).value.kind == T_DIR
  }

  ghost function EntAt(s: Fs, d: nat, p: nat): Option<Entry> {
    if LinkedDir(s, d) && p < MAXSLOTS && p < |Slots(s, d)| && Live(Slots(s, d)[p])
    then Some(EntryOf(Slots(s, d)[p]))
    else None
  }

  ghost function Nodes(s: Fs): map<nat, Node> {
    map i: nat | i < |s.table| && NodeAt(s, i).Some? :: NodeAt(s, i).value
  }

  ghost function Ents(s: Fs): map<Place, Entry> {
    map d: nat, p: nat | d < |s.table| && p < MAXSLOTS && EntAt(s, d, p).Some? :: (d, p) := EntAt(s, d, p).value
  }

  ghost function Abs(s: Fs): Ns { Ns(Nodes(s), Ents(s)) }

  lemma AbsAt(s: Fs)
    ensures forall i: nat :: i in Abs(s).nodes <==> NodeAt(s, i).Some?
    ensures forall i: nat :: i in Abs(s).nodes ==> Abs(s).nodes[i] == NodeAt(s, i).value
    ensures forall d: nat, p: nat :: (d, p) in Abs(s).ents <==> EntAt(s, d, p).Some?
    ensures forall d: nat, p: nat :: (d, p) in Abs(s).ents ==> Abs(s).ents[(d, p)] == EntAt(s, d, p).value
  {
    hide Slots, Ino;
  }

  /** The name space is determined point by point. */
  lemma AbsIs(s: Fs, ns: Ns)
    requires forall i: nat :: i in ns.nodes <==> NodeAt(s, i).Some?
    requires forall i: nat :: i in ns.nodes ==> ns.nodes[i] == NodeAt(s, i).value
    requires forall d: nat, p: nat :: (d, p) in ns.ents <==> EntAt(s, d, p).Some?
    requires forall d: nat, p: nat :: (d, p) in ns.ents ==> ns.ents[(d, p)] == EntAt(s, d, p).value
    ensures Abs(s) == ns
  {
    hide NodeAt, EntAt, Nodes, Ents;
    assert Nodes(s) == ns.nodes by { NodesAre(s, ns.nodes); }
    assert Ents(s) == ns.ents by { EntsAre(s, ns.ents); }
  }

  lemma NodesAre(s: Fs, m: map<nat, Node>)
    requires forall i: nat :: i in m <==> NodeAt(s, i).Some?
    requires forall i: nat :: i in m ==> m[i] == NodeAt(s, i).value
    ensures Nodes(s) == m
  {
    hide Ino;
  }

  lemma EntsAre(s: Fs, m: map<Place, Entry>)
    requires forall d: nat, p: nat :: (d, p) in m <==> EntAt(s, d, p).Some?
    requires forall d: nat, p: nat :: (d, p) in m ==> m[(d, p)] == EntAt(s, d, p).value
    ensures Ents(s) == m
  {
    hide Ino, Slots;
    forall x: Place ensures x in Ents(s) <==> x in m {
      assert x == (x.0, x.1);
    }
    forall x: Place | x in m ensures Ents(s)[x] == m[x] {
      assert x == (x.0, x.1);
    }
  }

  /** Every inode but `i` keeps its node and its entries. */
  lemma FrameAt(s: Fs, own: Owners, s': Fs, own': Owners, i: nat)
    requires Owns(s, own) && Elsewhere(s, own, s', own', i)
    ensures forall j: nat :: j != i ==> NodeAt(s', j) == NodeAt(s, j)
    ensures forall d: nat, p: nat :: d != i ==> EntAt(s', d, p) == EntAt(s, d, p)
  {
    hide Owns, Elsewhere, Slots, Ino, InUse;
    forall j: nat | j != i ensures NodeAt(s', j) == NodeAt(s, j) {
      ElsewhereInUse(s, own, s', own', i, j);
    }
    forall d: nat, p: nat | d != i ensures EntAt(s', d, p) == EntAt(s, d, p) {
      ElsewhereInUse(s, own, s', own', i, d);
      if InUse(s, d) {
        ElsewhereSlots(s, own, s', own', i, d);
      }
    }
  }

  /** A step on inode `i` that keeps its node and, if it is a directory, its listing. */
  lemma Quiet(s: Fs, own: Owners, s': Fs, own': Owners, i: nat)
    requires Owns(s, own) && Elsewhere(s, own, s', own', i) && NodeAt(s', i) == NodeAt(s, i)
    requires LinkedDir(s, i) ==> Slots(s', i) == Slots(s, i)
    ensures Abs(s') == Abs(s)
  {
    FrameAt(s, own, s', own', i);
    AbsAt(s);
    hide Owns, Elsewhere, Slots, NodeAt, Abs;
    AbsIs(s', Abs(s));
  }

  /** The entry written by `AddEntry`. */
  lemma Added(s: Fs, own: Owners, s': Fs, own': Owners, d: nat, name: Name, inum: nat, p: nat)
    requires Shape(s) && Owns(s, own) && AddPost(s, own, s', own', d, name, inum, Ok(p))
    requires LinkedDir(s, d) && ValidName(name) && 0 < inum < U16
    ensures Abs(s') == Ns(Abs(s).nodes, Abs(s).ents[(d, p) := Entry(name, inum)])
    ensures (d, p) !in Abs(s).ents && p < MAXSLOTS && LinkedDir(s', d)
  {
    AddedFrame(s, own, s', own', d, name, inum, p);
    FrameAt(s, own, s', own', d);
    AbsAt(s);
    AddedHere(s, own, s', own', d, name, inum, p);
    hide Owns, Elsewhere, Slots, AddPost, NodeAt, EntAt, Abs;
    var ns := Ns(Abs(s).nodes, Abs(s).ents[(d, p) := Entry(name, inum)]);
    AbsIs(s', ns);
  }

  lemma AddedFrame(s: Fs, own: Owners, s': Fs, own': Owners, d: nat, name: Name, inum: nat, p: nat)
    requires Shape(s) && AddPost(s, own, s', own', d, name, inum, Ok(p))
    ensures Elsewhere(s, own, s', own', d) && NodeAt(s', d) == NodeAt(s, d)
  {
    hide Owns, Others, Elsewhere, Slots, StraySame, FreeSlot, PutSlot;
    OthersElsewhere(s, own, s', own', d);
    KeysKept(s, own, s', own', d);
  }

  lemma AddedHere(s: Fs, own: Owners, s': Fs, own': Owners, d: nat, name: Name, inum: nat, p: nat)
    requires AddPost(s, own, s', own', d, name, inum, Ok(p)) && NodeAt(s', d) == NodeAt(s, d)
    requires LinkedDir(s, d) && ValidName(name) && 0 < inum < U16
    ensures p < MAXSLOTS && EntAt(s', d, p) == Some(Entry(name, inum)) && EntAt(s, d, p) == None
    ensures forall q: nat :: q != p ==> EntAt(s', d, q) == EntAt(s, d, q)
    ensures LinkedDir(s', d)
  {
    hide Owns, Others, Slots, StraySame, NodeAt, CName;
    NameRoundTrip(name);
  }

  /** The entry cleared by `Unlink`. */
  lemma Cleared(s: Fs, own: Owners, s': Fs, d: nat, q: nat)
    requires Owns(s, own) && ClearPost(s, own, s', d, q) && LinkedDir(s, d)
    ensures Abs(s') == Ns(Abs(s).nodes, Abs(s).ents - {(d, q)})
  {
    ClearedHere(s, own, s', d, q);
    FrameAt(s, own, s', own, d);
    AbsAt(s);
    hide Owns, Elsewhere, Slots, ClearPost, NodeAt, EntAt, Abs;
    AbsIs(s', Ns(Abs(s).nodes, Abs(s).ents - {(d, q)}));
  }

  lemma ClearedHere(s: Fs, own: Owners, s': Fs, d: nat, q: nat)
    requires Owns(s, own) && ClearPost(s, own, s', d, q) && LinkedDir(s, d)
    ensures Elsewhere(s, own, s', own, d) && NodeAt(s', d) == NodeAt(s, d)
    ensures EntAt(s', d, q) == None && forall p: nat :: p != q ==> EntAt(s', d, p) == EntAt(s, d, p)
  {
    OwnsShape(s, own);
    hide Owns, Others, Slots, StraySame, CName, Elsewhere, Decode;
    OthersElsewhere(s, own, s', own, d);
  }

  // ------------------------------------------------------------ link counts

  ghost function Relinked(s: Fs, i: nat, n: nat): Fs
    requires i in s.cache
  {
    s.(cache := s.cache[i := BlockMap.Dirty(s.cache[i].(nlink := n))])
  }

  /** A link count, of whatever value, moves no pointer and no byte. */
  lemma RelinkOwns(s: Fs, own: Owners, i: nat, n: nat)
    requires Owns(s, own) && i in s.cache
    ensures var s' := Relinked(s, i, n);
      && Owns(s', own) && Elsewhere(s, own, s', own, i) && InUse(s', i) && Untouched(s, s', {})
      && StraySame(s, own, s', own)
  {
    hide Bitmap.IsSet, Decode, DiskSlot, PointersOwned, OwnersPoint, StraySame, WordAt, Untouched;
    var s' := Relinked(s, i, n);
    RecordsOwn(s, own, s');
    assert Elsewhere(s, own, s', own, i);
    RecordUntouched(s, own, s', own, i);
  }

  /** Only the link count and the dirty mark of `i` change. */
  lemma RelinkLaw(s: Fs, own: Owners, i: nat, n: nat, clean: bool)
    requires Sound(s, own, clean) && i in s.cache && n < U16
    ensures var s' := Relinked(s, i, n);
      && Sound(s', own, clean) && Elsewhere(s, own, s', own, i)
      && Slots(s', i) == Slots(s, i) && InUse(s, i) && InUse(s', i)
  {
    hide Bitmap.IsSet, Decode, DiskSlot, PointersOwned, OwnersPoint, StraySame, NoLeak, MetaMarked, Lists, CleanCached;
    hide Widths, TableOnDisk, WordAt, DirentAt;
    var s' := Relinked(s, i, n);
    RecordsOwn(s, own, s');
    StraySameGrows(s, own, s', own);
    InWidthOf(s, i);
    SoundKept(s, own, s', own, i, clean, clean);
    OthersElsewhere(s, own, s', own, i);
    RelinkSlots(s, i, n);
  }

  lemma RelinkSlots(s: Fs, i: nat, n: nat)
    requires i in s.cache
    ensures Slots(Relinked(s, i, n), i) == Slots(s, i)
  {
    hide WordAt, DirentAt, Decode;
    assert forall p: nat :: Slot(Relinked(s, i, n), i, p) == Slot(s, i, p);
  }

  /** What a changed link count makes of the name space; an unlinked directory takes its entries along. */
  ghost function Renumbered(ns: Ns, i: nat, n: nat): Ns
    requires i in ns.nodes
  {
    if n > 0 then Ns(ns.nodes[i := Node(ns.nodes[i].kind, n)], ns.ents)
    else Ns(ns.nodes - {i}, map x | x in ns.ents && x.0 != i :: ns.ents[x])
  }

  lemma Relink(s: Fs, own: Owners, i: nat, n: nat)
    requires Owns(s, own) && i in s.cache && NodeAt(s, i).Some?
    requires Elsewhere(s, own, Relinked(s, i, n), own, i)
    ensures i in Abs(s).nodes && Abs(Relinked(s, i, n)) == Renumbered(Abs(s), i, n)
  {
    var s' := Relinked(s, i, n);
    FrameAt(s, own, s', own, i);
    AbsAt(s);
    RelinkHere(s, i, n);
    hide Owns, Elsewhere, Slots, NodeAt, EntAt, Abs, LinkedDir;
    var ns := Renumbered(Abs(s), i, n);
    assert !LinkedDir(s, i) ==> forall p: nat :: (i, p) !in Abs(s).ents;
    AbsIs(s', ns);
  }

  lemma RelinkHere(s: Fs, i: nat, n: nat)
    requires i in s.cache && NodeAt(s, i).Some?
    ensures NodeAt(Relinked(s, i, n), i) == if n > 0 then Some(Node(NodeAt(s, i).value.kind, n)) else None
    ensures forall p: nat :: EntAt(Relinked(s, i, n), i, p) == if n > 0 then EntAt(s, i, p) else None
    ensures !LinkedDir(s, i) ==> forall p: nat :: EntAt(s, i, p) == None
  {
    hide Slots, CName, Decode;
    RelinkSlots(s, i, n);
  }

  /** A new inode is linked from the start but has no entries yet. */
  lemma Born(s: Fs, own: Owners, isDir: bool, clean: bool)
    requires Sound(s, own, clean) && |s.free| > 0 && s.freeCount > 0
    ensures s.free[0] !in Abs(s).nodes && 0 < s.free[0] < U16
    ensures Abs(NewState(s, isDir)) ==
      Ns(Abs(s).nodes[s.free[0] := if isDir then Node(T_DIR, 2) else Node(T_FILE, 1)], Abs(s).ents)
    ensures isDir ==> LinkedDir(NewState(s, isDir), s.free[0])
    ensures Slots(NewState(s, isDir), s.free[0]) == []
  {
    hide Owns, MetaMarked, Lists, CleanCached, Widths, NoLeak, TableOnDisk, Elsewhere, Decode, DiskSlot, Slot, CName;
    NewInodeLaw(s, own, isDir, clean);
    assert Shape(s) by { OwnsShape(s, own); }
    var s', i := NewState(s, isDir), s.free[0];
    FrameAt(s, own, s', own, i);
    AbsAt(s);
    assert NodeAt(s, i) == None && NodeAt(s', i) == Some(if isDir then Node(T_DIR, 2) else Node(T_FILE, 1));
    assert forall p: nat :: EntAt(s, i, p) == None && EntAt(s', i, p) == None;
    hide NodeAt, EntAt, Abs, Sound, InUse, Slots;
    AbsIs(s', Ns(Abs(s).nodes[i := if isDir then Node(T_DIR, 2) else Node(T_FILE, 1)], Abs(s).ents));
  }

  // ------------------------------------------------- names in the name space

  /** A name absent from the listing is free in the name space. */
  lemma AbsentMeans(s: Fs, d: nat, name: Name)
    requires Absent(Slots(s, d), name)
    ensures forall y: Place :: !Has(Abs(s), d, name, y)
  {
    AbsAt(s);
    forall y: Place ensures !Has(Abs(s), d, name, y) {
      assert y == (y.0, y.1);
    }
  }

  lemma FoundMeans(s: Fs, d: nat, name: Name, q: nat)
    requires FoundAt(Slots(s, d), name, q) && LinkedDir(s, d) && q < MAXSLOTS
    ensures (d, q) in Abs(s).ents && Abs(s).ents[(d, q)] == Entry(name, Slots(s, d)[q].inum)
  {
    hide Slots, NodeAt, CName;
    AbsAt(s);
  }

  // ---------------------------------------------------------------- bounds

  ghost function Row(d: nat, n: nat): set<Place> {
    set p: nat | p < n :: (d, p)
  }

  lemma {:induction false} RowSize(d: nat, n: nat)
    ensures |Row(d, n)| == n
  {
    if n == 0 {
      assert Row(d, n) == {};
    } else {
      RowSize(d, n - 1);
      assert Row(d, n) == Row(d, n - 1) + {(d, n - 1)};
      assert (d, n - 1) !in Row(d, n - 1);
    }
  }

  lemma InRow(s: Fs, d: nat, z: Place)
    requires z in Abs(s).ents && z.0 == d
    ensures z in Row(d, MAXSLOTS)
  {
    hide NodeAt, Slots;
    AbsAt(s);
    assert z == (d, z.1) && EntAt(s, d, z.1).Some?;
  }

  /** The dot entries take two of the 4480 slots, so a directory has at most 4478 children. */
  lemma ChildBound(s: Fs, d: nat, x: Place, y: Place)
    requires Has(Abs(s), d, Dot(), x) && Has(Abs(s), d, DotDot(), y)
    ensures |ChildDirs(Abs(s), d)| <= MAXSLOTS - 2
  {
    hide Abs, Row;
    var kids := ChildDirs(Abs(s), d);
    RowSize(d, MAXSLOTS);
    assert x != y && x !in kids && y !in kids;
    forall z | z in kids + {x, y} ensures z in Row(d, MAXSLOTS) {
      InRow(s, d, z);
    }
    SubsetCount(kids + {x, y}, Row(d, MAXSLOTS));
  }

  /** And at most 4477 with a slot that holds no entry. */
  lemma ChildBoundFree(s: Fs, d: nat, x: Place, y: Place, p: nat)
    requires Has(Abs(s), d, Dot(), x) && Has(Abs(s), d, DotDot(), y) && p < MAXSLOTS && (d, p) !in Abs(s).ents
    ensures |ChildDirs(Abs(s), d)| <= MAXSLOTS - 3
  {
    hide Abs, Row, NamesDir;
    var kids := ChildDirs(Abs(s), d);
    RowSize(d, MAXSLOTS);
    InRowAt(d, p, MAXSLOTS);
    NotChild(Abs(s), d, x);
    NotChild(Abs(s), d, y);
    forall z | z in kids + {x, y} ensures z in Row(d, MAXSLOTS) {
      InRow(s, d, z);
    }
    hide ChildDirs;
    assert |kids + {x, y} + {(d, p)}| == |kids| + 3;
    SubsetCount(kids + {x, y} + {(d, p)}, Row(d, MAXSLOTS));
  }

  lemma InRowAt(d: nat, p: nat, n: nat)
    requires p < n
    ensures (d, p) in Row(d, n)
  {
  }

  lemma NotChild(ns: Ns, d: nat, x: Place)
    requires x in ns.ents && !Plain(ns.ents[x])
    ensures x !in ChildDirs(ns, d)
  {
  }
}
