/**
 The name space as a value: the linked inodes, and the live entries of linked
 directories by (directory, slot).  Link counts are proved here, on the abstract
 effects of create, mkdir, link, unlink and rmdir.
 */
module Tree {
  import opened Codec
  import opened Listing

  const ROOTINO := 1

  function Dot(): Name { [46] }

  function DotDot(): Name { [46, 46] }

  predicate Plain(e: Entry) { e.name != Dot() && e.name != DotDot() }

  /** An inode of some kind, with its link count. */
  datatype Node = Node(kind: int, nlink: nat)

  type Place = (nat, nat)

  datatype Ns = Ns(nodes: map<nat, Node>, ents: map<Place, Entry>)

  ghost predicate IsDir(ns: Ns, d: nat) { d in ns.nodes && ns.nodes[d].kind == T_DIR }

  ghost predicate IsFile(ns: Ns, i: nat) { i in ns.nodes && ns.nodes[i].kind != T_DIR }

  /** Entries other than "." and ".." that name `i`. */
  ghost function Refs(ns: Ns, i: nat): set<Place> {
    set x | x in ns.ents && ns.ents[x].inum == i && Plain(ns.ents[x])
  }

  /** Entries of `d` other than "." and ".." that name directories. */
  ghost function ChildDirs(ns: Ns, d: nat): set<Place> {
    set x | x in ns.ents && x.0 == d && NamesDir(ns, x)
  }

  // -------------------------------------------------------------- invariant

  /** Entries sit in linked directories and name linked inodes. */
  ghost predicate Closed(ns: Ns) {
    && IsDir(ns, ROOTINO)
    && (forall i :: i in ns.nodes ==> ns.nodes[i].nlink > 0)
    && (forall x :: x in ns.ents ==> IsDir(ns, x.0) && ns.ents[x].inum in ns.nodes)
  }

  ghost predicate UniqueNames(ns: Ns) {
    forall x, y :: x in ns.ents && y in ns.ents && x.0 == y.0 && ns.ents[x].name == ns.ents[y].name ==> x == y
  }

  ghost predicate Has(ns: Ns, d: nat, name: Name, x: Place) {
    x in ns.ents && x.0 == d && ns.ents[x].name == name
  }

  /** Every directory has its two dot entries; "." names itself and ".." a directory. */
  ghost predicate Dots(ns: Ns) {
    HasDots(ns) && DotTargets(ns)
  }

  ghost predicate HasDots(ns: Ns) {
    forall d :: IsDir(ns, d) ==> (exists x :: Has(ns, d, Dot(), x)) && (exists x :: Has(ns, d, DotDot(), x))
  }

  ghost predicate DotTargets(ns: Ns) {
    && (forall x :: x in ns.ents && ns.ents[x].name == Dot() ==> ns.ents[x].inum == x.0)
    && (forall x :: x in ns.ents && ns.ents[x].name == DotDot() ==> IsDir(ns, ns.ents[x].inum))
  }

  /** A plain entry that names a directory. */
  ghost predicate NamesDir(ns: Ns, x: Place) {
    x in ns.ents && Plain(ns.ents[x]) && IsDir(ns, ns.ents[x].inum)
  }

  /**
   Directories form a tree: the root has no plain entry, every other directory
   exactly one, and its ".." names the directory that entry is in.
   */
  ghost predicate Parents(ns: Ns) {
    OneEntry(ns) && HasEntry(ns) && UpLinks(ns)
  }

  ghost predicate OneEntry(ns: Ns) {
    && (forall x :: x in ns.ents && Plain(ns.ents[x]) ==> ns.ents[x].inum != ROOTINO)
    && (forall x, y :: NamesDir(ns, x) && NamesDir(ns, y) && ns.ents[x].inum == ns.ents[y].inum ==> x == y)
  }

  ghost predicate HasEntry(ns: Ns) {
    forall c :: IsDir(ns, c) && c != ROOTINO ==> Refs(ns, c) != {}
  }

  ghost predicate UpLinks(ns: Ns) {
    && (forall x, y :: NamesDir(ns, x) && Has(ns, ns.ents[x].inum, DotDot(), y) ==> ns.ents[y].inum == x.0)
    && (forall y :: Has(ns, ROOTINO, DotDot(), y) ==> ns.ents[y].inum == ROOTINO)
  }

  /** A file has as many links as entries name it. */
  ghost predicate FileCounts(ns: Ns) {
    forall i :: IsFile(ns, i) ==> ns.nodes[i].nlink == |Refs(ns, i)|
  }

  /** A directory has two links and one more per child directory; the root keeps the base it was made with. */
  ghost predicate DirCounts(ns: Ns, base: nat) {
    forall d :: IsDir(ns, d) ==> ns.nodes[d].nlink == (if d == ROOTINO then base else 2) + |ChildDirs(ns, d)|
  }

  ghost predicate WellLinked(ns: Ns, base: nat) {
    base > 0 && Closed(ns) && UniqueNames(ns) && Dots(ns) && Parents(ns) && FileCounts(ns) && DirCounts(ns, base)
  }

  /** `name` can be added to directory `d` at `x`. */
  ghost predicate Addable(ns: Ns, x: Place, name: Name) {
    && IsDir(ns, x.0) && x !in ns.ents && name != Dot() && name != DotDot()
    && forall y :: !Has(ns, x.0, name, y)
  }

  // --------------------------------------------------- one more file entry

  /** One plain entry for the file `i` appears at `x`; of the nodes at most `i` changes. */
  ghost predicate PutFile(ns: Ns, ns': Ns, x: Place, name: Name, i: nat) {
    && Addable(ns, x, name) && ns'.ents == ns.ents[x := Entry(name, i)]
    && !IsDir(ns, i) && IsFile(ns', i) && ns'.nodes[i].nlink > 0
    && ns'.nodes.Keys == ns.nodes.Keys + {i}
    && forall j :: j in ns.nodes && j != i ==> ns'.nodes[j] == ns.nodes[j]
  }

  lemma PutFileSame(ns: Ns, ns': Ns, x: Place, name: Name, i: nat)
    requires PutFile(ns, ns', x, name, i)
    ensures forall d :: IsDir(ns', d) <==> IsDir(ns, d)
    ensures forall j :: j != i ==> (IsFile(ns', j) <==> IsFile(ns, j))
    ensures Refs(ns', i) == Refs(ns, i) + {x} && x !in Refs(ns, i)
    ensures forall j :: j != i ==> Refs(ns', j) == Refs(ns, j)
    ensures forall d :: ChildDirs(ns', d) == ChildDirs(ns, d)
    ensures forall y :: NamesDir(ns', y) <==> NamesDir(ns, y)
    ensures forall d, n, y :: Has(ns', d, n, y) <==> Has(ns, d, n, y) || (d == x.0 && n == name && y == x)
  {
  }

  lemma PutFileShape(ns: Ns, ns': Ns, x: Place, name: Name, i: nat)
    requires PutFile(ns, ns', x, name, i) && Closed(ns) && UniqueNames(ns)
    ensures Closed(ns') && UniqueNames(ns')
  {
    hide Refs, ChildDirs;
    forall y, z | y in ns'.ents && z in ns'.ents && y.0 == z.0 && ns'.ents[y].name == ns'.ents[z].name ensures y == z {
      assert y == x && z != x ==> Has(ns, x.0, name, z);
      assert z == x && y != x ==> Has(ns, x.0, name, y);
    }
  }

  lemma PutFileDots(ns: Ns, ns': Ns, x: Place, name: Name, i: nat)
    requires PutFile(ns, ns', x, name, i) && Dots(ns)
    ensures Dots(ns')
  {
    hide HasDots, Refs, ChildDirs, NamesDir, IsFile, Has;
    PutFileSame(ns, ns', x, name, i);
    forall d | IsDir(ns', d)
      ensures (exists y :: Has(ns', d, Dot(), y)) && (exists y :: Has(ns', d, DotDot(), y))
    {
      KeepsDots(ns, ns', d);
    }
    DotsCollected(ns');
  }

  lemma PutFileParents(ns: Ns, ns': Ns, x: Place, name: Name, i: nat)
    requires PutFile(ns, ns', x, name, i) && Parents(ns) && Closed(ns)
    ensures Parents(ns')
  {
    hide Refs, ChildDirs, NamesDir, OneEntry, UpLinks, HasEntry, Has;
    PutFileSame(ns, ns', x, name, i);
    assert HasEntry(ns') by { PutFileHasEntry(ns, ns', x, name, i); }
    PutFileOneEntry(ns, ns', x, name, i);
    PutFileUpLinks(ns, ns', x, name, i);
  }

  lemma PutFileHasEntry(ns: Ns, ns': Ns, x: Place, name: Name, i: nat)
    requires PutFile(ns, ns', x, name, i) && HasEntry(ns)
    ensures HasEntry(ns')
  {
    hide Refs, ChildDirs, NamesDir, Has;
    PutFileSame(ns, ns', x, name, i);
  }

  lemma PutFileOneEntry(ns: Ns, ns': Ns, x: Place, name: Name, i: nat)
    requires PutFile(ns, ns', x, name, i) && OneEntry(ns) && Closed(ns)
    ensures OneEntry(ns')
  {
    hide Refs, ChildDirs, Has;
    PutFileSame(ns, ns', x, name, i);
    assert i != ROOTINO;
    assert forall y :: NamesDir(ns', y) ==> y != x && NamesDir(ns, y) && ns'.ents[y] == ns.ents[y];
    hide NamesDir, PutFile;
  }

  lemma PutFileUpLinks(ns: Ns, ns': Ns, x: Place, name: Name, i: nat)
    requires PutFile(ns, ns', x, name, i) && UpLinks(ns)
    ensures UpLinks(ns')
  {
    assert forall y :: NamesDir(ns', y) ==> NamesDir(ns, y) && ns'.ents[y] == ns.ents[y];
    assert forall d, y :: Has(ns', d, DotDot(), y) ==> Has(ns, d, DotDot(), y) && ns'.ents[y] == ns.ents[y];
    hide NamesDir, PutFile, Has;
  }

  /** With fewer entries and directories, the ones that stay keep their places. */
  lemma FewerParents(ns: Ns, ns': Ns)
    requires OneEntry(ns) && UpLinks(ns)
    requires forall y :: y in ns'.ents ==> y in ns.ents && ns'.ents[y] == ns.ents[y]
    requires forall d :: IsDir(ns', d) ==> IsDir(ns, d)
    ensures OneEntry(ns') && UpLinks(ns')
  {
    assert forall y :: NamesDir(ns', y) ==> NamesDir(ns, y) && ns'.ents[y] == ns.ents[y];
    assert forall d, n, y :: Has(ns', d, n, y) ==> Has(ns, d, n, y) && ns'.ents[y] == ns.ents[y];
    hide NamesDir, IsDir;
  }

  lemma PutFileCounts(ns: Ns, ns': Ns, base: nat, x: Place, name: Name, i: nat)
    requires PutFile(ns, ns', x, name, i) && Closed(ns) && FileCounts(ns) && DirCounts(ns, base)
    requires ns'.nodes[i].nlink == 1 + if i in ns.nodes then ns.nodes[i].nlink else 0
    ensures FileCounts(ns') && DirCounts(ns', base)
  {
    hide Refs, ChildDirs, Closed, NamesDir, Has, Addable;
    if i !in ns.nodes {
      UnlinkedUnnamed(ns, i);
    }
    forall j | IsFile(ns', j) ensures ns'.nodes[j].nlink == |Refs(ns', j)| {
      PutFileSame(ns, ns', x, name, i);
    }
    forall d | IsDir(ns', d) ensures ns'.nodes[d].nlink == (if d == ROOTINO then base else 2) + |ChildDirs(ns', d)| {
      PutFileSame(ns, ns', x, name, i);
    }
  }

  lemma UnlinkedUnnamed(ns: Ns, i: nat)
    requires Closed(ns) && i !in ns.nodes
    ensures Refs(ns, i) == {}
  {
  }

  /** Creating or linking a file: one more entry for `i`, and as many links as entries. */
  lemma PutFileLinks(ns: Ns, ns': Ns, base: nat, x: Place, name: Name, i: nat)
    requires WellLinked(ns, base) && PutFile(ns, ns', x, name, i)
    requires ns'.nodes[i].nlink == 1 + if i in ns.nodes then ns.nodes[i].nlink else 0
    ensures WellLinked(ns', base)
  {
    hide Closed, UniqueNames, Dots, Parents, FileCounts, DirCounts, PutFile;
    PutFileShape(ns, ns', x, name, i);
    PutFileDots(ns, ns', x, name, i);
    PutFileParents(ns, ns', x, name, i);
    PutFileCounts(ns, ns', base, x, name, i);
  }

  // --------------------------------------------------- one file entry fewer

  /** The plain entry at `x` for the file `i` disappears, with one link, and the file with its last one. */
  ghost predicate DropFile(ns: Ns, ns': Ns, x: Place, i: nat) {
    && x in ns.ents && Plain(ns.ents[x]) && ns.ents[x].inum == i && IsFile(ns, i) && ns.nodes[i].nlink > 0
    && ns'.ents == ns.ents - {x}
    && ns'.nodes ==
       if ns.nodes[i].nlink == 1 then ns.nodes - {i} else ns.nodes[i := Node(ns.nodes[i].kind, ns.nodes[i].nlink - 1)]
  }

  lemma DropFileSame(ns: Ns, ns': Ns, x: Place, i: nat)
    requires DropFile(ns, ns', x, i)
    ensures forall d :: IsDir(ns', d) <==> IsDir(ns, d)
    ensures forall j :: j != i ==> (IsFile(ns', j) <==> IsFile(ns, j))
    ensures Refs(ns', i) == Refs(ns, i) - {x} && x in Refs(ns, i)
    ensures forall j :: j != i ==> Refs(ns', j) == Refs(ns, j)
    ensures forall d :: ChildDirs(ns', d) == ChildDirs(ns, d)
    ensures forall y :: NamesDir(ns', y) <==> NamesDir(ns, y)
    ensures forall d, n, y :: Has(ns', d, n, y) <==> Has(ns, d, n, y) && y != x
  {
  }

  lemma LastEntry(ns: Ns, x: Place, i: nat)
    requires FileCounts(ns) && IsFile(ns, i) && ns.nodes[i].nlink == 1 && x in Refs(ns, i)
    ensures forall y :: y in ns.ents && ns.ents[y].inum == i && Plain(ns.ents[y]) ==> y == x
  {
    forall y | y in ns.ents && ns.ents[y].inum == i && Plain(ns.ents[y]) ensures y == x {
      if y != x {
        assert {x, y} <= Refs(ns, i);
        SubsetCount({x, y}, Refs(ns, i));
      }
    }
  }

  lemma SubsetCount<T>(a: set<T>, b: set<T>)
    requires a <= b
    ensures |a| <= |b|
  {
    assert b == a + (b - a);
  }

  lemma FilesHavePlainEntries(ns: Ns, y: Place)
    requires Closed(ns) && Dots(ns) && y in ns.ents && !IsDir(ns, ns.ents[y].inum)
    ensures Plain(ns.ents[y])
  {
    hide Has;
  }

  lemma DropFileShape(ns: Ns, ns': Ns, x: Place, i: nat)
    requires DropFile(ns, ns', x, i) && Closed(ns) && UniqueNames(ns) && FileCounts(ns) && Dots(ns)
    ensures Closed(ns') && UniqueNames(ns')
  {
    hide Dots, FileCounts, Refs, ChildDirs, NamesDir, Has, Plain;
    DropFileSame(ns, ns', x, i);
    forall y | y in ns'.ents ensures IsDir(ns', y.0) && ns'.ents[y].inum in ns'.nodes {
      assert IsDir(ns, y.0);
      if ns.ents[y].inum == i && ns.nodes[i].nlink == 1 {
        FilesHavePlainEntries(ns, y);
        LastEntry(ns, x, i);
      }
    }
  }

  lemma DropFileDots(ns: Ns, ns': Ns, x: Place, i: nat)
    requires DropFile(ns, ns', x, i) && Dots(ns)
    ensures Dots(ns')
  {
    hide HasDots, Refs, ChildDirs, NamesDir, IsFile, Has;
    DropFileSame(ns, ns', x, i);
    forall d | IsDir(ns', d)
      ensures (exists y :: Has(ns', d, Dot(), y)) && (exists y :: Has(ns', d, DotDot(), y))
    {
      KeepsDots(ns, ns', d);
    }
    DotsCollected(ns');
  }

  lemma DropFileParents(ns: Ns, ns': Ns, x: Place, i: nat)
    requires DropFile(ns, ns', x, i) && Parents(ns)
    ensures Parents(ns')
  {
    hide Refs, ChildDirs, NamesDir, OneEntry, UpLinks, Has;
    DropFileSame(ns, ns', x, i);
    FewerParents(ns, ns');
  }

  lemma DropFileCounts(ns: Ns, ns': Ns, base: nat, x: Place, i: nat)
    requires DropFile(ns, ns', x, i) && FileCounts(ns) && DirCounts(ns, base)
    ensures FileCounts(ns') && DirCounts(ns', base)
  {
    DropFileSame(ns, ns', x, i);
    hide Refs, ChildDirs, NamesDir, Has;
  }

  /** Unlinking a file. */
  lemma DropFileLinks(ns: Ns, ns': Ns, base: nat, x: Place, i: nat)
    requires WellLinked(ns, base) && DropFile(ns, ns', x, i)
    ensures WellLinked(ns', base)
  {
    hide Closed, UniqueNames, Dots, Parents, FileCounts, DirCounts, DropFile;
    DropFileShape(ns, ns', x, i);
    DropFileDots(ns, ns', x, i);
    DropFileParents(ns, ns', x, i);
    DropFileCounts(ns, ns', base, x, i);
  }

  // --------------------------------------------------- one more directory

  /** A new directory `i` with its two dot entries, entered at `x`; the parent gains a link. */
  ghost predicate PutDir(ns: Ns, ns': Ns, x: Place, name: Name, i: nat) {
    && Addable(ns, x, name) && i !in ns.nodes && Closed(ns)
    && ns'.ents == ns.ents[(i, 0) := Entry(Dot(), i)][(i, 1) := Entry(DotDot(), x.0)][x := Entry(name, i)]
    && ns'.nodes == ns.nodes[x.0 := Node(T_DIR, ns.nodes[x.0].nlink + 1)][i := Node(T_DIR, 2)]
  }

  lemma PutDirEnts(ns: Ns, ns': Ns, x: Place, name: Name, i: nat)
    requires PutDir(ns, ns', x, name, i)
    ensures forall d :: IsDir(ns', d) <==> IsDir(ns, d) || d == i
    ensures forall j :: IsFile(ns', j) <==> IsFile(ns, j)
    ensures forall y :: y in ns.ents ==> y.0 != i && y != x && ns.ents[y].inum != i
    ensures forall y :: y in ns'.ents <==> y in ns.ents || y == x || y == (i, 0) || y == (i, 1)
    ensures forall y :: y in ns.ents ==> ns'.ents[y] == ns.ents[y]
    ensures ns'.ents[x] == Entry(name, i) && ns'.ents[(i, 0)] == Entry(Dot(), i)
    ensures ns'.ents[(i, 1)] == Entry(DotDot(), x.0)
    ensures x.0 != i
  {
  }

  lemma PutDirSame(ns: Ns, ns': Ns, x: Place, name: Name, i: nat)
    requires PutDir(ns, ns', x, name, i)
    ensures Refs(ns', i) == {x}
    ensures forall j :: j != i ==> Refs(ns', j) == Refs(ns, j)
    ensures forall y :: NamesDir(ns', y) <==> NamesDir(ns, y) || y == x
    ensures forall d :: d != x.0 && d != i ==> ChildDirs(ns', d) == ChildDirs(ns, d)
    ensures ChildDirs(ns', x.0) == ChildDirs(ns, x.0) + {x} && x !in ChildDirs(ns, x.0) && ChildDirs(ns', i) == {}
    ensures forall d, n, y :: Has(ns', d, n, y) <==>
      Has(ns, d, n, y) || (y == x && d == x.0 && n == name)
      || (d == i && ((y == (i, 0) && n == Dot()) || (y == (i, 1) && n == DotDot())))
  {
    hide PutDir, IsDir, IsFile;
    PutDirEnts(ns, ns', x, name, i);
    AddablePlain(ns, ns', x, name, i);
  }

  lemma AddablePlain(ns: Ns, ns': Ns, x: Place, name: Name, i: nat)
    requires PutDir(ns, ns', x, name, i)
    ensures Plain(Entry(name, i)) && x !in ns.ents
  {
  }

  lemma PutDirShape(ns: Ns, ns': Ns, x: Place, name: Name, i: nat)
    requires PutDir(ns, ns', x, name, i) && UniqueNames(ns)
    ensures Closed(ns') && UniqueNames(ns')
  {
    PutDirEnts(ns, ns', x, name, i);
    hide Refs, ChildDirs, Plain;
    forall y, z | y in ns'.ents && z in ns'.ents && y.0 == z.0 && ns'.ents[y].name == ns'.ents[z].name ensures y == z {
      assert y == x && z in ns.ents ==> Has(ns, x.0, name, z);
      assert z == x && y in ns.ents ==> Has(ns, x.0, name, y);
    }
  }

  lemma PutDirDots(ns: Ns, ns': Ns, x: Place, name: Name, i: nat)
    requires PutDir(ns, ns', x, name, i) && Dots(ns)
    ensures Dots(ns')
  {
    hide HasDots, PutDir;
    PutDirHasDots(ns, ns', x, name, i);
    assert DotTargets(ns') by { PutDirTargets(ns, ns', x, name, i); }
  }

  lemma PutDirTargets(ns: Ns, ns': Ns, x: Place, name: Name, i: nat)
    requires PutDir(ns, ns', x, name, i) && DotTargets(ns)
    ensures DotTargets(ns')
  {
    assert IsDir(ns, x.0);
    hide IsDir, IsFile, PutDir;
    PutDirEnts(ns, ns', x, name, i);
    AddablePlain(ns, ns', x, name, i);
  }

  lemma PutDirHasDots(ns: Ns, ns': Ns, x: Place, name: Name, i: nat)
    requires PutDir(ns, ns', x, name, i) && HasDots(ns)
    ensures HasDots(ns')
  {
    hide IsDir, IsFile, PutDir, HasDots;
    PutDirEnts(ns, ns', x, name, i);
    assert Has(ns', i, Dot(), (i, 0)) && Has(ns', i, DotDot(), (i, 1));
    forall d | IsDir(ns', d)
      ensures (exists y :: Has(ns', d, Dot(), y)) && (exists y :: Has(ns', d, DotDot(), y))
    {
      if d != i {
        KeepsDots(ns, ns', d);
      }
    }
    DotsCollected(ns');
  }

  lemma DotsCollected(ns: Ns)
    requires forall d :: IsDir(ns, d) ==> (exists y :: Has(ns, d, Dot(), y)) && (exists y :: Has(ns, d, DotDot(), y))
    ensures HasDots(ns)
  {
    hide IsDir, Has;
  }

  /** A directory keeps its dot entries as long as they stay where they are. */
  lemma KeepsDots(ns: Ns, ns': Ns, d: nat)
    requires HasDots(ns) && IsDir(ns, d)
    requires forall y :: y in ns.ents && y.0 == d && !Plain(ns.ents[y]) ==> y in ns'.ents && ns'.ents[y] == ns.ents[y]
    ensures (exists y :: Has(ns', d, Dot(), y)) && (exists y :: Has(ns', d, DotDot(), y))
  {
    var y :| Has(ns, d, Dot(), y);
    var z :| Has(ns, d, DotDot(), z);
    assert Has(ns', d, Dot(), y) && Has(ns', d, DotDot(), z);
  }

  lemma PutDirParents(ns: Ns, ns': Ns, x: Place, name: Name, i: nat)
    requires PutDir(ns, ns', x, name, i) && Parents(ns)
    ensures Parents(ns')
  {
    hide OneEntry, HasEntry, UpLinks, PutDir;
    PutDirOneEntry(ns, ns', x, name, i);
    PutDirHasEntry(ns, ns', x, name, i);
    PutDirUpLinks(ns, ns', x, name, i);
  }

  lemma PutDirOneEntry(ns: Ns, ns': Ns, x: Place, name: Name, i: nat)
    requires PutDir(ns, ns', x, name, i) && OneEntry(ns)
    ensures OneEntry(ns')
  {
    assert IsDir(ns, ROOTINO) && i != ROOTINO && !IsDir(ns, i);
    hide PutDir, IsFile, IsDir, Refs, ChildDirs, Has, NamesDir;
    PutDirEnts(ns, ns', x, name, i);
    PutDirSame(ns, ns', x, name, i);
    assert forall y :: NamesDir(ns, y) ==> y in ns.ents && ns.ents[y].inum != i by { NamesDirIn(ns); }
  }

  lemma NamesDirIn(ns: Ns)
    ensures forall y :: NamesDir(ns, y) ==> y in ns.ents
  {
  }

  lemma PutDirHasEntry(ns: Ns, ns': Ns, x: Place, name: Name, i: nat)
    requires PutDir(ns, ns', x, name, i) && HasEntry(ns)
    ensures HasEntry(ns')
  {
    hide PutDir, IsDir, Refs, ChildDirs, Has, NamesDir, IsFile;
    PutDirEnts(ns, ns', x, name, i);
    PutDirSame(ns, ns', x, name, i);
  }

  lemma PutDirUpLinks(ns: Ns, ns': Ns, x: Place, name: Name, i: nat)
    requires PutDir(ns, ns', x, name, i) && UpLinks(ns)
    ensures UpLinks(ns')
  {
    assert i != ROOTINO;
    hide PutDir, IsDir, Refs, ChildDirs, IsFile;
    PutDirEnts(ns, ns', x, name, i);
    PutDirSame(ns, ns', x, name, i);
    AddablePlain(ns, ns', x, name, i);
    forall y, z | NamesDir(ns', y) && Has(ns', ns'.ents[y].inum, DotDot(), z) ensures ns'.ents[z].inum == y.0 {
      assert y != x ==> NamesDir(ns, y) && Has(ns, ns.ents[y].inum, DotDot(), z);
    }
  }

  lemma PutDirCounts(ns: Ns, ns': Ns, base: nat, x: Place, name: Name, i: nat)
    requires PutDir(ns, ns', x, name, i) && FileCounts(ns) && DirCounts(ns, base)
    ensures FileCounts(ns') && DirCounts(ns', base)
  {
    hide Refs, ChildDirs, PutDir;
    forall j | IsFile(ns', j) ensures ns'.nodes[j].nlink == |Refs(ns', j)| {
      PutDirFile(ns, ns', x, name, i, j);
    }
    forall d | IsDir(ns', d) ensures ns'.nodes[d].nlink == (if d == ROOTINO then base else 2) + |ChildDirs(ns', d)| {
      PutDirCount(ns, ns', x, name, i, d);
    }
  }

  lemma PutDirFile(ns: Ns, ns': Ns, x: Place, name: Name, i: nat, j: nat)
    requires PutDir(ns, ns', x, name, i) && IsFile(ns', j)
    ensures IsFile(ns, j) && ns'.nodes[j] == ns.nodes[j] && Refs(ns', j) == Refs(ns, j)
  {
    PutDirEnts(ns, ns', x, name, i);
    hide Refs, ChildDirs, NamesDir, Has, Closed, Plain;
    PutDirSame(ns, ns', x, name, i);
  }

  lemma PutDirCount(ns: Ns, ns': Ns, x: Place, name: Name, i: nat, d: nat)
    requires PutDir(ns, ns', x, name, i) && IsDir(ns', d)
    ensures if d == i then d != ROOTINO && ns'.nodes[d].nlink == 2 && |ChildDirs(ns', d)| == 0
      else IsDir(ns, d) && ns'.nodes[d].nlink - ns.nodes[d].nlink == |ChildDirs(ns', d)| - |ChildDirs(ns, d)|
  {
    hide Refs, ChildDirs, NamesDir, Has, Plain;
    PutDirSame(ns, ns', x, name, i);
  }

  /** Making a directory. */
  lemma PutDirLinks(ns: Ns, ns': Ns, base: nat, x: Place, name: Name, i: nat)
    requires WellLinked(ns, base) && PutDir(ns, ns', x, name, i)
    ensures WellLinked(ns', base)
  {
    hide Closed, UniqueNames, Dots, Parents, FileCounts, DirCounts, PutDir;
    PutDirShape(ns, ns', x, name, i);
    PutDirDots(ns, ns', x, name, i);
    PutDirParents(ns, ns', x, name, i);
    PutDirCounts(ns, ns', base, x, name, i);
  }

  // --------------------------------------------------- one directory fewer

  /** The empty directory `c`, entered at `x`, disappears with its dot entries; the parent loses a link. */
  ghost predicate DropDir(ns: Ns, ns': Ns, x: Place, c: nat) {
    && NamesDir(ns, x) && ns.ents[x].inum == c
    && (forall y :: y in ns.ents && y.0 == c ==> !Plain(ns.ents[y]))
    && (forall y :: y in ns'.ents <==> y in ns.ents && y != x && y.0 != c)
    && (forall y :: y in ns'.ents ==> ns'.ents[y] == ns.ents[y])
    && x.0 in ns.nodes && ns.nodes[x.0].nlink > 0
    && ns'.nodes == (ns.nodes - {c})[x.0 := Node(T_DIR, ns.nodes[x.0].nlink - 1)]
  }

  /** The ".." of a directory below the root names the one its plain entry is in. */
  lemma DotDotParent(ns: Ns, y: Place)
    requires Closed(ns) && Parents(ns) && y in ns.ents && ns.ents[y].name == DotDot() && y.0 != ROOTINO
    ensures exists z :: NamesDir(ns, z) && ns.ents[z].inum == y.0 && z.0 == ns.ents[y].inum
  {
    hide ChildDirs;
    assert Has(ns, y.0, DotDot(), y);
    var z :| z in Refs(ns, y.0);
    assert NamesDir(ns, z);
  }

  /** After emptiness, only the entry at `x` and the directory's own "." name it. */
  lemma OnlyNames(ns: Ns, ns': Ns, x: Place, c: nat)
    requires DropDir(ns, ns', x, c) && Closed(ns) && Dots(ns) && Parents(ns)
    ensures forall y :: y in ns.ents && ns.ents[y].name == DotDot() ==> ns.ents[y].inum != c
    ensures forall y :: y in ns.ents && ns.ents[y].inum == c ==> y == x || y.0 == c
  {
    hide IsFile, ChildDirs, Refs;
    forall y | y in ns.ents && ns.ents[y].name == DotDot() ensures ns.ents[y].inum != c {
      assert Has(ns, y.0, DotDot(), y);
      if y.0 != ROOTINO {
        DotDotParent(ns, y);
      }
    }
    forall y | y in ns.ents && Plain(ns.ents[y]) && ns.ents[y].inum == c ensures y == x {
      assert NamesDir(ns, y);
    }
  }

  lemma DropDirSame(ns: Ns, ns': Ns, x: Place, c: nat)
    requires DropDir(ns, ns', x, c) && Closed(ns) && Parents(ns)
    ensures x.0 != c && c != ROOTINO
    ensures forall d :: IsDir(ns', d) <==> IsDir(ns, d) && d != c
    ensures forall j :: IsFile(ns', j) <==> IsFile(ns, j)
    ensures forall j :: j != c ==> Refs(ns', j) == Refs(ns, j)
    ensures forall y :: NamesDir(ns', y) <==> NamesDir(ns, y) && y != x
    ensures forall d, n, y :: Has(ns', d, n, y) <==> Has(ns, d, n, y) && y != x && d != c
  {
    assert x in ns.ents;
  }

  lemma DropDirChildren(ns: Ns, ns': Ns, x: Place, c: nat)
    requires DropDir(ns, ns', x, c) && Closed(ns) && Parents(ns)
    ensures forall d :: d != x.0 && d != c ==> ChildDirs(ns', d) == ChildDirs(ns, d)
    ensures ChildDirs(ns', x.0) == ChildDirs(ns, x.0) - {x} && x in ChildDirs(ns, x.0)
  {
    DropDirSame(ns, ns', x, c);
    hide IsDir, IsFile, Refs, Parents, Plain;
  }

  lemma DropDirShape(ns: Ns, ns': Ns, base: nat, x: Place, c: nat)
    requires DropDir(ns, ns', x, c) && Closed(ns) && UniqueNames(ns)
    requires Dots(ns) && Parents(ns) && DirCounts(ns, base) && base > 0
    ensures Closed(ns') && UniqueNames(ns')
  {
    hide Refs, ChildDirs, NamesDir, Has, Dots, Parents, Plain, DirCounts;
    ParentStays(ns, ns', base, x, c);
    OnlyNames(ns, ns', x, c);
    DropDirSame(ns, ns', x, c);
  }

  lemma ParentStays(ns: Ns, ns': Ns, base: nat, x: Place, c: nat)
    requires DropDir(ns, ns', x, c) && Closed(ns) && Parents(ns) && DirCounts(ns, base) && base > 0
    ensures ns'.nodes[x.0].nlink > 0
  {
    DropDirChildren(ns, ns', x, c);
    hide Refs, ChildDirs, Parents, Plain;
    assert IsDir(ns, x.0) && ChildDirs(ns, x.0) != {};
  }

  lemma DropDirDots(ns: Ns, ns': Ns, x: Place, c: nat)
    requires DropDir(ns, ns', x, c) && Closed(ns) && Dots(ns) && Parents(ns)
    ensures Dots(ns')
  {
    hide IsDir, IsFile, Refs, Parents, Closed, ChildDirs, HasDots, Has, NamesDir;
    DropDirSame(ns, ns', x, c);
    OnlyNames(ns, ns', x, c);
    assert DotTargets(ns');
    DropDirHasDots(ns, ns', x, c);
  }

  lemma DropDirHasDots(ns: Ns, ns': Ns, x: Place, c: nat)
    requires DropDir(ns, ns', x, c) && Closed(ns) && HasDots(ns) && Parents(ns)
    ensures HasDots(ns')
  {
    hide HasDots, Parents, Closed;
    DropDirSame(ns, ns', x, c);
    forall d | IsDir(ns', d)
      ensures (exists y :: Has(ns', d, Dot(), y)) && (exists y :: Has(ns', d, DotDot(), y))
    {
      KeepsDots(ns, ns', d);
    }
    DotsCollected(ns');
  }

  lemma DropDirParents(ns: Ns, ns': Ns, x: Place, c: nat)
    requires DropDir(ns, ns', x, c) && Closed(ns) && Parents(ns)
    ensures Parents(ns')
  {
    hide Refs, ChildDirs, NamesDir, OneEntry, UpLinks, Has, Plain;
    DropDirSame(ns, ns', x, c);
    FewerParents(ns, ns');
  }

  lemma DropDirCounts(ns: Ns, ns': Ns, base: nat, x: Place, c: nat)
    requires DropDir(ns, ns', x, c) && Closed(ns) && Parents(ns) && FileCounts(ns) && DirCounts(ns, base)
    ensures FileCounts(ns') && DirCounts(ns', base)
  {
    hide Refs, ChildDirs, Closed, Parents, DropDir;
    forall j | IsFile(ns', j) ensures ns'.nodes[j].nlink == |Refs(ns', j)| {
      DropDirFile(ns, ns', x, c, j);
    }
    forall d | IsDir(ns', d) ensures ns'.nodes[d].nlink == (if d == ROOTINO then base else 2) + |ChildDirs(ns', d)| {
      DropDirCount(ns, ns', x, c, d);
    }
  }

  lemma DropDirFile(ns: Ns, ns': Ns, x: Place, c: nat, j: nat)
    requires DropDir(ns, ns', x, c) && Closed(ns) && Parents(ns) && IsFile(ns', j)
    ensures IsFile(ns, j) && ns'.nodes[j] == ns.nodes[j] && Refs(ns', j) == Refs(ns, j)
  {
    assert IsDir(ns, x.0) && IsDir(ns, c);
    hide Refs, ChildDirs, NamesDir, Has, Closed, Parents, Plain;
    DropDirSame(ns, ns', x, c);
  }

  lemma DropDirCount(ns: Ns, ns': Ns, x: Place, c: nat, d: nat)
    requires DropDir(ns, ns', x, c) && Closed(ns) && Parents(ns) && IsDir(ns', d)
    ensures IsDir(ns, d) && ns'.nodes[d].nlink - ns.nodes[d].nlink == |ChildDirs(ns', d)| - |ChildDirs(ns, d)|
  {
    hide Refs, ChildDirs, NamesDir, Has, Closed, Parents, Plain;
    DropDirSame(ns, ns', x, c);
    DropDirChildren(ns, ns', x, c);
  }

  /** Removing an empty directory. */
  lemma DropDirLinks(ns: Ns, ns': Ns, base: nat, x: Place, c: nat)
    requires WellLinked(ns, base) && DropDir(ns, ns', x, c)
    ensures WellLinked(ns', base)
  {
    hide Closed, UniqueNames, Dots, Parents, FileCounts, DirCounts, DropDir;
    DropDirShape(ns, ns', base, x, c);
    DropDirDots(ns, ns', x, c);
    DropDirParents(ns, ns', x, c);
    DropDirCounts(ns, ns', base, x, c);
  }

  // ------------------------------------------------------- one link too many

  /** Directory `d` has one link more; nothing else has changed. */
  ghost predicate MoreLinked(ns: Ns, ns': Ns, d: nat) {
    IsDir(ns, d) && ns' == Ns(ns.nodes[d := Node(T_DIR, ns.nodes[d].nlink + 1)], ns.ents)
  }

  lemma MoreLinkedSame(ns: Ns, ns': Ns, d: nat)
    requires MoreLinked(ns, ns', d)
    ensures forall e :: IsDir(ns', e) <==> IsDir(ns, e)
    ensures forall i :: IsFile(ns', i) <==> IsFile(ns, i)
    ensures forall x :: NamesDir(ns', x) <==> NamesDir(ns, x)
    ensures forall i :: Refs(ns', i) == Refs(ns, i)
    ensures forall e :: ChildDirs(ns', e) == ChildDirs(ns, e)
    ensures forall e, n, x :: Has(ns', e, n, x) <==> Has(ns, e, n, x)
  {
  }

  lemma MoreLinkedShape(ns: Ns, ns': Ns, d: nat)
    requires MoreLinked(ns, ns', d) && Closed(ns) && UniqueNames(ns) && FileCounts(ns)
    ensures Closed(ns') && UniqueNames(ns') && FileCounts(ns')
  {
    MoreLinkedSame(ns, ns', d);
    hide Refs, ChildDirs, NamesDir, Has;
  }

  lemma MoreLinkedDots(ns: Ns, ns': Ns, d: nat)
    requires MoreLinked(ns, ns', d) && Dots(ns)
    ensures Dots(ns')
  {
    MoreLinkedSame(ns, ns', d);
    hide Refs, ChildDirs, NamesDir, Has, IsDir, IsFile;
    assert HasDots(ns');
    hide HasDots;
  }

  lemma MoreLinkedParents(ns: Ns, ns': Ns, d: nat)
    requires MoreLinked(ns, ns', d) && Parents(ns)
    ensures Parents(ns')
  {
    MoreLinkedSame(ns, ns', d);
    hide Refs, ChildDirs, NamesDir, Has, IsFile;
    FewerParents(ns, ns');
    hide OneEntry, UpLinks;
  }

  /** No well-linked tree any more, unless it is the root: its base then counts the link. */
  lemma ExtraLink(ns: Ns, ns': Ns, base: nat, d: nat)
    requires WellLinked(ns, base) && MoreLinked(ns, ns', d)
    ensures d == ROOTINO ==> WellLinked(ns', base + 1)
    ensures d != ROOTINO ==> forall base' :: !WellLinked(ns', base')
  {
    hide UniqueNames, Dots, Parents, FileCounts, Closed, ChildDirs;
    MoreLinkedShape(ns, ns', d);
    MoreLinkedDots(ns, ns', d);
    MoreLinkedParents(ns, ns', d);
    MoreLinkedSame(ns, ns', d);
    hide Refs, NamesDir, Has, IsFile;
    if d != ROOTINO {
      forall base' ensures !WellLinked(ns', base') {
        assert ns'.nodes[d].nlink == 3 + |ChildDirs(ns', d)|;
      }
    }
  }
}
