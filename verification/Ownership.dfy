/**
 Which inode owns which block.  An inode has 141 pointer slots: 12 direct (0..11),
 the indirect block itself (12) and the 128 words of the indirect block (13..140).
 */
module Ownership {
  import opened Bytes
  import opened Layout
  import opened Codec
  import opened State
  import opened OnDisk
  import Bitmap

  const SLOTS := 141
  const INDIRECT := 12

  /** The inode as the driver sees it: in core if present, else as the dinode table has it. */
  function Ino(s: Fs, i: nat): Inode {
    if i in s.cache then s.cache[i]
    else if i < |s.table| then Decode(s.table[i])
    else Decode(ZeroRaw())
  }

  /** Slot 0 of the table is never read back, so inode 0 is in use only while it is in core. */
  ghost predicate InUse(s: Fs, i: nat)
    ensures InUse(s, i) ==> i < |s.table|
  {
    i < |s.table| && (i in s.cache || (0 < i && Kind(s.table[i]) != 0))
  }

  function PtrOf(disk: seq<Block>, a: Addrs, k: nat): nat {
    if k <= INDIRECT then a[k]
    else if k >= SLOTS || a[INDIRECT] == 0 || a[INDIRECT] >= |disk| then 0
    else WordAt(disk[a[INDIRECT]], k - 13)
  }

  function Ptr(s: Fs, i: nat, k: nat): nat {
    PtrOf(s.disk, Ino(s, i).addrs, k)
  }

  /** Pointer slot of logical block `l`. */
  function SlotOf(l: nat): nat { if l < NDIRECT then l else l + 1 }

  /** The logical block map of an inode: 0 stands for a hole. */
  function LMap(s: Fs, i: nat, l: nat): nat { Ptr(s, i, SlotOf(l)) }

  /**
   Blocks 0..11 are the first twelve addresses of the inode; blocks 12..139 are the 32-bit
   numbers of the block the thirteenth address names, if it names one of the device.
   */
  lemma PointerPlace(s: Fs, i: nat, l: nat)
    ensures l < 12 ==> LMap(s, i, l) == Ino(s, i).addrs[l]
    ensures 12 <= l < 140 ==>
      var x := Ino(s, i).addrs[12];
      LMap(s, i, l) == if 0 < x < |s.disk| then Le32(s.disk, 512 * x + 4 * (l - 12)) else 0
    ensures 140 <= l ==> LMap(s, i, l) == 0
  {
    var x := Ino(s, i).addrs[12];
    if 12 <= l < 140 && 0 < x < |s.disk| {
      WordPlace(s.disk, x, l - 12);
    }
  }

  ghost predicate Used(s: Fs, b: nat) {
    Shape(s) && Bitmap.IsSet(s.sb, s.disk, b)
  }

  /** Every pointer of an inode in use is recorded with that one owner. */
  ghost predicate PointersOwned(s: Fs, own: Owners) {
    forall i: nat, k: nat :: InUse(s, i) && k < SLOTS && Ptr(s, i, k) != 0 ==>
      Ptr(s, i, k) in own && own[Ptr(s, i, k)] == (i, k)
  }

  /** Every recorded block is an allocated data block, and its owner points at it. */
  ghost predicate OwnersPoint(s: Fs, own: Owners) {
    forall b :: b in own ==>
      && DStart(s.sb) <= b < s.sb.size && Used(s, b)
      && InUse(s, own[b].0) && own[b].1 < SLOTS && Ptr(s, own[b].0, own[b].1) == b
  }

  ghost predicate Owns(s: Fs, own: Owners) {
    Shape(s) && PointersOwned(s, own) && OwnersPoint(s, own)
  }

  /** Marked in use, yet owned by no inode: metadata, or a leaked data block. */
  ghost predicate Stray(s: Fs, own: Owners, b: nat) {
    Used(s, b) && b !in own
  }

  ghost predicate MetaMarked(s: Fs) {
    Shape(s) && Bitmap.MetaSet(s.sb, s.disk)
  }

  ghost predicate NoLeak(s: Fs, own: Owners) {
    forall b: nat :: DStart(s.sb) <= b ==> !Stray(s, own, b)
  }

  // ------------------------------------------------------ frame conditions

  /** Everything but the block addresses and the dirty mark. */
  predicate SameAttrs(n: Inode, m: Inode) {
    m == n.(addrs := m.addrs, dirty := m.dirty)
  }

  /** Same owners for every inode but `i`. */
  ghost predicate OwnersElsewhere(own: Owners, own': Owners, i: nat) {
    && (forall b :: b in own && own[b].0 != i ==> b in own' && own'[b] == own[b])
    && (forall b :: b in own' && own'[b].0 != i ==> b in own && own[b] == own'[b])
  }

  /**
   Nothing outside inode `i` moved: the other inodes, the table, the free list,
   every block owned by another inode and everything below the bitmap.
   */
  ghost predicate Others(s: Fs, own: Owners, s': Fs, own': Owners, i: nat) {
    && s' == s.(disk := s'.disk, cache := s'.cache)
    && |s'.disk| == |s.disk|
    && s'.cache.Keys == s.cache.Keys
    && (forall j :: j in s.cache && j != i ==> s'.cache[j] == s.cache[j])
    && OwnersElsewhere(own, own', i)
    && (forall b :: b in own && own[b].0 != i && b < |s.disk| ==> s'.disk[b] == s.disk[b])
    && (forall b: nat :: b < |s.disk| && b < s.sb.bmapstart ==> s'.disk[b] == s.disk[b])
  }

  /** As `Others`, and of inode `i` itself at most the addresses and the dirty mark moved. */
  ghost predicate Kept(s: Fs, own: Owners, s': Fs, own': Owners, i: nat) {
    && Others(s, own, s', own', i)
    && (i in s.cache ==> SameAttrs(s.cache[i], s'.cache[i]))
  }

  lemma OthersTransitive(s: Fs, own: Owners, t: Fs, ownT: Owners, u: Fs, ownU: Owners, i: nat)
    requires Others(s, own, t, ownT, i) && Others(t, ownT, u, ownU, i)
    ensures Others(s, own, u, ownU, i)
  {
  }

  lemma KeptTransitive(s: Fs, own: Owners, t: Fs, ownT: Owners, u: Fs, ownU: Owners, i: nat)
    requires Kept(s, own, t, ownT, i) && Kept(t, ownT, u, ownU, i)
    ensures Kept(s, own, u, ownU, i)
  {
    hide Others;
    OthersTransitive(s, own, t, ownT, u, ownU, i);
    KeysKept(s, own, t, ownT, i);
  }

  lemma KeysKept(s: Fs, own: Owners, s': Fs, own': Owners, i: nat)
    requires Others(s, own, s', own', i)
    ensures s'.cache.Keys == s.cache.Keys && s'.table == s.table && s'.sb == s.sb
  {
  }

  /** Non-interference: the block map of every other inode, and what its blocks hold, is as before. */
  lemma OthersMaps(s: Fs, own: Owners, s': Fs, own': Owners, i: nat, j: nat, k: nat)
    requires Owns(s, own) && Shape(s') && Others(s, own, s', own', i)
    requires InUse(s, j) && j != i && k < SLOTS
    ensures InUse(s', j) && Ino(s', j) == Ino(s, j) && Ptr(s', j, k) == Ptr(s, j, k)
    ensures Ptr(s, j, k) != 0 ==> Ptr(s, j, k) < |s.disk| && s'.disk[Ptr(s, j, k)] == s.disk[Ptr(s, j, k)]
  {
    hide Used, Decode, WordAt;
    assert Ino(s', j) == Ino(s, j);
    var p, q := Ptr(s, j, INDIRECT), Ptr(s, j, k);
    assert p != 0 ==> p in own && own[p] == (j, INDIRECT);
    assert q != 0 ==> q in own && own[q] == (j, k);
  }

  // ------------------------------------- one pointer appears or disappears

  /** All pointers but slot `k` of inode `i` agree. */
  ghost predicate PtrsAgree(s: Fs, s': Fs, i: nat, k: nat) {
    && s'.sb == s.sb && |s'.table| == |s.table|
    && (forall j: nat :: InUse(s', j) <==> InUse(s, j))
    && (forall j: nat, m: nat :: InUse(s, j) && m < SLOTS && (j != i || m != k) ==> Ptr(s', j, m) == Ptr(s, j, m))
  }

  ghost predicate BitsAgree(s: Fs, s': Fs, b: nat) {
    s'.sb == s.sb && forall c: nat :: c != b ==> (Used(s', c) <==> Used(s, c))
  }

  /** Stray blocks are the same in both states. */
  ghost predicate StraySame(s: Fs, own: Owners, s': Fs, own': Owners) {
    s'.sb == s.sb && forall c: nat :: Stray(s', own', c) <==> Stray(s, own, c)
  }

  /** A failed read may strand blocks but never releases a stray one. */
  ghost predicate StrayGrows(s: Fs, own: Owners, s': Fs, own': Owners) {
    s'.sb == s.sb && forall c: nat :: Stray(s, own, c) ==> Stray(s', own', c)
  }

  lemma AttachOwns(s: Fs, own: Owners, s': Fs, i: nat, k: nat, b: nat)
    requires Owns(s, own) && Shape(s') && PtrsAgree(s, s', i, k) && BitsAgree(s, s', b)
    requires InUse(s, i) && k < SLOTS && Ptr(s, i, k) == 0 && Ptr(s', i, k) == b
    requires DStart(s.sb) <= b < s.sb.size && !Used(s, b) && Used(s', b)
    ensures Owns(s', own[b := (i, k)]) && StraySame(s, own, s', own[b := (i, k)]) && b !in own
  {
    hide Used, Ptr, InUse, Shape;
    var own' := own[b := (i, k)];
    forall j: nat, m: nat | InUse(s', j) && m < SLOTS && Ptr(s', j, m) != 0
      ensures Ptr(s', j, m) in own' && own'[Ptr(s', j, m)] == (j, m)
    {
      if j != i || m != k {
        assert Ptr(s', j, m) == Ptr(s, j, m);
      }
    }
  }

  /** The pointer is gone; its block's bit is cleared, or stays behind when the bitmap could not be read. */
  lemma DetachOwns(s: Fs, own: Owners, s': Fs, i: nat, k: nat)
    requires Owns(s, own) && Shape(s') && PtrsAgree(s, s', i, k)
    requires InUse(s, i) && k < SLOTS && Ptr(s, i, k) != 0 && Ptr(s', i, k) == 0
    requires BitsAgree(s, s', Ptr(s, i, k))
    ensures Owns(s', own - {Ptr(s, i, k)}) && StrayGrows(s, own, s', own - {Ptr(s, i, k)})
    ensures !Used(s', Ptr(s, i, k)) ==> StraySame(s, own, s', own - {Ptr(s, i, k)})
  {
    hide Used, Ptr, InUse, Shape;
    var b := Ptr(s, i, k);
    var own' := own - {b};
    forall j: nat, m: nat | InUse(s', j) && m < SLOTS && Ptr(s', j, m) != 0
      ensures Ptr(s', j, m) in own' && own'[Ptr(s', j, m)] == (j, m)
    {
      assert Ptr(s', j, m) == Ptr(s, j, m);
    }
    forall c | c in own' ensures Used(s', c) && InUse(s', own'[c].0) && Ptr(s', own'[c].0, own'[c].1) == c {
      assert own[c] == own'[c] && own[b] == (i, k);
    }
  }

  /** No pointer and no bit changed. */
  lemma SteadyOwns(s: Fs, own: Owners, s': Fs)
    requires Owns(s, own) && Shape(s') && s'.sb == s.sb
    requires forall j: nat :: InUse(s', j) <==> InUse(s, j)
    requires forall j: nat, m: nat :: InUse(s, j) && m < SLOTS ==> Ptr(s', j, m) == Ptr(s, j, m)
    requires forall c: nat :: Used(s', c) <==> Used(s, c)
    ensures Owns(s', own) && StraySame(s, own, s', own)
  {
    hide Used, Ptr, InUse;
  }
}
