/** Releasing blocks: `xv6fs_truncate_blocks`. */
module Truncate {
  import opened Bytes
  import opened Layout
  import opened Codec
  import opened State
  import opened Bitmap
  import opened Ownership
  import opened BlockMap

  /** The pointer in slot `k` is gone with its ownership; nothing else moved. */
  ghost predicate Detached(s: Fs, own: Owners, s': Fs, i: nat, k: nat) {
    var b := Ptr(s, i, k);
    && Owns(s', own - {b}) && Kept(s, own, s', own - {b}, i) && DataKept(s, own, s')
    && PtrsAgree(s, s', i, k) && Ptr(s', i, k) == 0
    && i in s.cache && i in s'.cache && s'.cache[i].dirty == s.cache[i].dirty
    && StrayGrows(s, own, s', own - {b})
    && (!Used(s', b) ==> StraySame(s, own, s', own - {b}))
  }

  /** What `xv6fs_bfree` makes of the disk: the bit cleared, or no change when the bitmap block is unreadable. */
  ghost predicate Released(sb: Super, disk: seq<Block>, d: seq<Block>, b: nat) {
    d == disk || (BBlock(sb, b) < |disk| && d == SetBit(sb, disk, b, false))
  }

  lemma ReleasedBits(s: Fs, d: seq<Block>, b: nat)
    requires Shape(s) && DStart(s.sb) <= b < s.sb.size && Released(s.sb, s.disk, d, b)
    ensures |d| == |s.disk| && BitsAgree(s, s.(disk := d), b)
    ensures forall x: nat :: x < |d| && d[x] != s.disk[x] ==> s.sb.bmapstart <= x < DStart(s.sb)
    ensures BBlock(s.sb, b) < |s.disk| && (d == SetBit(s.sb, s.disk, b, false) ==> !Used(s.(disk := d), b))
  {
    hide IsSet, SetBit;
    SetBitLaw(s.sb, s.disk, b, false);
  }

  lemma DetachFinish(s: Fs, own: Owners, s': Fs, i: nat, k: nat)
    requires Owns(s, own) && i in s.cache && k < SLOTS && Ptr(s, i, k) != 0 && Confined(s, own, s', i) && Shape(s')
    requires forall m: nat :: m < SLOTS && m != k ==> Ptr(s', i, m) == Ptr(s, i, m)
    requires Ptr(s', i, k) == 0 && BitsAgree(s, s', Ptr(s, i, k)) && s'.cache[i].dirty == s.cache[i].dirty
    ensures Detached(s, own, s', i, k)
  {
    hide Used, Kept, DataKept, BitsAgree, PtrsAgree, Ptr;
    var b := Ptr(s, i, k);
    assert own[b] == (i, k);
    ConfinedFrame(s, own, s', own - {b}, i);
    ConfinedPtrs(s, own, s', own - {b}, i, k);
    DetachOwns(s, own, s', i, k);
  }

  ghost function DetachDirect(s: Fs, i: nat, k: nat, d: seq<Block>): Fs
    requires i in s.cache && k < 13
  {
    s.(disk := d, cache := s.cache[i := WithAddr(s.cache[i], k, 0)])
  }

  lemma DetachDirectLaw(s: Fs, own: Owners, i: nat, k: nat, d: seq<Block>)
    requires Owns(s, own) && i in s.cache && k < 13 && Ptr(s, i, k) != 0
    requires k == INDIRECT ==> forall m: nat :: INDIRECT < m < SLOTS ==> Ptr(s, i, m) == 0
    requires Released(s.sb, s.disk, d, Ptr(s, i, k))
    ensures Detached(s, own, DetachDirect(s, i, k, d), i, k)
    ensures BBlock(s.sb, Ptr(s, i, k)) < |s.disk|
    ensures d == SetBit(s.sb, s.disk, Ptr(s, i, k), false) ==> !Used(DetachDirect(s, i, k, d), Ptr(s, i, k))
  {
    hide IsSet, SetBit, WordAt, Decode, PointersOwned, OwnersPoint, Released;
    var b := Ptr(s, i, k);
    OwnedBlock(s, own, i, k);
    ReleasedBits(s, d, b);
    IndirectOwned(s, own, i);
    BitmapUnowned(s, own);
    DetachFinish(s, own, DetachDirect(s, i, k, d), i, k);
  }

  lemma OwnedBlock(s: Fs, own: Owners, i: nat, k: nat)
    requires Owns(s, own) && InUse(s, i) && k < SLOTS && Ptr(s, i, k) != 0
    ensures Ptr(s, i, k) in own && own[Ptr(s, i, k)] == (i, k)
    ensures DStart(s.sb) <= Ptr(s, i, k) < |s.disk| && Used(s, Ptr(s, i, k))
  {
    hide Used, Ptr;
  }

  ghost function DetachEntry(s: Fs, i: nat, j: nat, d: seq<Block>): Fs
    requires i in s.cache && j < NINDIRECT && s.cache[i].addrs[INDIRECT] < |d|
  {
    s.(disk := SetEntry(d, s.cache[i].addrs[INDIRECT], j, 0))
  }

  lemma DetachEntryLaw(s: Fs, own: Owners, i: nat, j: nat, d: seq<Block>)
    requires Owns(s, own) && i in s.cache && j < NINDIRECT && Ptr(s, i, 13 + j) != 0
    requires Released(s.sb, s.disk, d, Ptr(s, i, 13 + j))
    ensures |d| == |s.disk| && 0 < s.cache[i].addrs[INDIRECT] < |d|
    ensures Detached(s, own, DetachEntry(s, i, j, d), i, 13 + j)
    ensures BBlock(s.sb, Ptr(s, i, 13 + j)) < |s.disk|
    ensures d == SetBit(s.sb, s.disk, Ptr(s, i, 13 + j), false) ==> !Used(DetachEntry(s, i, j, d), Ptr(s, i, 13 + j))
  {
    hide IsSet, SetBit, SetWord, WordAt, Decode, PointersOwned, OwnersPoint, Released;
    var b := Ptr(s, i, 13 + j);
    OwnedBlock(s, own, i, 13 + j);
    ReleasedBits(s, d, b);
    IndirectOwned(s, own, i);
    BitmapUnowned(s, own);
    var ind := s.cache[i].addrs[INDIRECT];
    var s' := DetachEntry(s, i, j, d);
    WriteKeepsBits(s.sb, d, ind, s'.disk[ind]);
    EntryPtrs(s, i, j, d);
    DetachFinish(s, own, s', i, 13 + j);
  }

  lemma EntryPtrs(s: Fs, i: nat, j: nat, d: seq<Block>)
    requires i in s.cache && j < NINDIRECT && |d| == |s.disk| && 0 < s.cache[i].addrs[INDIRECT] < |d|
    requires d[s.cache[i].addrs[INDIRECT]] == s.disk[s.cache[i].addrs[INDIRECT]]
    ensures var s' := DetachEntry(s, i, j, d);
      && Ptr(s', i, 13 + j) == 0
      && forall m: nat :: m < SLOTS && m != 13 + j ==> Ptr(s', i, m) == Ptr(s, i, m)
  {
    hide SetWord, WordAt, Decode;
  }

  // ------------------------------------------------- progress of the loops

  /**
   Progress of truncating to `n` blocks: direct slots below `direct` and the
   first `entries` words have been visited, and perhaps the indirect block is gone.
   */
  datatype Gone = Gone(n: nat, direct: nat, entries: nat, indirect: bool)

  predicate Dropped(gone: Gone, m: nat) {
    || (gone.n <= m < gone.direct && m < INDIRECT)
    || (13 <= m < 13 + gone.entries && gone.n < m)
    || (m == INDIRECT && gone.indirect)
  }

  ghost predicate OneMore(gone: Gone, gone': Gone, k: nat) {
    forall m: nat :: m < SLOTS ==> (Dropped(gone', m) <==> Dropped(gone, m) || m == k)
  }

  /**
   Since `s0`, exactly the `Dropped` pointers of inode `i` have gone.  Without a
   failed read, their blocks are free again.
   */
  ghost predicate Cut(s0: Fs, own0: Owners, s: Fs, own: Owners, i: nat, gone: Gone, clean: bool) {
    && Owns(s0, own0) && Owns(s, own) && i in s0.cache && i in s.cache
    && Kept(s0, own0, s, own, i) && DataKept(s0, own, s)
    && (forall b :: b in own ==> b in own0 && own0[b] == own[b])
    && (forall m: nat :: m < SLOTS ==> Ptr(s, i, m) == if Dropped(gone, m) then 0 else Ptr(s0, i, m))
    && s.cache[i].dirty == s0.cache[i].dirty
    && StrayGrows(s0, own0, s, own) && (clean ==> StraySame(s0, own0, s, own))
  }

  lemma CutStart(s: Fs, own: Owners, i: nat, n: nat)
    requires Owns(s, own) && i in s.cache
    ensures Cut(s, own, s, own, i, Gone(n, n, 0, false), true)
  {
    hide Ptr, PointersOwned, OwnersPoint;
  }

  lemma CutMore(s0: Fs, own0: Owners, s: Fs, own: Owners, s': Fs, i: nat, gone: Gone, gone': Gone, clean: bool,
                clean': bool, k: nat)
    requires Cut(s0, own0, s, own, i, gone, clean) && OneMore(gone, gone', k) && k < SLOTS && Ptr(s, i, k) != 0
    requires Detached(s, own, s', i, k) && (clean' ==> clean && !Used(s', Ptr(s, i, k)))
    ensures Cut(s0, own0, s', own - {Ptr(s, i, k)}, i, gone', clean')
  {
    hide Owns, Kept, DataKept, Ptr, Used, StraySame, StrayGrows;
    var own' := own - {Ptr(s, i, k)};
    CutShape(s0, own0, s, own, i, gone, clean);
    assert Shape(s') by { DetachedShape(s, own, s', i, k); }
    assert StrayGrows(s0, own0, s', own') && (clean' ==> StraySame(s0, own0, s', own')) by {
      StrayChain(s0, own0, s, own, s', own');
      if clean' {
        StrayTransitive(s0, own0, s, own, s', own');
      }
    }
    KeptTransitive(s0, own0, s, own, s', own', i);
    CutData(s0, own0, s, own, s', i, gone, clean, k);
  }

  lemma CutData(s0: Fs, own0: Owners, s: Fs, own: Owners, s': Fs, i: nat, gone: Gone, clean: bool, k: nat)
    requires Cut(s0, own0, s, own, i, gone, clean) && Detached(s, own, s', i, k)
    ensures DataKept(s0, own - {Ptr(s, i, k)}, s')
  {
    hide Ptr, Used, PointersOwned, OwnersPoint, StraySame, StrayGrows;
  }

  lemma CutShape(s0: Fs, own0: Owners, s: Fs, own: Owners, i: nat, gone: Gone, clean: bool)
    requires Cut(s0, own0, s, own, i, gone, clean)
    ensures Shape(s0) && Shape(s) && InUse(s, i) && s.sb == s0.sb
  {
  }

  lemma DetachedShape(s: Fs, own: Owners, s': Fs, i: nat, k: nat)
    requires Detached(s, own, s', i, k)
    ensures Shape(s')
  {
  }

  lemma StrayChain(s: Fs, own: Owners, t: Fs, own1: Owners, u: Fs, own2: Owners)
    requires StrayGrows(s, own, t, own1) && StrayGrows(t, own1, u, own2)
    ensures StrayGrows(s, own, u, own2)
  {
    hide Stray;
  }

  /** A slot that is empty already may be counted as dropped. */
  lemma CutSkip(s0: Fs, own0: Owners, s: Fs, own: Owners, i: nat, gone: Gone, gone': Gone, clean: bool, k: nat)
    requires Cut(s0, own0, s, own, i, gone, clean) && OneMore(gone, gone', k) && Ptr(s, i, k) == 0
    ensures Cut(s0, own0, s, own, i, gone', clean)
  {
    hide Owns, Kept, DataKept, Ptr, StraySame, StrayGrows;
  }

  // -------------------------------------------------------------- truncate

  /** Some logical block that survives lies behind the indirect block. */
  ghost predicate EntryLeft(s: Fs, i: nat, n: nat) {
    exists l: nat :: NDIRECT <= l < n && l < MAXFILE && LMap(s, i, l) != 0
  }

  ghost predicate TruncPost(s: Fs, own: Owners, s': Fs, own': Owners, i: nat, n: nat, clean: bool) {
    && Owns(s', own') && Kept(s, own, s', own', i) && DataKept(s, own', s')
    && (forall b :: b in own' ==> b in own && own[b] == own'[b])
    && i in s.cache && i in s'.cache && s'.cache[i].dirty == s.cache[i].dirty
    && StrayGrows(s, own, s', own')
    && (forall l: nat :: l < n && l < MAXFILE ==> LMap(s', i, l) == LMap(s, i, l))
    && (forall l: nat :: n <= l < NDIRECT ==> LMap(s', i, l) == 0)
    && (forall l: nat :: l < MAXFILE ==> LMap(s', i, l) == LMap(s, i, l) || LMap(s', i, l) == 0)
    && (clean ==>
         && StraySame(s, own, s', own')
         && (forall l: nat :: n <= l < MAXFILE ==> LMap(s', i, l) == 0)
         && (Ptr(s', i, INDIRECT) != 0 <==> EntryLeft(s, i, n)))
  }

  lemma CutEnds(s: Fs, own: Owners, s': Fs, own': Owners, i: nat, n: nat, gone: Gone, clean: bool, clean': bool)
    requires Cut(s, own, s', own', i, gone, clean) && (clean' ==> clean) && gone.n == n && NDIRECT <= gone.direct
    requires forall l: nat :: l < n && l < MAXFILE ==> !Dropped(gone, SlotOf(l))
    requires clean' ==> forall l: nat :: n <= l < MAXFILE ==> Ptr(s', i, SlotOf(l)) == 0
    requires clean' ==> (Ptr(s', i, INDIRECT) != 0 <==> EntryLeft(s, i, n))
    ensures TruncPost(s, own, s', own', i, n, clean')
  {
    hide Owns, Kept, DataKept, Ptr, StraySame, StrayGrows, EntryLeft;
    CutShape(s, own, s', own', i, gone, clean);
  }

  lemma CutOwns(s0: Fs, own0: Owners, s: Fs, own: Owners, i: nat, gone: Gone, clean: bool)
    requires Cut(s0, own0, s, own, i, gone, clean)
    ensures Owns(s, own) && i in s.cache && i in s0.cache && s.sb == s0.sb
    ensures s.cache[i].addrs[INDIRECT] < |s.disk|
    ensures s.cache[i].addrs[INDIRECT] == Ptr(s, i, INDIRECT)
    ensures forall k: nat :: k < NDIRECT ==> s.cache[i].addrs[k] == Ptr(s, i, k)
    ensures s.cache[i].addrs[INDIRECT] != 0 ==>
      forall j: nat :: j < NINDIRECT ==> WordAt(s.disk[s.cache[i].addrs[INDIRECT]], j) == Ptr(s, i, 13 + j)
    ensures forall m: nat :: m < SLOTS ==> Ptr(s, i, m) == if Dropped(gone, m) then 0 else Ptr(s0, i, m)
  {
    hide WordAt, Decode, DataKept, StraySame, StrayGrows;
    IndirectOwned(s, own, i);
  }

  lemma TruncForget(s: Fs, own: Owners, s': Fs, own': Owners, i: nat, n: nat, clean: bool, clean': bool)
    requires TruncPost(s, own, s', own', i, n, clean) && (clean' ==> clean)
    ensures TruncPost(s, own, s', own', i, n, clean')
  {
    hide Owns, Kept, DataKept, Ptr, StraySame, StrayGrows, EntryLeft;
  }

  lemma DirectOver(s0: Fs, own0: Owners, s: Fs, own: Owners, i: nat, n: nat, x: nat, clean: bool, clean': bool)
    requires Cut(s0, own0, s, own, i, Gone(n, x, 0, false), clean) && NDIRECT <= x
    requires clean' ==> clean && Ptr(s, i, INDIRECT) == 0
    ensures TruncPost(s0, own0, s, own, i, n, clean')
  {
    hide Owns, Kept, DataKept, Ptr, StraySame, StrayGrows, Cut;
    CutOwns(s0, own0, s, own, i, Gone(n, x, 0, false), clean);
    if clean' {
      NoIndirectNoEntries(s, i);
      NoIndirectNoEntries(s0, i);
    }
    CutEnds(s0, own0, s, own, i, n, Gone(n, x, 0, false), clean, clean');
  }

  method TruncateBlocks(v: Volume, i: nat, n: nat)
    requires Owns(v.View(), v.owner) && i in v.cache
    modifies v`disk, v`cache, v`faults, v`owner
    ensures TruncPost(old(v.View()), old(v.owner), v.View(), v.owner, i, n, v.faults == old(v.faults))
    ensures old(v.faults) <= v.faults
  {
    hide Cut, TruncPost, Detached, PointersOwned, OwnersPoint, IsSet, SetBit, Ptr, EntryLeft, WordAt, SetWord;
    ghost var s, own, f0 := v.View(), v.owner, v.faults;
    CutStart(s, own, i, n);
    var x := n;
    while x < NDIRECT
      invariant n <= x && Cut(s, own, v.View(), v.owner, i, Gone(n, x, 0, false), v.faults == f0)
      invariant old(v.faults) <= v.faults
    {
      ghost var t, ownT, clean := v.View(), v.owner, v.faults == f0;
      ghost var gone, gone' := Gone(n, x, 0, false), Gone(n, x + 1, 0, false);
      CutOwns(s, own, t, ownT, i, gone, clean);
      var b := v.cache[i].addrs[x];
      if b != 0 {
        OwnedBlock(t, ownT, i, x);
        BFree(v, b);
        v.cache := v.cache[i := WithAddr(v.cache[i], x, 0)];
        v.owner := v.owner - {b};
        DetachDirectLaw(t, ownT, i, x, v.disk);
        CutMore(s, own, t, ownT, v.View(), i, gone, gone', clean, v.faults == f0, x);
      } else {
        CutSkip(s, own, t, ownT, i, gone, gone', clean, x);
      }
      x := x + 1;
    }
    CutOwns(s, own, v.View(), v.owner, i, Gone(n, x, 0, false), v.faults == f0);
    if v.cache[i].addrs[INDIRECT] == 0 {
      DirectOver(s, own, v.View(), v.owner, i, n, x, v.faults == f0, v.faults == f0);
      return;
    }
    ghost var clean := v.faults == f0;
    var bh := v.BRead(v.cache[i].addrs[INDIRECT]);
    if bh.None? {
      DirectOver(s, own, v.View(), v.owner, i, n, x, clean, false);
      return;
    }
    TruncateEntries(v, i, n, s, own, x, f0);
  }

  /** Whether the first `y` words of the indirect block hold one that stays. */
  ghost predicate Scanned(s0: Fs, i: nat, n: nat, y: nat, anyLeft: bool) {
    anyLeft <==> exists l: nat :: NDIRECT <= l < n && l < NDIRECT + y && LMap(s0, i, l) != 0
  }

  /** The second loop of `xv6fs_truncate_blocks`, over the indirect block buffer. */
  method TruncateEntries(v: Volume, i: nat, n: nat, ghost s: Fs, ghost own: Owners, ghost x: nat, ghost f0: nat)
    requires Cut(s, own, v.View(), v.owner, i, Gone(n, x, 0, false), v.faults == f0) && NDIRECT <= x
    requires i in v.cache && v.cache[i].addrs[INDIRECT] != 0 && f0 <= v.faults
    modifies v`disk, v`cache, v`faults, v`owner
    ensures TruncPost(s, own, v.View(), v.owner, i, n, v.faults == f0)
    ensures old(v.faults) <= v.faults
  {
    hide Cut, TruncPost, Detached, PointersOwned, OwnersPoint, IsSet, SetBit, Ptr, EntryLeft, Scanned, WordAt;
    hide SetWord, OneMore, SameGone, Dropped;
    NextEntry(n, x, 0);
    var ind := v.cache[i].addrs[INDIRECT];
    var indStart := if n > NDIRECT then n - NDIRECT else 0;
    var anyLeft := false;
    ScanStart(s, i, n);
    var j := 0;
    while j < NINDIRECT
      invariant j <= NINDIRECT && i in v.cache && v.cache[i].addrs[INDIRECT] == ind != 0
      invariant Cut(s, own, v.View(), v.owner, i, Gone(n, x, j, false), v.faults == f0)
      invariant Scanned(s, i, n, j, anyLeft)
      invariant old(v.faults) <= v.faults
    {
      ghost var t, ownT, clean := v.View(), v.owner, v.faults == f0;
      ghost var gone, gone' := Gone(n, x, j, false), Gone(n, x, j + 1, false);
      CutOwns(s, own, t, ownT, i, gone, clean);
      var addr := WordAt(v.disk[ind], j);
      ScanNext(s, i, n, j, anyLeft);
      NextEntry(n, x, j);
      if addr == 0 {
        if j >= indStart {
          CutSkip(s, own, t, ownT, i, gone, gone', clean, 13 + j);
        } else {
          CutSame(s, own, t, ownT, i, gone, gone', clean);
        }
      } else if j >= indStart {
        OwnedBlock(t, ownT, i, 13 + j);
        BFree(v, addr);
        DetachEntryLaw(t, ownT, i, j, v.disk);
        v.disk := SetEntry(v.disk, ind, j, 0);
        v.owner := v.owner - {addr};
        CutMore(s, own, t, ownT, v.View(), i, gone, gone', clean, v.faults == f0, 13 + j);
      } else {
        anyLeft := true;
        CutSame(s, own, t, ownT, i, gone, gone', clean);
      }
      j := j + 1;
    }
    ghost var t, ownT, clean := v.View(), v.owner, v.faults == f0;
    ghost var gone := Gone(n, x, NINDIRECT, false);
    CutOwns(s, own, t, ownT, i, gone, clean);
    if !anyLeft {
      AllEntriesGone(s, own, t, ownT, i, gone, clean);
      OwnedBlock(t, ownT, i, INDIRECT);
      BFree(v, ind);
      v.cache := v.cache[i := WithAddr(v.cache[i], INDIRECT, 0)];
      v.owner := v.owner - {ind};
      DetachDirectLaw(t, ownT, i, INDIRECT, v.disk);
      CutMore(s, own, t, ownT, v.View(), i, gone, gone.(indirect := true), clean, v.faults == f0, INDIRECT);
    }
    TruncateEnds(s, own, v.View(), v.owner, i, Gone(n, x, NINDIRECT, !anyLeft), v.faults == f0);
  }

  lemma NextEntry(n: nat, x: nat, j: nat)
    requires j < NINDIRECT
    ensures j + NDIRECT >= n ==> OneMore(Gone(n, x, j, false), Gone(n, x, j + 1, false), 13 + j)
    ensures j + NDIRECT < n ==> SameGone(Gone(n, x, j, false), Gone(n, x, j + 1, false))
    ensures OneMore(Gone(n, x, NINDIRECT, false), Gone(n, x, NINDIRECT, true), INDIRECT)
    ensures !Dropped(Gone(n, x, j, false), 13 + j)
  {
  }

  ghost predicate SameGone(gone: Gone, gone': Gone) {
    forall m: nat :: m < SLOTS ==> (Dropped(gone', m) <==> Dropped(gone, m))
  }

  lemma CutSame(s0: Fs, own0: Owners, s: Fs, own: Owners, i: nat, gone: Gone, gone': Gone, clean: bool)
    requires Cut(s0, own0, s, own, i, gone, clean) && SameGone(gone, gone')
    ensures Cut(s0, own0, s, own, i, gone', clean)
  {
    hide Owns, Kept, DataKept, Ptr, StraySame, StrayGrows, Dropped;
  }

  lemma ScanStart(s: Fs, i: nat, n: nat)
    ensures Scanned(s, i, n, 0, false)
  {
  }

  lemma ScanNext(s: Fs, i: nat, n: nat, j: nat, anyLeft: bool)
    requires Scanned(s, i, n, j, anyLeft)
    ensures Scanned(s, i, n, j + 1, anyLeft || (j + NDIRECT < n && Ptr(s, i, 13 + j) != 0))
  {
    hide Ptr;
    assert LMap(s, i, NDIRECT + j) == Ptr(s, i, 13 + j);
  }

  lemma AllEntriesGone(s0: Fs, own0: Owners, s: Fs, own: Owners, i: nat, gone: Gone, clean: bool)
    requires Cut(s0, own0, s, own, i, gone, clean) && gone.entries == NINDIRECT
    requires Scanned(s0, i, gone.n, NINDIRECT, false)
    ensures forall m: nat :: INDIRECT < m < SLOTS ==> Ptr(s, i, m) == 0
  {
    hide Ptr, Owns, Kept, DataKept, StraySame, StrayGrows;
    forall m: nat | INDIRECT < m < SLOTS ensures Ptr(s, i, m) == 0 {
      assert LMap(s0, i, m - 1) == Ptr(s0, i, m);
    }
  }

  lemma TruncateEnds(s0: Fs, own0: Owners, s: Fs, own: Owners, i: nat, gone: Gone, clean: bool)
    requires Scanned(s0, i, gone.n, NINDIRECT, !gone.indirect)
    requires Cut(s0, own0, s, own, i, gone, clean) && gone.entries == NINDIRECT && gone.direct >= NDIRECT
    ensures TruncPost(s0, own0, s, own, i, gone.n, clean)
  {
    hide Ptr, Owns, Kept, DataKept, StraySame, StrayGrows, Cut;
    CutOwns(s0, own0, s, own, i, gone, clean);
    assert !gone.indirect <==> EntryLeft(s0, i, gone.n);
    if !gone.indirect {
      var l: nat :| NDIRECT <= l < gone.n && l < MAXFILE && LMap(s0, i, l) != 0;
      assert Ptr(s, i, l + 1) == Ptr(s0, i, l + 1) != 0;
      if Ptr(s, i, INDIRECT) == 0 {
        NoIndirectNoEntries(s, i);
      }
    }
    CutEnds(s0, own0, s, own, i, gone.n, gone, clean, clean);
  }
}
