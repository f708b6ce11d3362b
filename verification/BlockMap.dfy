/** The block map of an inode (`xv6fs_get_block`, `xv6fs_truncate_blocks`). */
module BlockMap {
  import opened Bytes
  import opened Layout
  import opened Codec
  import opened Results
  import opened State
  import opened Bitmap
  import opened Ownership
  import opened OnDisk

  function WithAddr(n: Inode, k: nat, b: nat): Inode
    requires k < 13
  {
    n.(addrs := n.addrs[k := b])
  }

  function Dirty(n: Inode): Inode { n.(dirty := true) }

  /** Data blocks, as opposed to indirect blocks, keep their contents. */
  ghost predicate DataKept(s: Fs, own: Owners, s': Fs) {
    && |s'.disk| == |s.disk|
    && forall b :: b in own && own[b].1 != INDIRECT && b < |s.disk| ==> s'.disk[b] == s.disk[b]
  }

  function SetEntry(disk: seq<Block>, ind: nat, j: nat, b: nat): seq<Block>
    requires ind < |disk| && j < NINDIRECT && b < U32
  {
    disk[ind := SetWord(disk[ind], j, b)]
  }

  function Zeroed(disk: seq<Block>, b: nat): seq<Block>
    requires b < |disk|
  {
    disk[b := ZeroBlock()]
  }

  // ------------------------------------------------- the steps of get_block

  ghost function AttachDirect(s: Fs, i: nat, k: nat, b: nat): Fs
    requires i in s.cache && k < NDIRECT && BBlock(s.sb, b) < |s.disk|
  {
    s.(disk := SetBit(s.sb, s.disk, b, true), cache := s.cache[i := Dirty(WithAddr(s.cache[i], k, b))])
  }

  ghost function AttachIndirect(s: Fs, i: nat, b: nat): Fs
    requires i in s.cache && BBlock(s.sb, b) < |s.disk| && b < |s.disk|
  {
    s.(disk := Zeroed(SetBit(s.sb, s.disk, b, true), b),
       cache := s.cache[i := Dirty(WithAddr(s.cache[i], INDIRECT, b))])
  }

  ghost function AttachEntry(s: Fs, i: nat, j: nat, b: nat): Fs
    requires i in s.cache && j < NINDIRECT && BBlock(s.sb, b) < |s.disk| && b < U32
    requires s.cache[i].addrs[INDIRECT] < |s.disk|
  {
    s.(disk := SetEntry(SetBit(s.sb, s.disk, b, true), s.cache[i].addrs[INDIRECT], j, b),
       cache := s.cache[i := Dirty(s.cache[i])])
  }

  /** Slot `k` of inode `i` now names the fresh block `b`; no other pointer, bit or data block moved. */
  ghost predicate Attached(s: Fs, own: Owners, s': Fs, i: nat, k: nat, b: nat) {
    var own' := own[b := (i, k)];
    && Owns(s', own') && StraySame(s, own, s', own') && Kept(s, own, s', own', i) && DataKept(s, own, s')
    && PtrsAgree(s, s', i, k) && InUse(s', i) && Ptr(s', i, k) == b && b !in own
    && i in s'.cache && s'.cache[i].dirty
  }

  ghost predicate CanAttach(s: Fs, own: Owners, i: nat, k: nat, b: nat) {
    && Owns(s, own) && i in s.cache && k < SLOTS && Ptr(s, i, k) == 0
    && DStart(s.sb) <= b < s.sb.size && !Used(s, b) && BBlock(s.sb, b) < |s.disk|
  }

  /** The indirect block of any inode in use is an owned data-region block. */
  lemma IndirectOwned(s: Fs, own: Owners, j: nat)
    requires Owns(s, own) && InUse(s, j)
    ensures var ind := Ino(s, j).addrs[INDIRECT];
      ind != 0 ==> ind in own && own[ind] == (j, INDIRECT) && DStart(s.sb) <= ind < |s.disk|
  {
    assert Ptr(s, j, INDIRECT) == Ino(s, j).addrs[INDIRECT];
  }

  /** A write confined to the bitmap, an unowned block and the indirect block of `i` itself. */
  ghost predicate Confined(s: Fs, own: Owners, s': Fs, i: nat) {
    && i in s.cache && i in s'.cache
    && s' == s.(disk := s'.disk, cache := s.cache[i := s'.cache[i]])
    && SameAttrs(s.cache[i], s'.cache[i])
    && |s'.disk| == |s.disk|
    && forall x: nat :: x < |s.disk| && s'.disk[x] != s.disk[x] ==>
         s.sb.bmapstart <= x && (x in own ==> own[x] == (i, INDIRECT))
  }

  lemma ConfinedFrame(s: Fs, own: Owners, s': Fs, own': Owners, i: nat)
    requires Owns(s, own) && Confined(s, own, s', i) && OwnersElsewhere(own, own', i)
    ensures Shape(s') && Kept(s, own, s', own', i) && DataKept(s, own, s')
    ensures forall j: nat :: InUse(s', j) <==> InUse(s, j)
  {
    hide PointersOwned, OwnersPoint;
  }

  lemma ConfinedPtrs(s: Fs, own: Owners, s': Fs, own': Owners, i: nat, k: nat)
    requires Owns(s, own) && Confined(s, own, s', i) && OwnersElsewhere(own, own', i)
    requires k < SLOTS
    requires forall m: nat :: m < SLOTS && m != k ==> Ptr(s', i, m) == Ptr(s, i, m)
    ensures PtrsAgree(s, s', i, k)
  {
    hide PointersOwned, OwnersPoint, Ptr, Others, Confined;
    ConfinedFrame(s, own, s', own', i);
    forall j: nat, m: nat | InUse(s, j) && m < SLOTS && (j != i || m != k) ensures Ptr(s', j, m) == Ptr(s, j, m) {
      if j != i {
        OthersMaps(s, own, s', own', i, j, m);
      }
    }
    assert s'.sb == s.sb && |s'.table| == |s.table| by { ConfinedSame(s, own, s', i); }
  }

  lemma ConfinedSame(s: Fs, own: Owners, s': Fs, i: nat)
    requires Confined(s, own, s', i)
    ensures s'.sb == s.sb && s'.table == s.table
  {
  }

  lemma AttachFinish(s: Fs, own: Owners, s': Fs, i: nat, k: nat, b: nat)
    requires CanAttach(s, own, i, k, b) && Confined(s, own, s', i) && Shape(s') && InUse(s, i)
    requires forall m: nat :: m < SLOTS && m != k ==> Ptr(s', i, m) == Ptr(s, i, m)
    requires Ptr(s', i, k) == b && Used(s', b) && BitsAgree(s, s', b) && i in s'.cache && s'.cache[i].dirty
    ensures Attached(s, own, s', i, k, b)
  {
    hide Ptr, Used, Kept, DataKept, Confined, InUse, BitsAgree, PtrsAgree;
    var own' := own[b := (i, k)];
    UnusedUnowned(s, own, b);
    ConfinedFrame(s, own, s', own', i);
    ConfinedPtrs(s, own, s', own', i, k);
    AttachOwns(s, own, s', i, k, b);
  }

  lemma UnusedUnowned(s: Fs, own: Owners, b: nat)
    requires Owns(s, own) && !Used(s, b)
    ensures b !in own
  {
    hide Used;
  }

  lemma AttachDirectLaw(s: Fs, own: Owners, i: nat, k: nat, b: nat)
    requires CanAttach(s, own, i, k, b) && k < NDIRECT
    ensures Attached(s, own, AttachDirect(s, i, k, b), i, k, b)
  {
    hide IsSet, SetBit, WordAt, Decode, PointersOwned, OwnersPoint, Attached;
    var s' := AttachDirect(s, i, k, b);
    SetBitLaw(s.sb, s.disk, b, true);
    UnusedUnowned(s, own, b);
    IndirectOwned(s, own, i);
    BitmapUnowned(s, own);
    AttachFinish(s, own, s', i, k, b);
  }

  lemma BitmapUnowned(s: Fs, own: Owners)
    requires Owns(s, own)
    ensures forall x :: x in own ==> DStart(s.sb) <= x < |s.disk|
  {
  }

  lemma AttachIndirectLaw(s: Fs, own: Owners, i: nat, b: nat)
    requires CanAttach(s, own, i, INDIRECT, b)
    ensures Attached(s, own, AttachIndirect(s, i, b), i, INDIRECT, b)
    ensures forall m: nat :: INDIRECT < m < SLOTS ==> Ptr(AttachIndirect(s, i, b), i, m) == 0
  {
    hide IsSet, SetBit, WordAt, Decode, PointersOwned, OwnersPoint, Attached;
    var s' := AttachIndirect(s, i, b);
    var d := SetBit(s.sb, s.disk, b, true);
    SetBitLaw(s.sb, s.disk, b, true);
    WriteKeepsBits(s.sb, d, b, ZeroBlock());
    ZeroBlockReads();
    UnusedUnowned(s, own, b);
    BitmapUnowned(s, own);
    AttachFinish(s, own, s', i, INDIRECT, b);
  }

  lemma AttachEntryLaw(s: Fs, own: Owners, i: nat, j: nat, b: nat)
    requires CanAttach(s, own, i, 13 + j, b) && j < NINDIRECT
    requires s.cache[i].addrs[INDIRECT] != 0
    ensures s.cache[i].addrs[INDIRECT] < |s.disk| && b < U32
    ensures Attached(s, own, AttachEntry(s, i, j, b), i, 13 + j, b)
  {
    hide IsSet, SetBit, WordAt, SetWord, Decode, PointersOwned, OwnersPoint, Attached;
    IndirectOwned(s, own, i);
    var s' := AttachEntry(s, i, j, b);
    var ind := s.cache[i].addrs[INDIRECT];
    var d := SetBit(s.sb, s.disk, b, true);
    SetBitLaw(s.sb, s.disk, b, true);
    WriteKeepsBits(s.sb, d, ind, s'.disk[ind]);
    UnusedUnowned(s, own, b);
    BitmapUnowned(s, own);
    AttachFinish(s, own, s', i, 13 + j, b);
  }

  // ------------------------------------------------------------- get_block

  datatype Mapping = Hole | Mapped(block: nat, isNew: bool)

  /** What a failing call may leave behind: nothing, or one all-zero indirect block. */
  ghost predicate Residue(s: Fs, s': Fs, i: nat) {
    s' == s
    || (&& Ptr(s, i, INDIRECT) == 0 && Ptr(s', i, INDIRECT) != 0
        && forall k: nat :: INDIRECT < k < SLOTS ==> Ptr(s', i, k) == 0)
  }

  ghost predicate MapResult(s: Fs, own: Owners, s': Fs, own': Owners, i: nat, l: nat, create: bool,
                            r: Result<Mapping>) {
    && (forall m: nat :: m < MAXFILE && m != l ==> LMap(s', i, m) == LMap(s, i, m))
    && (r == Err(EFBIG) <==> l >= MAXFILE)
    && (l < NDIRECT && LMap(s, i, l) != 0 ==> r.Ok?)
    && (!create || l >= MAXFILE ==> s' == s && own' == own)
    && match r
       case Err(e) =>
         && (l < MAXFILE ==> LMap(s', i, l) == LMap(s, i, l))
         && Residue(s, s', i) && (l < NDIRECT || LMap(s, i, l) != 0 ==> s' == s && own' == own)
         && (e == ENOSPC || e == EIO || e == EFBIG)
         && (e == ENOSPC ==> create && LMap(s, i, l) == 0)
         && (e == ENOSPC ==> forall b: nat :: DStart(s.sb) <= b < s.sb.size ==> Used(s', b))
       case Ok(Hole) =>
         l < MAXFILE && !create && LMap(s, i, l) == 0
       case Ok(Mapped(b, isNew)) =>
         && l < MAXFILE && b != 0 && LMap(s', i, l) == b
         && (isNew <==> LMap(s, i, l) == 0)
         && (if isNew then !Used(s, b) else s' == s && own' == own)
  }

  /** Blocks that mapping logical block `l` of inode `i` takes: itself, and the indirect block if that is missing. */
  ghost function BlocksNeeded(s: Fs, i: nat, l: nat): nat {
    if l >= MAXFILE || LMap(s, i, l) != 0 then 0
    else if l < NDIRECT || Ptr(s, i, INDIRECT) != 0 then 1
    else 2
  }

  /** A successful create owns exactly the blocks it needed; one that ran out of space owns fewer. */
  ghost predicate Spent(s: Fs, own: Owners, own': Owners, i: nat, l: nat, r: Result<Mapping>) {
    && (r.Ok? && r.value.Mapped? ==> |own'| == |own| + BlocksNeeded(s, i, l))
    && (r == Err(ENOSPC) ==> |own'| < |own| + BlocksNeeded(s, i, l))
  }

  /**
   The block map is a partial map over 0..139 that only `create` extends, one
   logical block at a time; ownership, every other inode and all data are kept.
   */
  ghost predicate MapPost(s: Fs, own: Owners, s': Fs, own': Owners, i: nat, l: nat, create: bool, r: Result<Mapping>) {
    && Owns(s', own') && StraySame(s, own, s', own') && Kept(s, own, s', own', i) && DataKept(s, own, s')
    && (forall b :: b in own ==> b in own' && own'[b] == own[b])
    && (s' == s || (i in s'.cache && s'.cache[i].dirty))
    && MapResult(s, own, s', own', i, l, create, r)
    && Spent(s, own, own', i, l, r)
  }

  lemma MapUnchanged(s: Fs, own: Owners, i: nat, l: nat, create: bool, r: Result<Mapping>)
    requires Owns(s, own) && i in s.cache
    requires MapResult(s, own, s, own, i, l, create, r)
    ensures MapPost(s, own, s, own, i, l, create, r)
  {
    hide PointersOwned, OwnersPoint, Used, Ptr;
  }

  lemma AttachedMaps(s: Fs, own: Owners, s': Fs, i: nat, l: nat, b: nat)
    requires Shape(s) && InUse(s, i) && l < MAXFILE && Attached(s, own, s', i, SlotOf(l), b)
    requires LMap(s, i, l) == 0 && !Used(s, b) && b != 0 && (l < NDIRECT || Ptr(s, i, INDIRECT) != 0)
    ensures MapPost(s, own, s', own[b := (i, SlotOf(l))], i, l, true, Ok(Mapped(b, true)))
  {
    hide Owns, StraySame, Kept, DataKept, Used, Ptr, InUse, Shape;
    AttachedShape(s, own, s', i, SlotOf(l), b);
  }

  lemma AttachedShape(s: Fs, own: Owners, s': Fs, i: nat, k: nat, b: nat)
    requires Shape(s) && k < SLOTS && Attached(s, own, s', i, k, b)
    ensures Shape(s') && s'.sb == s.sb && |s'.table| == |s.table|
  {
  }

  lemma ResidueMaps(s: Fs, own: Owners, s': Fs, own': Owners, i: nat, l: nat, e: Errno)
    requires InUse(s, i) && NDIRECT <= l < MAXFILE && PtrsAgree(s, s', i, INDIRECT)
    requires Ptr(s, i, INDIRECT) == 0 && Ptr(s', i, INDIRECT) != 0
    requires forall m: nat :: INDIRECT < m < SLOTS ==> Ptr(s, i, m) == 0 && Ptr(s', i, m) == 0
    requires e == EIO || (e == ENOSPC && forall c: nat :: DStart(s.sb) <= c < s.sb.size ==> Used(s', c))
    ensures MapResult(s, own, s', own', i, l, true, Err(e))
  {
    hide Used, Ptr, InUse;
  }

  /** A fresh indirect block maps nothing yet: no logical block changed. */
  lemma IndirectResidue(s: Fs, own: Owners, s': Fs, i: nat, l: nat, b: nat, e: Errno)
    requires Owns(s, own) && InUse(s, i) && NDIRECT <= l < MAXFILE && Attached(s, own, s', i, INDIRECT, b) && b != 0
    requires Ptr(s, i, INDIRECT) == 0 && forall m: nat :: INDIRECT < m < SLOTS ==> Ptr(s', i, m) == 0
    requires e == EIO || (e == ENOSPC && forall c: nat :: DStart(s.sb) <= c < s.sb.size ==> Used(s', c))
    ensures MapPost(s, own, s', own[b := (i, INDIRECT)], i, l, true, Err(e))
  {
    hide Owns, StraySame, Kept, DataKept, Used, Ptr, InUse, PtrsAgree, MapResult;
    NoIndirectNoEntries(s, i);
    ResidueMaps(s, own, s', own[b := (i, INDIRECT)], i, l, e);
  }

  lemma NoIndirectNoEntries(s: Fs, i: nat)
    requires Ptr(s, i, INDIRECT) == 0
    ensures forall m: nat :: INDIRECT < m < SLOTS ==> Ptr(s, i, m) == 0
  {
  }

  /** Both allocations of one call: the indirect block, then the entry in it. */
  lemma TwoStepMaps(s: Fs, own: Owners, t: Fs, u: Fs, i: nat, l: nat, ind: nat, b: nat)
    requires Shape(s) && Shape(t) && s.sb == t.sb && InUse(s, i) && NDIRECT <= l < MAXFILE
    requires forall m: nat :: INDIRECT < m < SLOTS ==> Ptr(t, i, m) == 0
    requires Ptr(s, i, INDIRECT) == 0 && !Used(s, b) && b != 0
    requires Attached(s, own, t, i, INDIRECT, ind)
    requires Attached(t, own[ind := (i, INDIRECT)], u, i, SlotOf(l), b)
    ensures MapPost(s, own, u, own[ind := (i, INDIRECT)][b := (i, SlotOf(l))], i, l, true, Ok(Mapped(b, true)))
  {
    hide Owns, Kept, DataKept, Used, Ptr, InUse, Shape, StraySame;
    var own1 := own[ind := (i, INDIRECT)];
    var own2 := own1[b := (i, SlotOf(l))];
    NoIndirectNoEntries(s, i);
    AttachedShape(t, own1, u, i, SlotOf(l), b);
    DataKeptTransitive(s, own, t, own1, u);
    KeptTransitive(s, own, t, own1, u, own2, i);
    AttachedTwice(s, own, t, u, own2, i, l, b);
    StrayTransitive(s, own, t, own1, u, own2);
  }

  lemma AttachedTwice(s: Fs, own: Owners, t: Fs, u: Fs, own': Owners, i: nat, l: nat, b: nat)
    requires InUse(s, i) && InUse(t, i) && NDIRECT <= l < MAXFILE && !Used(s, b) && b != 0 && Ptr(u, i, SlotOf(l)) == b
    requires forall m: nat :: INDIRECT < m < SLOTS ==> Ptr(s, i, m) == 0 && Ptr(t, i, m) == 0
    requires PtrsAgree(s, t, i, INDIRECT) && PtrsAgree(t, u, i, SlotOf(l))
    ensures MapResult(s, own, u, own', i, l, true, Ok(Mapped(b, true)))
  {
    hide Used, Ptr, InUse;
    forall m: nat | m < MAXFILE && m != l ensures LMap(u, i, m) == LMap(s, i, m) {
      assert Ptr(u, i, SlotOf(m)) == Ptr(t, i, SlotOf(m));
    }
  }

  lemma StrayTransitive(s: Fs, own: Owners, t: Fs, own1: Owners, u: Fs, own2: Owners)
    requires StraySame(s, own, t, own1) && StraySame(t, own1, u, own2)
    ensures StraySame(s, own, u, own2)
  {
    hide Stray;
  }

  lemma DataKeptTransitive(s: Fs, own: Owners, t: Fs, own1: Owners, u: Fs)
    requires DataKept(s, own, t) && DataKept(t, own1, u)
    requires forall b :: b in own && own[b].1 != INDIRECT ==> b in own1 && own1[b] == own[b]
    ensures DataKept(s, own, u)
  {
  }

  ghost predicate Mapable(v: Volume, i: nat)
    reads v
  {
    Owns(v.View(), v.owner) && MetaMarked(v.View()) && i in v.cache
  }

  lemma AllocGivesData(s: Fs, b: nat)
    requires Shape(s) && MetaMarked(s)
    requires Searched(s.sb, b) && !Used(s, b) && TakenBelow(s.sb, s.disk, b)
    ensures DStart(s.sb) <= b < s.sb.size && b < U32 && BBlock(s.sb, b) < |s.disk| && b != 0
  {
    BitmapOnDevice(s.sb, b);
  }

  /** A new block is the lowest that was free: every data block below it is in use. */
  ghost predicate Lowest(s: Fs, r: Result<Mapping>) {
    r.Ok? && r.value.Mapped? && r.value.isNew ==>
      forall c: nat :: DStart(s.sb) <= c < r.value.block ==> Used(s, c)
  }

  lemma LowestTaken(s: Fs, own: Owners, u: Fs, own': Owners, b: nat)
    requires Owns(s, own) && TakenBelow(s.sb, s.disk, b) && b <= s.sb.size
    requires Owns(u, own') && StraySame(s, own, u, own') && forall x :: x in own ==> x in own'
    ensures Lowest(u, Ok(Mapped(b, true)))
  {
    hide PointersOwned, OwnersPoint, IsSet, StraySame;
    assert u.sb == s.sb by { SameLayout(s, own, u, own'); }
    forall c: nat | DStart(s.sb) <= c < b ensures Used(u, c) {
      UsedStays(s, own, u, own', c);
    }
  }

  lemma SameLayout(s: Fs, own: Owners, u: Fs, own': Owners)
    requires StraySame(s, own, u, own')
    ensures u.sb == s.sb
  {
  }

  lemma FullMeans(s: Fs)
    requires Shape(s) && TakenBelow(s.sb, s.disk, s.sb.size)
    ensures forall b: nat :: DStart(s.sb) <= b < s.sb.size ==> Used(s, b)
  {
    hide IsSet;
  }

  lemma StrayKeepsMeta(s: Fs, own: Owners, s': Fs, own': Owners)
    requires Owns(s, own) && Owns(s', own') && MetaMarked(s) && StrayGrows(s, own, s', own')
    ensures MetaMarked(s')
  {
    hide IsSet;
    forall c: nat | c < DStart(s.sb) ensures IsSet(s'.sb, s'.disk, c) {
      assert c !in own && Used(s, c);
      assert Stray(s, own, c);
      assert Stray(s', own', c);
    }
  }

  lemma MapPostMeta(s: Fs, own: Owners, s': Fs, own': Owners, i: nat, l: nat, create: bool, r: Result<Mapping>)
    requires Owns(s, own) && MetaMarked(s) && i < |s.table| && MapPost(s, own, s', own', i, l, create, r)
    ensures MetaMarked(s')
  {
    hide Owns, Kept, DataKept, MapResult, MetaMarked;
    StrayKeepsMeta(s, own, s', own');
  }

  lemma CanAttachNow(s: Fs, own: Owners, i: nat, k: nat, b: nat)
    requires Owns(s, own) && MetaMarked(s) && i in s.cache && k < SLOTS && Ptr(s, i, k) == 0
    requires Searched(s.sb, b) && !Used(s, b) && TakenBelow(s.sb, s.disk, b)
    ensures CanAttach(s, own, i, k, b) && b != 0 && b < U32 && DStart(s.sb) <= b < |s.disk|
  {
    hide PointersOwned, OwnersPoint, IsSet, Ptr;
    AllocGivesData(s, b);
  }

  // ------------------------------------- when `sb_getblk` finds no buffer

  /** The indirect block attached but not zeroed. */
  ghost function AttachStale(s: Fs, i: nat, b: nat): Fs
    requires i in s.cache && BBlock(s.sb, b) < |s.disk|
  {
    s.(disk := SetBit(s.sb, s.disk, b, true), cache := s.cache[i := Dirty(WithAddr(s.cache[i], INDIRECT, b))])
  }

  /** What `xv6fs_get_block` leaves behind without a buffer for a new indirect block. */
  ghost predicate LeftStale(s: Fs, own: Owners, s': Fs, i: nat) {
    exists b: nat :: StaleAt(s, own, s', i, b)
  }

  ghost predicate StaleAt(s: Fs, own: Owners, s': Fs, i: nat, b: nat) {
    CanAttach(s, own, i, INDIRECT, b) && 0 < b < |s.disk| && s' == AttachStale(s, i, b)
  }

  /**
   The words the block held before become block pointers: the failed call leaves the
   map alone if and only if they were all zero.
   */
  lemma StaleIndirect(s: Fs, own: Owners, s': Fs, i: nat, b: nat)
    requires StaleAt(s, own, s', i, b)
    ensures forall j: nat :: j < NINDIRECT ==> LMap(s', i, NDIRECT + j) == WordAt(s.disk[b], j)
    ensures (forall l: nat :: l < MAXFILE ==> LMap(s', i, l) == LMap(s, i, l)) <==>
            (forall j: nat :: j < NINDIRECT ==> WordAt(s.disk[b], j) == 0)
  {
    hide IsSet, SetBit, WordAt, Decode, PointersOwned, OwnersPoint;
    SetBitLaw(s.sb, s.disk, b, true);
    NoIndirectNoEntries(s, i);
    forall j: nat | j < NINDIRECT
      ensures LMap(s', i, NDIRECT + j) == WordAt(s.disk[b], j) && LMap(s, i, NDIRECT + j) == 0
    {
      assert SlotOf(NDIRECT + j) == 13 + j;
    }
    if forall l: nat :: l < MAXFILE ==> LMap(s', i, l) == LMap(s, i, l) {
      forall j: nat | j < NINDIRECT ensures WordAt(s.disk[b], j) == 0 {
        assert LMap(s', i, NDIRECT + j) == LMap(s, i, NDIRECT + j);
      }
    }
    if forall j: nat :: j < NINDIRECT ==> WordAt(s.disk[b], j) == 0 {
      forall l: nat | l < MAXFILE ensures LMap(s', i, l) == LMap(s, i, l) {
        assert l >= NDIRECT ==> l == NDIRECT + (l - NDIRECT);
      }
    }
  }

  /** With all words zero the call has failed like any other. */
  lemma StaleHarmless(s: Fs, own: Owners, s': Fs, i: nat, b: nat, l: nat)
    requires StaleAt(s, own, s', i, b) && forall j: nat :: j < NINDIRECT ==> WordAt(s.disk[b], j) == 0
    requires NDIRECT <= l < MAXFILE
    ensures MapPost(s, own, s', own[b := (i, INDIRECT)], i, l, true, Err(EIO))
  {
    hide IsSet, SetBit, PointersOwned, OwnersPoint, MapPost, Attached, Ptr;
    ZeroWords(s.disk[b]);
    SetBitLaw(s.sb, s.disk, b, true);
    assert s' == AttachIndirect(s, i, b);
    AttachIndirectLaw(s, own, i, b);
    IndirectResidue(s, own, s', i, l, b, EIO);
  }

  lemma ZeroWords(blk: Block)
    requires forall j: nat :: j < NINDIRECT ==> WordAt(blk, j) == 0
    ensures blk == ZeroBlock()
  {
    forall k: nat | k < BSIZE ensures blk[k] == 0 {
      assert WordAt(blk, k / 4) == 0;
    }
  }

  /**
   `xv6fs_get_block`.  Its contract is `MapPost`, unless `sb_getblk` found no buffer
   for a new indirect block: then that block stays attached with what it held.
   */
  method GetBlock(v: Volume, i: nat, l: nat, create: bool) returns (r: Result<Mapping>)
    requires Mapable(v, i)
    modifies v`disk, v`cache, v`faults, v`nobuf, v`owner
    ensures v.nobuf == old(v.nobuf) ==> MapPost(old(v.View()), old(v.owner), v.View(), v.owner, i, l, create, r)
    ensures v.nobuf == old(v.nobuf) ==> MetaMarked(v.View()) && Lowest(v.View(), r)
    ensures v.nobuf == old(v.nobuf) ==> if r == Err(EIO) then v.faults > old(v.faults) else v.faults == old(v.faults)
    ensures v.steady || !create || l < NDIRECT ==> v.nobuf == old(v.nobuf)
    ensures v.nobuf != old(v.nobuf) ==>
      && v.nobuf == old(v.nobuf) + 1 && v.faults == old(v.faults) && r == Err(EIO)
      && LeftStale(old(v.View()), old(v.owner), v.View(), i)
  {
    hide MetaMarked, MapPost, Attached, CanAttach, TakenBelow, PointersOwned, OwnersPoint, IsSet, SetBit, OneBit;
    hide BitAt, SetWord, Searched, WordAt, SetBlockBit;
    ghost var s, own := v.View(), v.owner;
    if l < NDIRECT {
      var diskBlock := v.cache[i].addrs[l];
      if diskBlock == 0 {
        if !create {
          r := Ok(Hole);
          MapUnchanged(s, own, i, l, create, r);
          return;
        }
        var a := BAlloc(v);
        if a.Err? {
          r := Err(a.error);
          if a.error == ENOSPC {
            FullMeans(s);
          }
          MapUnchanged(s, own, i, l, create, r);
          return;
        }
        var newBlock := a.value;
        CanAttachNow(s, own, i, l, newBlock);
        v.cache := v.cache[i := Dirty(WithAddr(v.cache[i], l, newBlock))];
        v.owner := v.owner[newBlock := (i, l)];
        AttachDirectLaw(s, own, i, l, newBlock);
        AttachedMaps(s, own, v.View(), i, l, newBlock);
        MapPostMeta(s, own, v.View(), v.owner, i, l, create, Ok(Mapped(newBlock, true)));
        PostOwns(s, own, v.View(), v.owner, i, l, create, Ok(Mapped(newBlock, true)));
        LowestTaken(s, own, v.View(), v.owner, newBlock);
        return Ok(Mapped(newBlock, true));
      }
      r := Ok(Mapped(diskBlock, false));
      MapUnchanged(s, own, i, l, create, r);
    } else if l < NDIRECT + NINDIRECT {
      r := GetIndirect(v, i, l, create);
    } else {
      r := Err(EFBIG);
      MapUnchanged(s, own, i, l, create, r);
    }
  }

  /** State of the indirect branch once the indirect block is at hand: as on entry, or with a fresh zeroed one. */
  ghost predicate IndirectReady(s: Fs, own: Owners, t: Fs, own1: Owners, i: nat, isNew: bool) {
    && Owns(s, own) && Owns(t, own1) && i in s.cache && i in t.cache && MetaMarked(s) && MetaMarked(t)
    && t.cache[i].addrs[INDIRECT] != 0
    && if isNew then
         && t.sb == s.sb && Ptr(s, i, INDIRECT) == 0
         && own1 == own[t.cache[i].addrs[INDIRECT] := (i, INDIRECT)]
         && Attached(s, own, t, i, INDIRECT, t.cache[i].addrs[INDIRECT])
         && (forall m: nat :: INDIRECT < m < SLOTS ==> Ptr(t, i, m) == 0)
         && (forall b: nat :: !Used(t, b) ==> !Used(s, b))
       else t == s && own1 == own
  }

  lemma IndirectAttached(s: Fs, own: Owners, i: nat, b: nat)
    requires CanAttach(s, own, i, INDIRECT, b) && MetaMarked(s) && b != 0
    ensures IndirectReady(s, own, AttachIndirect(s, i, b), own[b := (i, INDIRECT)], i, true)
  {
    hide PointersOwned, OwnersPoint, MetaMarked, Attached, IsSet, SetBit, WordAt, Decode;
    var t := AttachIndirect(s, i, b);
    AttachIndirectLaw(s, own, i, b);
    AttachedShape(s, own, t, i, INDIRECT, b);
    assert StraySame(s, own, t, own[b := (i, INDIRECT)]) && Owns(t, own[b := (i, INDIRECT)]) by {
      AttachedParts(s, own, t, i, INDIRECT, b);
    }
    StrayKeepsMeta(s, own, t, own[b := (i, INDIRECT)]);
    forall c: nat | !Used(t, c) ensures !Used(s, c) {
      if Used(s, c) {
        UsedStays(s, own, t, own[b := (i, INDIRECT)], c);
      }
    }
  }

  lemma AttachedParts(s: Fs, own: Owners, s': Fs, i: nat, k: nat, b: nat)
    requires Shape(s) && k < SLOTS && Attached(s, own, s', i, k, b)
    ensures Owns(s', own[b := (i, k)]) && StraySame(s, own, s', own[b := (i, k)])
  {
  }

  lemma UsedStays(s: Fs, own: Owners, t: Fs, own1: Owners, c: nat)
    requires Owns(s, own) && Owns(t, own1) && StraySame(s, own, t, own1) && Used(s, c)
    requires forall b :: b in own ==> b in own1
    ensures Used(t, c)
  {
    hide Used;
    if c !in own {
      assert Stray(s, own, c);
      assert Stray(t, own1, c);
    }
  }

  lemma IndirectFails(s: Fs, own: Owners, t: Fs, own1: Owners, i: nat, l: nat, isNew: bool, e: Errno)
    requires IndirectReady(s, own, t, own1, i, isNew) && NDIRECT <= l < MAXFILE && LMap(t, i, l) == 0
    requires e == EIO || (e == ENOSPC && forall c: nat :: DStart(t.sb) <= c < t.sb.size ==> Used(t, c))
    ensures MapPost(s, own, t, own1, i, l, true, Err(e))
  {
    hide PointersOwned, OwnersPoint, MetaMarked, Attached, IsSet, MapPost, Ptr;
    if isNew {
      IndirectResidue(s, own, t, i, l, t.cache[i].addrs[INDIRECT], e);
    } else {
      MapUnchanged(s, own, i, l, true, Err(e));
    }
  }

  lemma IndirectFills(s: Fs, own: Owners, t: Fs, own1: Owners, i: nat, l: nat, isNew: bool, b: nat)
    requires NDIRECT <= l < MAXFILE && IndirectReady(s, own, t, own1, i, isNew) && LMap(t, i, l) == 0
    requires CanAttach(t, own1, i, 13 + (l - NDIRECT), b) && b != 0 && b < U32 && t.cache[i].addrs[INDIRECT] < |t.disk|
    ensures MapPost(s, own, AttachEntry(t, i, l - NDIRECT, b), own1[b := (i, l + 1)], i, l, true, Ok(Mapped(b, true)))
  {
    hide PointersOwned, OwnersPoint, MetaMarked, Attached, IsSet, MapPost, Ptr, AttachEntry;
    AttachEntryLaw(t, own1, i, l - NDIRECT, b);
    var u := AttachEntry(t, i, l - NDIRECT, b);
    if isNew {
      TwoStepMaps(s, own, t, u, i, l, t.cache[i].addrs[INDIRECT], b);
    } else {
      IndirectPtr(s, i);
      AttachedMaps(s, own, u, i, l, b);
    }
  }

  lemma EntryLowest(t: Fs, own1: Owners, i: nat, j: nat, b: nat)
    requires j < NINDIRECT && CanAttach(t, own1, i, 13 + j, b) && b != 0 && b < U32 && b <= t.sb.size
    requires t.cache[i].addrs[INDIRECT] != 0 && t.cache[i].addrs[INDIRECT] < |t.disk| && TakenBelow(t.sb, t.disk, b)
    ensures Lowest(AttachEntry(t, i, j, b), Ok(Mapped(b, true)))
  {
    hide PointersOwned, OwnersPoint, Attached, IsSet, Ptr, AttachEntry, TakenBelow, Lowest;
    AttachEntryLaw(t, own1, i, j, b);
    AttachedParts(t, own1, AttachEntry(t, i, j, b), i, 13 + j, b);
    LowestTaken(t, own1, AttachEntry(t, i, j, b), own1[b := (i, 13 + j)], b);
  }

  lemma PostOwns(s: Fs, own: Owners, s': Fs, own': Owners, i: nat, l: nat, create: bool, r: Result<Mapping>)
    requires MapPost(s, own, s', own', i, l, create, r)
    ensures Owns(s', own') && StraySame(s, own, s', own') && forall b :: b in own ==> b in own'
  {
    hide Owns, StraySame, Kept, DataKept, MapResult, Spent;
  }

  lemma IndirectPtr(s: Fs, i: nat)
    requires i in s.cache
    ensures Ptr(s, i, INDIRECT) == s.cache[i].addrs[INDIRECT]
  {
  }

  /** The indirect half of `xv6fs_get_block`. */
  method GetIndirect(v: Volume, i: nat, l: nat, create: bool) returns (r: Result<Mapping>)
    requires Mapable(v, i) && NDIRECT <= l < MAXFILE
    modifies v`disk, v`cache, v`faults, v`nobuf, v`owner
    ensures v.nobuf == old(v.nobuf) ==> MapPost(old(v.View()), old(v.owner), v.View(), v.owner, i, l, create, r)
    ensures v.nobuf == old(v.nobuf) ==> MetaMarked(v.View()) && Lowest(v.View(), r)
    ensures v.nobuf == old(v.nobuf) ==> if r == Err(EIO) then v.faults > old(v.faults) else v.faults == old(v.faults)
    ensures v.steady || !create ==> v.nobuf == old(v.nobuf)
    ensures v.nobuf != old(v.nobuf) ==>
      && v.nobuf == old(v.nobuf) + 1 && v.faults == old(v.faults) && r == Err(EIO)
      && LeftStale(old(v.View()), old(v.owner), v.View(), i)
  {
    hide MetaMarked, MapPost, Attached, CanAttach, TakenBelow, PointersOwned, OwnersPoint, IsSet, SetBit, OneBit;
    hide BitAt, SetWord, Searched, SetBlockBit, IndirectReady, WordAt;
    ghost var s, own := v.View(), v.owner;
    var indBlock := v.cache[i].addrs[INDIRECT];
    var newIndirect := false;
    if indBlock == 0 {
      if !create {
        r := Ok(Hole);
        MapUnchanged(s, own, i, l, create, r);
        return;
      }
      var a := BAlloc(v);
      if a.Err? {
        r := Err(a.error);
        if a.error == ENOSPC {
          FullMeans(s);
        }
        MapUnchanged(s, own, i, l, create, r);
        return;
      }
      CanAttachNow(s, own, i, INDIRECT, a.value);
      v.cache := v.cache[i := Dirty(WithAddr(v.cache[i], INDIRECT, a.value))];
      v.owner := v.owner[a.value := (i, INDIRECT)];
      indBlock := a.value;
      newIndirect := true;
    }
    if newIndirect {
      var buffer := v.GetBlk(indBlock);
      if !buffer {
        assert StaleAt(s, own, v.View(), i, indBlock);
        return Err(EIO);
      }
      v.disk := Zeroed(v.disk, indBlock);
      IndirectAttached(s, own, i, indBlock);
    } else {
      var bh := v.BRead(indBlock);
      if bh.None? {
        r := Err(EIO);
        MapUnchanged(s, own, i, l, create, r);
        return;
      }
      IndirectAtHand(s, own, i);
    }
    r := GetEntry(v, i, l, create, s, own, newIndirect);
  }

  lemma IndirectAtHand(s: Fs, own: Owners, i: nat)
    requires Owns(s, own) && MetaMarked(s) && i in s.cache && s.cache[i].addrs[INDIRECT] != 0
    ensures IndirectReady(s, own, s, own, i, false)
  {
  }

  lemma ReadyParts(s: Fs, own: Owners, t: Fs, own1: Owners, i: nat, isNew: bool)
    requires IndirectReady(s, own, t, own1, i, isNew)
    ensures Owns(s, own) && MetaMarked(s) && i in s.cache && Owns(t, own1) && MetaMarked(t) && i in t.cache
    ensures if isNew then forall m: nat :: INDIRECT < m < SLOTS ==> Ptr(t, i, m) == 0 else t == s && own1 == own
    ensures var ind := t.cache[i].addrs[INDIRECT]; 0 < ind < |t.disk|
    ensures forall j: nat :: j < NINDIRECT ==> Ptr(t, i, 13 + j) == WordAt(t.disk[t.cache[i].addrs[INDIRECT]], j)
  {
    hide WordAt, MetaMarked, Attached, Decode;
    IndirectOwned(t, own1, i);
  }

  /** The entry in the indirect block buffer, which is at hand: `s`, `own` are the state the call began with. */
  method GetEntry(v: Volume, i: nat, l: nat, create: bool, ghost s: Fs, ghost own: Owners, newIndirect: bool)
    returns (r: Result<Mapping>)
    requires NDIRECT <= l < MAXFILE && IndirectReady(s, own, v.View(), v.owner, i, newIndirect)
    requires newIndirect ==> create
    modifies v`disk, v`cache, v`faults, v`owner
    ensures MapPost(s, own, v.View(), v.owner, i, l, create, r)
    ensures MetaMarked(v.View()) && Lowest(v.View(), r)
    ensures if r == Err(EIO) then v.faults > old(v.faults) else v.faults == old(v.faults)
  {
    hide MetaMarked, MapPost, Attached, CanAttach, TakenBelow, PointersOwned, OwnersPoint, IsSet, SetBit, OneBit;
    hide BitAt, SetWord, Searched, SetBlockBit, IndirectReady, WordAt;
    ghost var t, own1 := v.View(), v.owner;
    ReadyParts(s, own, t, own1, i, newIndirect);
    var indBlock := v.cache[i].addrs[INDIRECT];
    var j := l - NDIRECT;
    var diskBlock := WordAt(v.disk[indBlock], j);
    if diskBlock == 0 {
      if !create {
        r := Ok(Hole);
        MapUnchanged(s, own, i, l, create, r);
        return;
      }
      var a := BAlloc(v);
      if a.Err? {
        if a.error == ENOSPC {
          FullMeans(t);
        }
        IndirectFails(s, own, t, own1, i, l, newIndirect, a.error);
        return Err(a.error);
      }
      CanAttachNow(t, own1, i, 13 + j, a.value);
      v.disk := SetEntry(v.disk, indBlock, j, a.value);
      v.cache := v.cache[i := Dirty(v.cache[i])];
      v.owner := v.owner[a.value := (i, l + 1)];
      IndirectFills(s, own, t, own1, i, l, newIndirect, a.value);
      MapPostMeta(s, own, v.View(), v.owner, i, l, create, Ok(Mapped(a.value, true)));
      EntryLowest(t, own1, i, j, a.value);
      return Ok(Mapped(a.value, true));
    }
    r := Ok(Mapped(diskBlock, false));
    MapUnchanged(s, own, i, l, create, r);
  }
}
