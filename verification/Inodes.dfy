/** The inode lifecycle: free list, dinode table and in-core inodes (`inode.c`, `super.c`). */
module Inodes {
  import opened Bytes
  import opened Layout
  import opened Codec
  import opened Results
  import opened State
  import opened Bitmap
  import opened OnDisk
  import opened Ownership
  import opened BlockMap
  import opened Truncate
  import Cursor

  // ------------------------------------------------------------- invariants

  ghost predicate Distinct(xs: seq<nat>) {
    forall a, b :: 0 <= a < b < |xs| ==> xs[a] != xs[b]
  }

  /** The table slot of an inode that is not in use is blank. */
  ghost predicate BlankSlots(s: Fs) {
    forall i: nat :: 0 < i < |s.table| && !InUse(s, i) ==> s.table[i] == ZeroRaw()
  }

  /** What every mount leaves behind: a list of unused slots without duplicates, and its length. */
  ghost predicate ListOk(s: Fs) {
    && s.freeCount == |s.free| && Distinct(s.free) && BlankSlots(s)
    && (forall i :: i in s.free ==> i < |s.table| && !InUse(s, i))
  }

  /**
   The free list and the inodes in use partition 1..ninodes-1; the list has no
   duplicates and its counter is its length; free slots are blank; inode 0 is neither
   free nor in core.
   */
  ghost predicate Lists(s: Fs) {
    && s.freeCount == |s.free| && Distinct(s.free) && BlankSlots(s) && 0 !in s.cache
    && (forall i :: i in s.free ==> 0 < i < |s.table|)
    && (forall i: nat :: 0 < i < |s.table| ==> (i in s.free <==> !InUse(s, i)))
  }

  lemma ListsOk(s: Fs)
    requires Lists(s)
    ensures ListOk(s)
  {
    hide InUse;
  }

  /** A clean in-core inode is what its table slot decodes to. */
  ghost predicate CleanCached(s: Fs) {
    forall i :: i in s.cache && i < |s.table| && !s.cache[i].dirty ==> s.cache[i] == Decode(s.table[i])
  }

  function DiskSlot(sb: Super, disk: seq<Block>, i: nat): Raw {
    if IBlock(sb, i) < |disk| then RawAt(disk[IBlock(sb, i)], IOffset(i)) else ZeroRaw()
  }

  /** The dinode at byte `n` of the device holds the fields of `x`, each cut to its width. */
  ghost predicate HeldAt(disk: seq<Block>, n: nat, x: Inode) {
    && Le16(disk, n) == x.kind % 65536 && Le16(disk, n + 2) == x.major % 65536 && Le16(disk, n + 4) == x.minor % 65536
    && Le16(disk, n + 6) == x.nlink % 65536 && Le32(disk, n + 8) == x.size % 0x1_0000_0000
    && forall k: nat :: k < 13 ==> Le32(disk, n + 12 + 4 * k) == x.addrs[k] % 0x1_0000_0000
  }

  /** The inode table is one array of 64-byte dinodes from block `inodestart` on. */
  lemma SlotPlace(sb: Super, disk: seq<Block>, i: nat, k: nat)
    requires WellFormed(sb) && |disk| == sb.size && i < sb.ninodes && k < 64
    ensures DiskSlot(sb, disk, i)[k] == At(disk, 512 * sb.inodestart + 64 * i + k)
  {
    RegionsDisjoint(sb, i, i, 0, 0);
    Places(sb, i, 0, 0);
    AtBlock(disk, IBlock(sb, i), 64 * IOffset(i) + k);
  }

  lemma SlotHeld(sb: Super, disk: seq<Block>, i: nat)
    requires WellFormed(sb) && |disk| == sb.size && i < sb.ninodes
    ensures HeldAt(disk, 512 * sb.inodestart + 64 * i, Decode(DiskSlot(sb, disk, i)))
  {
    hide Decode, DiskSlot, At;
    forall k: nat | k < 64 ensures DiskSlot(sb, disk, i)[k] == At(disk, 512 * sb.inodestart + 64 * i + k) {
      SlotPlace(sb, disk, i, k);
    }
    var raw := DiskSlot(sb, disk, i);
    FieldPlaces(raw);
    forall at: nat | at + 2 <= 64 && at % 2 == 0
      ensures Num(raw, at, 2) == Le16(disk, 512 * sb.inodestart + 64 * i + at)
    {
      NumHalf(raw, at);
    }
    forall at: nat | at + 4 <= 64 && at % 4 == 0
      ensures Num(raw, at, 4) == Le32(disk, 512 * sb.inodestart + 64 * i + at)
    {
      NumWord(raw, at);
    }
  }

  /** Equal dinodes, or both free: the bytes of a free slot mean nothing. */
  predicate SameSlot(a: Raw, b: Raw) { a == b || (Kind(a) == 0 && Kind(b) == 0) }

  ghost predicate TableOnDisk(s: Fs) {
    forall i: nat :: i < |s.table| ==> SameSlot(s.table[i], DiskSlot(s.sb, s.disk, i))
  }

  /** Field widths: what the codec needs, and the alignment and bound of directory sizes. */
  ghost predicate InWidth(n: Inode) {
    && n.kind != 0 && -0x8000 <= n.kind < 0x8000 && -0x8000 <= n.major < 0x8000 && -0x8000 <= n.minor < 0x8000
    && n.nlink < U16 && n.size < U32
    && (n.kind == T_DIR ==> n.size % DIRENT_SIZE == 0 && n.size <= MAXFILE * BSIZE)
  }

  ghost predicate Widths(s: Fs) {
    forall i: nat :: InUse(s, i) ==> InWidth(Ino(s, i))
  }

  /** On every reachable state the codec loses nothing. */
  lemma Lossless(s: Fs, own: Owners, i: nat)
    requires Owns(s, own) && Widths(s) && InUse(s, i)
    ensures Fits(Ino(s, i)) && Decode(Encode(Ino(s, i))) == Ino(s, i).(dirty := false)
  {
    hide Used, Decode, Encode, PtrOf;
    DecodeEncode(Ino(s, i));
    forall k: nat | k < 13 ensures Ino(s, i).addrs[k] < U32 {
      AddrIsPtr(s, i, k);
    }
  }

  lemma AddrIsPtr(s: Fs, i: nat, k: nat)
    requires k < 13
    ensures Ino(s, i).addrs[k] == Ptr(s, i, k)
  {
    hide Decode;
  }

  // ------------------------------------------------------------------ frames

  /** Nothing of any inode but `i` moved: in core, in the table, on disk, or in its blocks. */
  ghost predicate Elsewhere(s: Fs, own: Owners, s': Fs, own': Owners, i: nat) {
    && s'.sb == s.sb && |s'.disk| == |s.disk| && |s'.table| == |s.table|
    && (forall j: nat :: j != i ==> (j in s'.cache <==> j in s.cache))
    && (forall j: nat :: j != i && j in s.cache ==> s'.cache[j] == s.cache[j])
    && (forall j: nat :: j != i && j < |s.table| ==> s'.table[j] == s.table[j])
    && OwnersElsewhere(own, own', i)
    && (forall b :: b in own && own[b].0 != i && b < |s.disk| ==> s'.disk[b] == s.disk[b])
    && (forall j: nat :: j != i && j < |s.table| ==> DiskSlot(s.sb, s'.disk, j) == DiskSlot(s.sb, s.disk, j))
  }

  lemma OthersElsewhere(s: Fs, own: Owners, s': Fs, own': Owners, i: nat)
    requires Shape(s) && Others(s, own, s', own', i)
    ensures Elsewhere(s, own, s', own', i)
    ensures s'.table == s.table && s'.free == s.free && s'.freeCount == s.freeCount
    ensures forall j: nat :: j < |s.table| ==> DiskSlot(s.sb, s'.disk, j) == DiskSlot(s.sb, s.disk, j)
  {
    forall j: nat | j < |s.table| ensures DiskSlot(s.sb, s'.disk, j) == DiskSlot(s.sb, s.disk, j) {
      RegionsDisjoint(s.sb, j, j, 0, 0);
    }
  }

  lemma ElsewhereTransitive(s: Fs, own: Owners, t: Fs, ownT: Owners, u: Fs, ownU: Owners, i: nat)
    requires Elsewhere(s, own, t, ownT, i) && Elsewhere(t, ownT, u, ownU, i)
    ensures Elsewhere(s, own, u, ownU, i)
  {
    hide DiskSlot;
  }

  /** Any other inode in use: same inode, same pointers, same contents of every block it owns. */
  lemma ElsewhereMaps(s: Fs, own: Owners, s': Fs, own': Owners, i: nat, j: nat, k: nat)
    requires Owns(s, own) && Elsewhere(s, own, s', own', i) && j != i && InUse(s, j) && k < SLOTS
    ensures InUse(s', j) && Ino(s', j) == Ino(s, j) && Ptr(s', j, k) == Ptr(s, j, k)
    ensures Ptr(s, j, k) != 0 ==> Ptr(s, j, k) < |s.disk| && s'.disk[Ptr(s, j, k)] == s.disk[Ptr(s, j, k)]
  {
    hide Used, Decode, WordAt, DiskSlot;
    assert Ino(s', j) == Ino(s, j);
    var p, q := Ptr(s, j, INDIRECT), Ptr(s, j, k);
    assert p != 0 ==> p in own && own[p] == (j, INDIRECT);
    assert q != 0 ==> q in own && own[q] == (j, k);
  }

  lemma ElsewhereInUse(s: Fs, own: Owners, s': Fs, own': Owners, i: nat, j: nat)
    requires Elsewhere(s, own, s', own', i) && j != i
    ensures InUse(s', j) <==> InUse(s, j)
    ensures Ino(s', j) == Ino(s, j)
  {
    hide Decode, DiskSlot, OwnersElsewhere;
  }

  /** Non-interference: the listing of every other directory is unchanged. */
  lemma ElsewhereSlots(s: Fs, own: Owners, s': Fs, own': Owners, i: nat, j: nat)
    requires Owns(s, own) && Elsewhere(s, own, s', own', i) && j != i && InUse(s, j)
    ensures Cursor.Slots(s', j) == Cursor.Slots(s, j)
  {
    hide Owns, Elsewhere, Ptr, Ino, DirentAt, InUse;
    ElsewhereInUse(s, own, s', own', i, j);
    SameDevice(s, own, s', own', i);
    forall p: nat ensures Cursor.Slot(s', j, p) == Cursor.Slot(s, j, p) {
      if p / DPB < MAXFILE {
        ElsewhereMaps(s, own, s', own', i, j, SlotOf(p / DPB));
      }
    }
  }

  // ------------------------------------------------------- contents of files

  ghost predicate SameBytes(s: Fs, s': Fs, b: nat) {
    b < |s.disk| && b < |s'.disk| && s'.disk[b] == s.disk[b]
  }

  /** Inode `j` has the same kind, device numbers, size and pointers, and its blocks hold the same bytes. */
  ghost predicate SameData(s: Fs, s': Fs, j: nat) {
    && InUse(s', j) && Ino(s', j) == Ino(s, j).(nlink := Ino(s', j).nlink, dirty := Ino(s', j).dirty)
    && forall k: nat :: k < SLOTS ==>
         Ptr(s', j, k) == Ptr(s, j, k) && (Ptr(s, j, k) != 0 ==> SameBytes(s, s', Ptr(s, j, k)))
  }

  /** So do all inodes in use but those in `touched`. */
  ghost predicate Untouched(s: Fs, s': Fs, touched: set<nat>) {
    forall j: nat :: InUse(s, j) && j !in touched ==> SameData(s, s', j)
  }

  lemma ElsewhereUntouched(s: Fs, own: Owners, s': Fs, own': Owners, i: nat)
    requires Owns(s, own) && Elsewhere(s, own, s', own', i)
    ensures Untouched(s, s', {i})
  {
    hide Owns, Elsewhere, InUse, Ino, Ptr;
    SameDevice(s, own, s', own', i);
    forall j: nat | InUse(s, j) && j != i ensures SameData(s, s', j) {
      ElsewhereInUse(s, own, s', own', i, j);
      forall k: nat | k < SLOTS
        ensures Ptr(s', j, k) == Ptr(s, j, k) && (Ptr(s, j, k) != 0 ==> SameBytes(s, s', Ptr(s, j, k)))
      {
        ElsewhereMaps(s, own, s', own', i, j, k);
      }
    }
  }

  lemma UntouchedTransitive(s: Fs, t: Fs, u: Fs, J: set<nat>, K: set<nat>)
    requires Untouched(s, t, J) && Untouched(t, u, K)
    ensures Untouched(s, u, J + K)
  {
    hide InUse, Ino, Ptr;
  }

  lemma UntouchedSelf(s: Fs, own: Owners)
    requires Owns(s, own)
    ensures Untouched(s, s, {})
  {
    hide PointersOwned, OwnersPoint, InUse, Ino, Ptr, Used;
    forall j: nat, k: nat | InUse(s, j) && k < SLOTS && Ptr(s, j, k) != 0 ensures SameBytes(s, s, Ptr(s, j, k)) {
      OwnedBlock(s, own, j, k);
    }
  }

  /** An inode that was not in use before has no contents to keep. */
  lemma UntouchedNew(s: Fs, s': Fs, touched: set<nat>, i: nat)
    requires Untouched(s, s', touched + {i}) && !InUse(s, i)
    ensures Untouched(s, s', touched)
  {
    hide InUse, SameData;
  }

  lemma UntouchedMore(s: Fs, s': Fs, touched: set<nat>, more: set<nat>)
    requires Untouched(s, s', touched) && touched <= more
    ensures Untouched(s, s', more)
  {
    hide InUse, SameData;
  }

  /** A step that moves the record of `i` but neither its pointers nor anything from the bitmap up. */
  lemma RecordUntouched(s: Fs, own: Owners, s': Fs, own': Owners, i: nat)
    requires Owns(s, own) && Elsewhere(s, own, s', own', i) && InUse(s, i) && InUse(s', i)
    requires Ino(s', i) == Ino(s, i).(nlink := Ino(s', i).nlink, dirty := Ino(s', i).dirty)
    requires forall k: nat :: k < SLOTS ==> Ptr(s', i, k) == Ptr(s, i, k)
    requires forall x: nat :: s.sb.bmapstart <= x < |s.disk| && x < |s'.disk| ==> s'.disk[x] == s.disk[x]
    ensures Untouched(s, s', {})
  {
    hide Elsewhere, InUse, Ino, Ptr, PointersOwned, OwnersPoint, Used;
    ElsewhereUntouched(s, own, s', own', i);
    SameDevice(s, own, s', own', i);
    forall k: nat | k < SLOTS && Ptr(s, i, k) != 0 ensures SameBytes(s, s', Ptr(s, i, k)) {
      OwnedBlock(s, own, i, k);
    }
  }

  /** Same data, same listing, and the same room in the block map. */
  lemma SameDataSlots(s: Fs, s': Fs, d: nat)
    requires SameData(s, s', d)
    ensures Cursor.Slots(s', d) == Cursor.Slots(s, d)
    ensures forall l: nat :: BlocksNeeded(s', d, l) == BlocksNeeded(s, d, l)
  {
    hide DirentAt, Ino, Ptr, InUse;
    forall p: nat ensures Cursor.Slot(s', d, p) == Cursor.Slot(s, d, p) {
      if p / DPB < MAXFILE {
        assert SlotOf(p / DPB) < SLOTS;
      }
    }
    forall l: nat ensures BlocksNeeded(s', d, l) == BlocksNeeded(s, d, l) {
      if l < MAXFILE {
        assert SlotOf(l) < SLOTS;
      }
    }
  }

  lemma SameDevice(s: Fs, own: Owners, s': Fs, own': Owners, i: nat)
    requires Elsewhere(s, own, s', own', i)
    ensures |s'.disk| == |s.disk| && s'.sb == s.sb && |s'.table| == |s.table|
  {
  }

  // ------------------------------------------------- the whole-volume invariant

  /**
   Ownership, the metadata bits, the inode partition, the agreement of in-core
   inodes with the table, and the field widths hold whatever reads fail.  As long as
   none has failed (`clean`), no block is leaked and the table is on disk.
   */
  ghost predicate Sound(s: Fs, own: Owners, clean: bool) {
    && Owns(s, own) && MetaMarked(s) && Lists(s) && CleanCached(s) && Widths(s)
    && (clean ==> NoLeak(s, own) && TableOnDisk(s))
  }

  lemma StraySameGrows(s: Fs, own: Owners, s': Fs, own': Owners)
    requires StraySame(s, own, s', own')
    ensures StrayGrows(s, own, s', own')
  {
    hide Stray;
  }

  lemma NoLeakKept(s: Fs, own: Owners, s': Fs, own': Owners)
    requires NoLeak(s, own) && StraySame(s, own, s', own')
    ensures NoLeak(s', own')
  {
    hide Stray;
  }

  lemma ListsKept(s: Fs, own: Owners, s': Fs, own': Owners, i: nat)
    requires Lists(s) && Elsewhere(s, own, s', own', i) && s'.free == s.free && s'.freeCount == s.freeCount
    requires (InUse(s', i) <==> InUse(s, i)) && (0 in s'.cache ==> 0 in s.cache) && (i == 0 || InUse(s, i))
    ensures Lists(s')
  {
    SameDevice(s, own, s', own', i);
    assert forall j: nat :: j != i && j < |s.table| ==> s'.table[j] == s.table[j];
    hide Elsewhere, InUse;
    forall j: nat ensures InUse(s', j) <==> InUse(s, j) {
      if j != i {
        ElsewhereInUse(s, own, s', own', i, j);
      }
    }
  }

  lemma WidthsKept(s: Fs, own: Owners, s': Fs, own': Owners, i: nat)
    requires Widths(s) && Elsewhere(s, own, s', own', i) && (InUse(s', i) ==> InWidth(Ino(s', i)))
    ensures Widths(s')
  {
    hide Elsewhere, InUse, Ino, InWidth;
    forall j: nat | InUse(s', j) ensures InWidth(Ino(s', j)) {
      if j != i {
        ElsewhereInUse(s, own, s', own', i, j);
      }
    }
  }

  lemma CleanCachedKept(s: Fs, own: Owners, s': Fs, own': Owners, i: nat)
    requires CleanCached(s) && Elsewhere(s, own, s', own', i)
    requires i in s'.cache && i < |s'.table| && !s'.cache[i].dirty ==> s'.cache[i] == Decode(s'.table[i])
    ensures CleanCached(s')
  {
    hide Decode, DiskSlot, OwnersElsewhere;
  }

  lemma TableOnDiskKept(s: Fs, own: Owners, s': Fs, own': Owners, i: nat)
    requires TableOnDisk(s) && Elsewhere(s, own, s', own', i)
    requires i < |s'.table| ==> SameSlot(s'.table[i], DiskSlot(s'.sb, s'.disk, i))
    ensures TableOnDisk(s')
  {
    hide DiskSlot, SameSlot, OwnersElsewhere;
  }

  /** One inode changed within its widths and is marked dirty (or did not change at all). */
  lemma SoundKept(s: Fs, own: Owners, s': Fs, own': Owners, i: nat, clean: bool, clean': bool)
    requires Sound(s, own, clean) && Owns(s', own') && Others(s, own, s', own', i) && i in s.cache && i in s'.cache
    requires StrayGrows(s, own, s', own') && (clean' ==> clean && StraySame(s, own, s', own'))
    requires InWidth(s'.cache[i]) && (s'.cache[i].dirty || s'.cache[i] == s.cache[i])
    ensures Sound(s', own', clean')
  {
    hide Owns, MetaMarked, Lists, CleanCached, Widths, NoLeak, TableOnDisk, StraySame, StrayGrows, Others;
    hide Elsewhere, InWidth, SameSlot, DiskSlot, Decode;
    assert Shape(s) && Shape(s') by { OwnsShape(s, own); OwnsShape(s', own'); }
    OthersElsewhere(s, own, s', own', i);
    ListsKept(s, own, s', own', i);
    WidthsKept(s, own, s', own', i);
    CleanSlot(s, i);
    CleanCachedKept(s, own, s', own', i);
    StrayKeepsMeta(s, own, s', own');
    if clean' {
      NoLeakKept(s, own, s', own');
      OnDiskSlot(s, i);
      TableOnDiskKept(s, own, s', own', i);
      SameDevice(s, own, s', own', i);
    }
  }

  lemma OwnsShape(s: Fs, own: Owners)
    requires Owns(s, own)
    ensures Shape(s)
  {
  }

  lemma CleanSlot(s: Fs, i: nat)
    requires CleanCached(s)
    ensures i in s.cache && i < |s.table| && !s.cache[i].dirty ==> s.cache[i] == Decode(s.table[i])
  {
    hide Decode;
  }

  lemma OnDiskSlot(s: Fs, i: nat)
    requires TableOnDisk(s)
    ensures i < |s.table| ==> SameSlot(s.table[i], DiskSlot(s.sb, s.disk, i))
  {
    hide DiskSlot, SameSlot;
  }

  // ---------------------------------------------------------- record steps

  /** Only inode records changed: pointers of inodes that stay in use are the same, a new inode has none. */
  lemma RecordsOwn(s: Fs, own: Owners, s': Fs)
    requires Owns(s, own) && Shape(s') && s'.sb == s.sb
    requires forall x: nat :: s.sb.bmapstart <= x < |s.disk| ==> s'.disk[x] == s.disk[x]
    requires forall j: nat :: InUse(s, j) ==> InUse(s', j) && Ino(s', j).addrs == Ino(s, j).addrs
    requires forall j: nat :: InUse(s', j) && !InUse(s, j) ==> Ino(s', j).addrs == NoAddrs()
    ensures Owns(s', own) && StraySame(s, own, s', own)
  {
    hide Used, Ptr, InUse, Ino;
    SameBits(s, s');
    SameRegionPtrs(s, own, s');
    NewHasNone(s, s');
    assert StraySame(s, own, s', own);
    OldPointersOwn(s, own, s');
  }

  lemma OldPointersOwn(s: Fs, own: Owners, s': Fs)
    requires Owns(s, own) && Shape(s') && s'.sb == s.sb && forall b: nat :: Used(s', b) <==> Used(s, b)
    requires forall j: nat :: InUse(s, j) ==> InUse(s', j)
    requires forall j: nat, m: nat :: InUse(s, j) && m < SLOTS ==> Ptr(s', j, m) == Ptr(s, j, m)
    requires forall j: nat, m: nat :: InUse(s', j) && !InUse(s, j) && m < SLOTS ==> Ptr(s', j, m) == 0
    ensures Owns(s', own)
  {
    hide Used, Ptr, InUse, Shape;
  }

  lemma NewHasNone(s: Fs, s': Fs)
    requires forall j: nat :: InUse(s', j) && !InUse(s, j) ==> Ino(s', j).addrs == NoAddrs()
    ensures forall j: nat, m: nat :: InUse(s', j) && !InUse(s, j) && m < SLOTS ==> Ptr(s', j, m) == 0
  {
    hide InUse, Ino, WordAt;
  }

  lemma SameBits(s: Fs, s': Fs)
    requires Shape(s) && Shape(s') && s'.sb == s.sb
    requires forall x: nat :: s.sb.bmapstart <= x < |s.disk| ==> s'.disk[x] == s.disk[x]
    ensures forall b: nat :: Used(s', b) <==> Used(s, b)
  {
    hide BlockBit;
    forall b: nat ensures Used(s', b) <==> Used(s, b) {
      if b < s.sb.size {
        BitmapOnDevice(s.sb, b);
      }
    }
  }

  lemma SameRegionPtrs(s: Fs, own: Owners, s': Fs)
    requires Owns(s, own) && Shape(s') && s'.sb == s.sb
    requires forall x: nat :: s.sb.bmapstart <= x < |s.disk| ==> s'.disk[x] == s.disk[x]
    requires forall j: nat :: InUse(s, j) ==> InUse(s', j) && Ino(s', j).addrs == Ino(s, j).addrs
    ensures forall j: nat, m: nat :: InUse(s, j) && m < SLOTS ==> Ptr(s', j, m) == Ptr(s, j, m)
  {
    hide Used, Ino, WordAt, InUse, PointersOwned, OwnersPoint;
    forall j: nat, m: nat | InUse(s, j) && m < SLOTS ensures Ptr(s', j, m) == Ptr(s, j, m) {
      IndirectOwned(s, own, j);
    }
  }

  // --------------------------------------------------------------- new_inode

  /** A file has one link from the start, a directory two; neither has contents. */
  function FreshInode(isDir: bool): (n: Inode)
    ensures n.kind == (if isDir then 1 else 2) && n.nlink == (if isDir then 2 else 1)
    ensures n.major == 0 && n.minor == 0 && n.size == 0 && n.dirty && forall k: nat :: k < 13 ==> n.addrs[k] == 0
  {
    if isDir then Inode(T_DIR, 0, 0, 2, 0, NoAddrs(), true) else Inode(T_FILE, 0, 0, 1, 0, NoAddrs(), true)
  }

  ghost function NewState(s: Fs, isDir: bool): Fs
    requires |s.free| > 0 && s.freeCount > 0
  {
    s.(free := s.free[1..], freeCount := s.freeCount - 1, cache := s.cache[s.free[0] := FreshInode(isDir)])
  }

  /** The first free inode comes into use with no blocks; nothing of any other inode moves. */
  lemma NewInodeLaw(s: Fs, own: Owners, isDir: bool, clean: bool)
    requires Sound(s, own, clean) && |s.free| > 0
    ensures s.freeCount > 0 && 0 < s.free[0] < |s.table| && !InUse(s, s.free[0])
    ensures var s' := NewState(s, isDir);
      Sound(s', own, clean) && Elsewhere(s, own, s', own, s.free[0]) && InUse(s', s.free[0])
  {
    hide IsSet, DiskSlot, Decode, PointersOwned, OwnersPoint, SameSlot, StraySame, NoLeak, MetaMarked, Widths;
    hide TableOnDisk, CleanCached, InWidth;
    var s' := NewState(s, isDir);
    var i := s.free[0];
    assert i in s.free;
    assert Shape(s');
    RecordsOwn(s, own, s');
    StraySameGrows(s, own, s', own);
    StrayKeepsMeta(s, own, s', own);
    NewLists(s, isDir);
    assert Elsewhere(s, own, s', own, i);
    FreshInWidth(isDir);
    WidthsKept(s, own, s', own, i);
    CleanCachedKept(s, own, s', own, i);
    if clean {
      NoLeakKept(s, own, s', own);
      OnDiskSlot(s, i);
      TableOnDiskKept(s, own, s', own, i);
    }
  }

  lemma FreshInWidth(isDir: bool)
    ensures InWidth(FreshInode(isDir))
  {
  }

  lemma NewLists(s: Fs, isDir: bool)
    requires Shape(s) && Lists(s) && |s.free| > 0
    ensures Lists(NewState(s, isDir))
  {
    var s' := NewState(s, isDir);
    var i := s.free[0];
    assert i in s.free && i !in s'.free;
    assert forall j :: j in s'.free ==> j in s.free;
    forall j: nat | 0 < j < |s.table| ensures j in s'.free <==> !InUse(s', j) {
      assert j != i ==> (j in s'.free <==> j in s.free);
    }
  }

  /** Any mount's list will do for the list itself and for block ownership. */
  lemma NewOwns(s: Fs, own: Owners, isDir: bool)
    requires Shape(s) && ListOk(s) && |s.free| > 0
    ensures var s' := NewState(s, isDir); Shape(s') && ListOk(s') && InUse(s', s.free[0])
    ensures Owns(s, own) ==>
      Owns(NewState(s, isDir), own) && StraySame(s, own, NewState(s, isDir), own)
  {
    hide IsSet, Decode, PointersOwned, OwnersPoint, StraySame;
    var s' := NewState(s, isDir);
    assert s.free[0] in s.free;
    assert forall j :: j in s'.free ==> j in s.free && j != s.free[0];
    if Owns(s, own) {
      RecordsOwn(s, own, s');
    }
  }

  /**
   `xv6fs_new_inode`, including the undo when no VFS inode can be had.  It takes
   whatever number heads the list, 0 as well.
   */
  method NewInode(v: Volume, isDir: bool) returns (r: Result<nat>)
    requires Shape(v.View()) && ListOk(v.View())
    modifies v`free, v`freeCount, v`cache, v`oom
    ensures r == Err(ENOSPC) <==> |old(v.free)| == 0
    ensures r.Err? ==> v.View() == old(v.View()) && (r.error == ENOSPC || r.error == ENOMEM)
    ensures v.oom == old(v.oom) + if r == Err(ENOMEM) then 1 else 0
    ensures r.Ok? ==>
      && |old(v.free)| > 0 && r.value == old(v.free)[0] && old(v.freeCount) > 0
      && v.View() == NewState(old(v.View()), isDir)
      && !InUse(old(v.View()), r.value) && InUse(v.View(), r.value) && ListOk(v.View())
    ensures r.Ok? && Owns(old(v.View()), v.owner) ==> Owns(v.View(), v.owner)
    ensures r.Ok? && Sound(old(v.View()), v.owner, v.faults == 0) ==> Sound(v.View(), v.owner, v.faults == 0)
  {
    hide Owns, MetaMarked, NoLeak, Widths, CleanCached, TableOnDisk, InUse, Elsewhere, Sound;
    ghost var s := v.View();
    if |v.free| == 0 {
      return Err(ENOSPC);
    }
    var ino := v.free[0];
    v.free := v.free[1..];
    v.freeCount := v.freeCount - 1;
    var nomem: bool := *;
    if nomem {
      v.oom := v.oom + 1;
      v.free := [ino] + v.free;
      v.freeCount := v.freeCount + 1;
      return Err(ENOMEM);
    }
    v.cache := v.cache[ino := FreshInode(isDir)];
    NewOwns(s, v.owner, isDir);
    if Sound(s, v.owner, v.faults == 0) {
      NewInodeLaw(s, v.owner, isDir, v.faults == 0);
    }
    return Ok(ino);
  }

  // -------------------------------------------------------------------- iget

  /** No inode that `xv6fs_iget` can return: out of range, or not in core and of no known kind. */
  ghost predicate Unreadable(s: Fs, i: nat) {
    i == 0 || i >= s.sb.ninodes || (i !in s.cache && Ino(s, i).kind !in {T_DIR, T_FILE, T_DEV})
  }

  ghost function LoadedState(s: Fs, i: nat): Fs {
    s.(cache := s.cache[i := Ino(s, i)])
  }

  /** Loading an inode in use changes nothing the driver can see. */
  lemma LoadLaw(s: Fs, own: Owners, i: nat, clean: bool)
    requires Sound(s, own, clean) && InUse(s, i)
    ensures var s' := LoadedState(s, i);
      && Sound(s', own, clean) && Elsewhere(s, own, s', own, i)
      && InUse(s', i) && Ino(s', i) == Ino(s, i) && (forall k: nat :: k < SLOTS ==> Ptr(s', i, k) == Ptr(s, i, k))
  {
    hide IsSet, DiskSlot, Decode, PointersOwned, OwnersPoint, SameSlot, StraySame, NoLeak, MetaMarked, Widths;
    hide TableOnDisk, CleanCached, InWidth, Lists, WordAt;
    var s' := LoadedState(s, i);
    assert Shape(s');
    RecordsOwn(s, own, s');
    StraySameGrows(s, own, s', own);
    StrayKeepsMeta(s, own, s', own);
    assert Elsewhere(s, own, s', own, i);
    ListsKept(s, own, s', own, i);
    InWidthOf(s, i);
    WidthsKept(s, own, s', own, i);
    CleanSlot(s, i);
    CleanCachedKept(s, own, s', own, i);
    if clean {
      NoLeakKept(s, own, s', own);
      OnDiskSlot(s, i);
      TableOnDiskKept(s, own, s', own, i);
    }
  }

  lemma InWidthOf(s: Fs, i: nat)
    requires Widths(s) && InUse(s, i)
    ensures InWidth(Ino(s, i))
  {
    hide InWidth, Ino;
  }

  // ------------------------------------------------------------- write_inode

  /** The fields of an inode are at its place after the write, and no other byte of the device has changed. */
  lemma SlotWritten(sb: Super, disk: seq<Block>, i: nat, x: Inode)
    requires WellFormed(sb) && |disk| == sb.size && i < sb.ninodes
    ensures IBlock(sb, i) < |disk|
    ensures var d, n := SetDiskSlot(sb, disk, i, Encode(x)), 512 * sb.inodestart + 64 * i;
      SameBut(disk, d, n, n + 64) && HeldAt(d, n, x)
  {
    hide Encode, Decode, DiskSlot, SetRaw, HeldAt;
    DiskSlotLaw(sb, disk, i, Encode(x));
    var d, n := SetDiskSlot(sb, disk, i, Encode(x)), 512 * sb.inodestart + 64 * i;
    SlotHeld(sb, d, i);
    CutToWidth(d, n, x);
    Places(sb, i, 0, 0);
    forall m: nat | !(n <= m < n + 64) ensures At(d, m) == At(disk, m) {
      BlockReplaced(disk, IBlock(sb, i), d[IBlock(sb, i)], m);
      OtherSlotByte(disk[IBlock(sb, i)], IOffset(i), Encode(x), m % 512);
    }
  }

  lemma CutToWidth(disk: seq<Block>, n: nat, x: Inode)
    requires HeldAt(disk, n, Decode(Encode(x)))
    ensures HeldAt(disk, n, x)
  {
    hide Encode, HalfAt, WordAt, Le16, Le32;
    EncodeFields(x);
    var y := Decode(Encode(x));
    assert HalfAt(Encode(x), 0) == HalfField(x, 0) && HalfAt(Encode(x), 1) == HalfField(x, 1);
    assert HalfAt(Encode(x), 2) == HalfField(x, 2) && HalfAt(Encode(x), 3) == HalfField(x, 3);
    forall k: nat | k < 13 ensures y.addrs[k] == x.addrs[k] % 0x1_0000_0000 {
      assert WordAt(Encode(x), 3 + k) == WordField(x, 3 + k);
    }
    assert WordAt(Encode(x), 2) == WordField(x, 2);
  }

  lemma OtherSlotByte(blk: Block, i: nat, raw: Raw, k: nat)
    requires i < 8 && k < 512
    ensures !(64 * i <= k < 64 * i + 64) ==> SetRaw(blk, i, raw)[k] == blk[k]
  {
  }

  function SetDiskSlot(sb: Super, disk: seq<Block>, i: nat, raw: Raw): (d: seq<Block>)
    requires IBlock(sb, i) < |disk|
    ensures |d| == |disk|
  {
    disk[IBlock(sb, i) := SetRaw(disk[IBlock(sb, i)], IOffset(i), raw)]
  }

  /** Writing one dinode changes that slot of the table on disk and nothing above the inode region. */
  lemma DiskSlotLaw(sb: Super, disk: seq<Block>, i: nat, raw: Raw)
    requires WellFormed(sb) && |disk| == sb.size && i < sb.ninodes
    ensures IBlock(sb, i) < sb.bmapstart < |disk|
    ensures var d := SetDiskSlot(sb, disk, i, raw);
      && |d| == |disk| && DiskSlot(sb, d, i) == raw
      && (forall j: nat :: j < sb.ninodes && j != i ==> DiskSlot(sb, d, j) == DiskSlot(sb, disk, j))
      && (forall x: nat :: sb.bmapstart <= x < |disk| ==> d[x] == disk[x])
  {
    hide RawAt, SetRaw;
    RegionsDisjoint(sb, i, i, 0, 0);
    forall j: nat | j < sb.ninodes && j != i
      ensures DiskSlot(sb, SetDiskSlot(sb, disk, i, raw), j) == DiskSlot(sb, disk, j)
    {
      RegionsDisjoint(sb, i, j, 0, 0);
    }
  }

  /** Table slot `i` becomes `raw`; the disk slot follows unless its block could not be read. */
  ghost predicate SlotStored(s: Fs, s': Fs, i: nat, raw: Raw) {
    && |s'.disk| == |s.disk| && s'.sb == s.sb && i < |s.table| && s'.table == s.table[i := raw]
    && (s'.disk == s.disk || (IBlock(s.sb, i) < |s.disk| && s'.disk == SetDiskSlot(s.sb, s.disk, i, raw)))
  }

  ghost predicate DiskStored(s: Fs, s': Fs, i: nat) {
    i < |s'.table| && DiskSlot(s'.sb, s'.disk, i) == s'.table[i]
  }

  lemma StoredFrame(s: Fs, own: Owners, s': Fs, i: nat, raw: Raw)
    requires Owns(s, own) && SlotStored(s, s', i, raw)
    requires (forall j: nat :: j != i ==> (j in s'.cache <==> j in s.cache))
    requires forall j: nat :: j != i && j in s.cache ==> s'.cache[j] == s.cache[j]
    ensures forall own' :: OwnersElsewhere(own, own', i) ==> Elsewhere(s, own, s', own', i)
    ensures forall x: nat :: s.sb.bmapstart <= x < |s.disk| ==> s'.disk[x] == s.disk[x]
    ensures IBlock(s.sb, i) < |s.disk| && (s'.disk == SetDiskSlot(s.sb, s.disk, i, raw) ==> DiskStored(s, s', i))
  {
    hide PointersOwned, DiskSlot, SetDiskSlot, Used, Ptr;
    DiskSlotLaw(s.sb, s.disk, i, raw);
  }

  ghost function WrittenState(s: Fs, i: nat, disk: seq<Block>): Fs
    requires i in s.cache && i < |s.table|
  {
    s.(disk := disk, table := s.table[i := Encode(s.cache[i])], cache := s.cache[i := s.cache[i].(dirty := false)])
  }

  /** Whatever its fields are, writing an inode moves no pointer. */
  lemma WrittenOwns(s: Fs, own: Owners, i: nat, disk: seq<Block>)
    requires Owns(s, own) && i in s.cache && i < |s.table| && IBlock(s.sb, i) < |s.disk|
    requires disk == s.disk || disk == SetDiskSlot(s.sb, s.disk, i, Encode(s.cache[i]))
    ensures var s' := WrittenState(s, i, disk);
      && Owns(s', own) && StraySame(s, own, s', own) && Elsewhere(s, own, s', own, i)
      && InUse(s, i) && InUse(s', i) && (forall k: nat :: k < SLOTS ==> Ptr(s', i, k) == Ptr(s, i, k))
      && forall x: nat :: s.sb.bmapstart <= x < |s.disk| && x < |s'.disk| ==> s'.disk[x] == s.disk[x]
  {
    hide IsSet, DiskSlot, SetDiskSlot, Decode, Encode, PointersOwned, OwnersPoint, StraySame, WordAt, Elsewhere;
    var s' := WrittenState(s, i, disk);
    assert InUse(s, i) && Shape(s');
    StoredFrame(s, own, s', i, Encode(s.cache[i]));
    SelfElsewhere(own, i);
    assert Elsewhere(s, own, s', own, i);
    assert forall j: nat :: InUse(s, j) ==> InUse(s', j) && Ino(s', j).addrs == Ino(s, j).addrs by {
      SameRecords(s, own, s', i);
    }
    NoNewInodes(s, own, s', i);
    RegionPtrs(s, own, s', i);
    RecordsOwn(s, own, s');
  }

  /** The inode now reads from the table as it was in core, and, if the block could be read, from disk as well. */
  lemma WriteInodeLaw(s: Fs, own: Owners, i: nat, disk: seq<Block>, clean: bool, clean': bool)
    requires Sound(s, own, clean) && i in s.cache && i < |s.table| && IBlock(s.sb, i) < |s.disk|
    requires disk == s.disk || disk == SetDiskSlot(s.sb, s.disk, i, Encode(s.cache[i]))
    requires clean' ==> clean && disk == SetDiskSlot(s.sb, s.disk, i, Encode(s.cache[i]))
    ensures var s' := WrittenState(s, i, disk);
      && Sound(s', own, clean') && Elsewhere(s, own, s', own, i)
      && s'.cache[i] == Decode(s'.table[i]) && (clean' ==> DiskSlot(s'.sb, s'.disk, i) == s'.table[i])
      && (forall k: nat :: k < SLOTS ==> Ptr(s', i, k) == Ptr(s, i, k))
  {
    hide IsSet, DiskSlot, SetDiskSlot, Decode, Encode, PointersOwned, OwnersPoint, SameSlot, StraySame, NoLeak;
    hide MetaMarked, Widths, TableOnDisk, CleanCached, InWidth, Lists, WordAt, Elsewhere;
    var s' := WrittenState(s, i, disk);
    assert Shape(s');
    WrittenOwns(s, own, i, disk);
    Lossless(s, own, i);
    assert clean' ==> DiskSlot(s'.sb, s'.disk, i) == s'.table[i] by {
      StoredFrame(s, own, s', i, Encode(s.cache[i]));
    }
    StraySameGrows(s, own, s', own);
    StrayKeepsMeta(s, own, s', own);
    ListsKept(s, own, s', own, i);
    InWidthOf(s, i);
    DirtyWidth(s.cache[i]);
    WidthsKept(s, own, s', own, i);
    CleanCachedKept(s, own, s', own, i);
    if clean' {
      NoLeakKept(s, own, s', own);
      SlotItself(s'.table[i]);
      TableOnDiskKept(s, own, s', own, i);
    }
  }

  lemma SelfElsewhere(own: Owners, i: nat)
    ensures OwnersElsewhere(own, own, i)
  {
  }

  lemma DirtyWidth(n: Inode)
    requires InWidth(n)
    ensures InWidth(n.(dirty := false)) && InWidth(n.(dirty := true))
  {
  }

  lemma SlotItself(raw: Raw)
    ensures SameSlot(raw, raw)
  {
  }

  lemma SameRecords(s: Fs, own: Owners, s': Fs, i: nat)
    requires Elsewhere(s, own, s', own, i) && InUse(s', i) && Ino(s', i).addrs == Ino(s, i).addrs
    ensures forall j: nat :: InUse(s, j) ==> InUse(s', j) && Ino(s', j).addrs == Ino(s, j).addrs
  {
    hide Elsewhere, InUse, Ino;
    forall j: nat | InUse(s, j) ensures InUse(s', j) && Ino(s', j).addrs == Ino(s, j).addrs {
      if j != i {
        ElsewhereInUse(s, own, s', own, i, j);
      }
    }
  }

  lemma NoNewInodes(s: Fs, own: Owners, s': Fs, i: nat)
    requires Elsewhere(s, own, s', own, i) && InUse(s, i)
    ensures forall j: nat :: InUse(s', j) ==> InUse(s, j)
  {
    hide Elsewhere, InUse, Ino;
    forall j: nat | InUse(s', j) ensures InUse(s, j) {
      if j != i {
        ElsewhereInUse(s, own, s', own, i, j);
      }
    }
  }

  lemma RegionPtrs(s: Fs, own: Owners, s': Fs, i: nat)
    requires Owns(s, own) && Shape(s') && s'.sb == s.sb && InUse(s, i) && Ino(s', i).addrs == Ino(s, i).addrs
    requires forall x: nat :: s.sb.bmapstart <= x < |s.disk| ==> s'.disk[x] == s.disk[x]
    ensures forall k: nat :: k < SLOTS ==> Ptr(s', i, k) == Ptr(s, i, k)
  {
    hide Used, Ino, WordAt, InUse, PointersOwned, OwnersPoint;
    IndirectOwned(s, own, i);
  }

  lemma WriteInodeKeeps(s: Fs, own: Owners, i: nat, disk: seq<Block>, clean: bool, clean': bool)
    requires i in s.cache && i < |s.table| && IBlock(s.sb, i) < |s.disk|
    requires disk == s.disk || disk == SetDiskSlot(s.sb, s.disk, i, Encode(s.cache[i]))
    requires clean' ==> clean && disk == SetDiskSlot(s.sb, s.disk, i, Encode(s.cache[i]))
    ensures var s' := WrittenState(s, i, disk);
      && (Owns(s, own) ==> Owns(s', own) && Elsewhere(s, own, s', own, i) && StraySame(s, own, s', own))
      && (Sound(s, own, clean) ==> Sound(s', own, clean') && s'.cache[i] == Decode(s'.table[i]))
  {
    hide Owns, Elsewhere, Sound, Decode, Encode, SetDiskSlot, Ptr, InUse, StraySame;
    if Owns(s, own) {
      WrittenOwns(s, own, i, disk);
    }
    if Sound(s, own, clean) {
      WriteInodeLaw(s, own, i, disk, clean, clean');
    }
  }

  /** `xv6fs_write_inode`: through the table to the inode block. */
  method WriteInode(v: Volume, i: nat) returns (r: Result<()>)
    requires Shape(v.View()) && i in v.cache
    modifies v`disk, v`table, v`cache, v`faults
    ensures i < |old(v.table)| && v.View() == WrittenState(old(v.View()), i, v.disk) && Shape(v.View())
    ensures IBlock(v.sb, i) < |old(v.disk)|
    ensures r.Ok? ==> v.disk == SetDiskSlot(v.sb, old(v.disk), i, Encode(old(v.cache[i])))
    ensures r.Ok? ==> DiskSlot(v.sb, v.disk, i) == v.table[i] && v.faults == old(v.faults)
    ensures r.Ok? ==>
      var n := 512 * v.sb.inodestart + 64 * i;
      SameBut(old(v.disk), v.disk, n, n + 64) && HeldAt(v.disk, n, old(v.cache[i]))
    ensures r.Err? ==> r.error == EIO && v.faults > old(v.faults) && v.disk == old(v.disk)
    ensures Owns(old(v.View()), v.owner) ==>
      && Owns(v.View(), v.owner) && Elsewhere(old(v.View()), v.owner, v.View(), v.owner, i)
      && StraySame(old(v.View()), v.owner, v.View(), v.owner)
    ensures Sound(old(v.View()), v.owner, old(v.faults) == 0) ==>
      Sound(v.View(), v.owner, v.faults == 0) && v.cache[i] == Decode(v.table[i])
  {
    hide IsSet, Decode, Encode, PointersOwned, OwnersPoint, NoLeak, MetaMarked, Widths, TableOnDisk;
    hide CleanCached, Lists, Sound, Elsewhere, SetRaw, RawAt, StraySame, HeldAt, SameBut;
    ghost var s, own, clean := v.View(), v.owner, v.faults == 0;
    SlotWritten(s.sb, s.disk, i, s.cache[i]);
    DiskSlotLaw(s.sb, s.disk, i, Encode(s.cache[i]));
    var raw := DinodeToDisk(v.cache[i], v.table[i]);
    v.table := v.table[i := raw];
    var bh := v.BRead(IBlock(v.sb, i));
    if bh.None? {
      v.cache := v.cache[i := v.cache[i].(dirty := false)];
      WriteInodeKeeps(s, own, i, v.disk, clean, false);
      return Err(EIO);
    }
    v.disk := v.disk[IBlock(v.sb, i) := SetRaw(bh.value, IOffset(i), v.table[i])];
    v.cache := v.cache[i := v.cache[i].(dirty := false)];
    WriteInodeKeeps(s, own, i, v.disk, clean, v.faults == 0);
    return Ok(());
  }

  lemma SoundBlank(s: Fs, own: Owners, clean: bool)
    requires Sound(s, own, clean)
    ensures Owns(s, own) && BlankSlots(s)
  {
    hide PointersOwned, OwnersPoint, MetaMarked, CleanCached, NoLeak, TableOnDisk, Widths, InUse;
  }

  lemma SoundShape(s: Fs, own: Owners, clean: bool)
    requires Sound(s, own, clean)
    ensures Shape(s)
  {
  }

  // ------------------------------------------------------------------- evict

  /** Leaving the cache only: the table slot takes over. */
  ghost function UncachedState(s: Fs, i: nat): Fs { s.(cache := s.cache - {i}) }

  lemma UncacheLaw(s: Fs, own: Owners, i: nat, clean: bool)
    requires Sound(s, own, clean) && i in s.cache && !s.cache[i].dirty && Kind(s.table[i]) != 0
    ensures 0 < i
    ensures var s' := UncachedState(s, i);
      && Sound(s', own, clean) && Elsewhere(s, own, s', own, i)
      && InUse(s', i) && Ino(s', i) == Ino(s, i) && (forall k: nat :: k < SLOTS ==> Ptr(s', i, k) == Ptr(s, i, k))
  {
    hide IsSet, DiskSlot, Decode, PointersOwned, OwnersPoint, SameSlot, StraySame, NoLeak, MetaMarked, Widths;
    hide TableOnDisk, InWidth, Lists, WordAt;
    var s' := UncachedState(s, i);
    assert 0 < i by { NotZero(s, i); }
    assert Shape(s') && InUse(s, i);
    CleanSlot(s, i);
    RecordsOwn(s, own, s');
    StraySameGrows(s, own, s', own);
    StrayKeepsMeta(s, own, s', own);
    assert Elsewhere(s, own, s', own, i);
    ListsKept(s, own, s', own, i);
    InWidthOf(s, i);
    WidthsKept(s, own, s', own, i);
    if clean {
      NoLeakKept(s, own, s', own);
      OnDiskSlot(s, i);
      TableOnDiskKept(s, own, s', own, i);
    }
  }

  lemma NotZero(s: Fs, i: nat)
    requires Lists(s) && i in s.cache
    ensures 0 < i
  {
  }

  ghost function DropOwner(own: Owners, i: nat): Owners {
    map b | b in own && own[b].0 != i :: own[b]
  }

  ghost function DroppedState(s: Fs, i: nat, disk: seq<Block>): Fs
    requires i < |s.table|
  {
    s.(disk := disk, table := s.table[i := ZeroRaw()], free := s.free + [i],
       freeCount := s.freeCount + 1, cache := s.cache - {i})
  }

  /** An inode goes out of use; whatever it still pointed at is stranded. */
  lemma DropOwns(s: Fs, own: Owners, s': Fs, i: nat)
    requires Owns(s, own) && InUse(s, i) && Shape(s') && Elsewhere(s, own, s', DropOwner(own, i), i) && !InUse(s', i)
    requires forall x: nat :: s.sb.bmapstart <= x < |s.disk| ==> s'.disk[x] == s.disk[x]
    ensures Owns(s', DropOwner(own, i)) && StrayGrows(s, own, s', DropOwner(own, i))
    ensures (forall k: nat :: k < SLOTS ==> Ptr(s, i, k) == 0) ==> StraySame(s, own, s', DropOwner(own, i))
  {
    hide Used, Ptr, InUse, Ino, Elsewhere;
    var own' := DropOwner(own, i);
    SameDevice(s, own, s', own', i);
    SameBits(s, s');
    forall j: nat, m: nat | InUse(s', j) && m < SLOTS ensures InUse(s, j) && Ptr(s', j, m) == Ptr(s, j, m) {
      ElsewhereInUse(s, own, s', own', i, j);
      ElsewhereMaps(s, own, s', own', i, j, m);
    }
    forall b | b in own' ensures InUse(s', own'[b].0) && Ptr(s', own'[b].0, own'[b].1) == b {
      ElsewhereMaps(s, own, s', own', i, own'[b].0, own'[b].1);
    }
  }

  /** `i` is free again: on the list, out of the cache, its table slot cleared; the rest is as before. */
  ghost predicate Freed(s: Fs, own: Owners, s': Fs, own': Owners, i: nat) {
    && Elsewhere(s, own, s', own', i) && s'.free == s.free + [i]
    && i !in s'.cache && i < |s'.table| && s'.table[i] == ZeroRaw()
  }

  lemma ZeroKind()
    ensures Kind(ZeroRaw()) == 0
  {
    ZeroBlockReads();
  }

  lemma DropLists(s: Fs, s': Fs, own: Owners, own': Owners, i: nat)
    requires Shape(s) && Lists(s) && InUse(s, i) && Freed(s, own, s', own', i) && s'.freeCount == s.freeCount + 1
    ensures Lists(s') && !InUse(s', i)
  {
    assert 0 !in s'.cache by { ZeroStays(s, own, s', own', i); }
    hide Elsewhere, Kind;
    ZeroKind();
    SameDevice(s, own, s', own', i);
    assert i !in s.free;
    forall j: nat | 0 < j < |s'.table| ensures j in s'.free <==> !InUse(s', j) {
      if j != i {
        ElsewhereInUse(s, own, s', own', i, j);
      }
    }
    assert forall j :: j in s'.free ==> j in s.free || j == i;
  }

  lemma ZeroStays(s: Fs, own: Owners, s': Fs, own': Owners, i: nat)
    requires Elsewhere(s, own, s', own', i) && i !in s'.cache && 0 !in s.cache
    ensures 0 !in s'.cache
  {
  }

  /** The ownership half, with no invariant but ownership. */
  lemma DroppedOwns(s: Fs, own: Owners, t: Fs, ownT: Owners, i: nat, disk: seq<Block>)
    requires Owns(t, ownT) && Elsewhere(s, own, t, ownT, i) && i in t.cache && i < |t.table| && t.free == s.free
    requires IBlock(t.sb, i) < |t.disk| && (disk == t.disk || disk == SetDiskSlot(t.sb, t.disk, i, ZeroRaw()))
    ensures var s' := DroppedState(t, i, disk);
      && Owns(s', DropOwner(ownT, i)) && Freed(s, own, s', DropOwner(ownT, i), i) && !InUse(s', i)
  {
    hide IsSet, DiskSlot, SetDiskSlot, Decode, PointersOwned, OwnersPoint, SameSlot, Kind;
    hide WordAt, Elsewhere, Ptr, Ino, StraySame, StrayGrows;
    var s' := DroppedState(t, i, disk);
    var own' := DropOwner(ownT, i);
    StoredFrame(t, ownT, s', i, ZeroRaw());
    assert OwnersElsewhere(ownT, own', i);
    ZeroKind();
    assert Shape(s') && !InUse(s', i);
    DropOwns(t, ownT, s', i);
    ElsewhereTransitive(s, own, t, ownT, s', own', i);
  }

  lemma DropLaw(s: Fs, own: Owners, i: nat, disk: seq<Block>, clean: bool, clean': bool)
    requires Owns(s, own) && MetaMarked(s) && Lists(s) && i in s.cache && i < |s.table| && IBlock(s.sb, i) < |s.disk|
    requires (forall j: nat :: j != i && InUse(s, j) ==> InWidth(Ino(s, j)))
    requires forall j :: j != i && j in s.cache && j < |s.table| && !s.cache[j].dirty ==>
      s.cache[j] == Decode(s.table[j])
    requires disk == s.disk || disk == SetDiskSlot(s.sb, s.disk, i, ZeroRaw())
    requires clean ==> NoLeak(s, own) && TableOnDisk(s)
    requires clean' ==> clean && disk == SetDiskSlot(s.sb, s.disk, i, ZeroRaw())
    requires clean' ==> forall k: nat :: k < SLOTS ==> Ptr(s, i, k) == 0
    ensures var s' := DroppedState(s, i, disk);
      Sound(s', DropOwner(own, i), clean') && Freed(s, own, s', DropOwner(own, i), i) && !InUse(s', i)
  {
    hide IsSet, DiskSlot, SetDiskSlot, Decode, PointersOwned, OwnersPoint, SameSlot, NoLeak, MetaMarked;
    hide TableOnDisk, InWidth, Lists, WordAt, Elsewhere, Ptr, Ino, StraySame, StrayGrows;
    var s' := DroppedState(s, i, disk);
    var own' := DropOwner(own, i);
    StoredFrame(s, own, s', i, ZeroRaw());
    assert OwnersElsewhere(own, own', i);
    assert Elsewhere(s, own, s', own', i);
    DropLists(s, s', own, own', i);
    assert Shape(s');
    DropOwns(s, own, s', i);
    if clean' {
      StraySameGrows(s, own, s', own');
      NoLeakKept(s, own, s', own');
      SlotItself(ZeroRaw());
      TableOnDiskKept(s, own, s', own', i);
    }
    StrayKeepsMeta(s, own, s', own');
    DropRest(s, own, s', own', i);
  }

  lemma DropRest(s: Fs, own: Owners, s': Fs, own': Owners, i: nat)
    requires Elsewhere(s, own, s', own', i) && !InUse(s', i) && i !in s'.cache
    requires (forall j: nat :: j != i && InUse(s, j) ==> InWidth(Ino(s, j)))
    requires forall j :: j != i && j in s.cache && j < |s.table| && !s.cache[j].dirty ==>
      s.cache[j] == Decode(s.table[j])
    ensures Widths(s') && CleanCached(s')
  {
    hide InWidth, Decode, Ino, DiskSlot, OwnersElsewhere;
    forall j: nat | InUse(s', j) ensures InWidth(Ino(s', j)) {
      ElsewhereInUse(s, own, s', own', i, j);
    }
  }

  /** Emptied to block 0 without a failed read, an inode points at nothing. */
  lemma TruncatedToNothing(s: Fs, own: Owners, t: Fs, ownT: Owners, i: nat)
    requires TruncPost(s, own, t, ownT, i, 0, true)
    ensures forall k: nat :: k < SLOTS ==> Ptr(t, i, k) == 0
  {
    hide Ptr, Owns, Kept, DataKept, StraySame, StrayGrows;
    forall k: nat | k < SLOTS ensures Ptr(t, i, k) == 0 {
      if k < INDIRECT {
        assert LMap(t, i, k) == Ptr(t, i, k);
      } else if k > INDIRECT {
        assert LMap(t, i, k - 1) == Ptr(t, i, k);
      }
    }
  }

  ghost function Emptied(s: Fs, i: nat): Fs
    requires i in s.cache
  {
    s.(cache := s.cache[i := s.cache[i].(size := 0)])
  }

  /** State of an eviction when the blocks have been released and the slot is about to be cleared. */
  ghost predicate ReadyToDrop(s: Fs, own: Owners, t: Fs, ownT: Owners, i: nat, clean: bool) {
    && Owns(t, ownT) && MetaMarked(t) && Lists(t) && i in t.cache && Elsewhere(s, own, t, ownT, i)
    && t.free == s.free && t.freeCount == s.freeCount
    && (forall j: nat :: j != i && InUse(t, j) ==> InWidth(Ino(t, j)))
    && (forall j :: j != i && j in t.cache && j < |t.table| && !t.cache[j].dirty ==> t.cache[j] == Decode(t.table[j]))
    && (clean ==> NoLeak(t, ownT) && TableOnDisk(t) && forall k: nat :: k < SLOTS ==> Ptr(t, i, k) == 0)
  }

  lemma EmptiedLaw(s: Fs, own: Owners, i: nat)
    requires Owns(s, own) && i in s.cache
    ensures var s' := Emptied(s, i); Owns(s', own) && StraySame(s, own, s', own) && Others(s, own, s', own, i)
  {
    hide IsSet, WordAt, Decode, PointersOwned, OwnersPoint, StraySame;
    RecordsOwn(s, own, Emptied(s, i));
  }

  lemma TruncatedReady(s: Fs, own: Owners, t: Fs, ownT: Owners, i: nat, clean: bool, clean': bool)
    requires Sound(s, own, clean) && i in s.cache && (clean' ==> clean)
    requires TruncPost(Emptied(s, i), own, t, ownT, i, 0, clean')
    ensures ReadyToDrop(s, own, t, ownT, i, clean')
  {
    hide Owns, MetaMarked, Lists, CleanCached, Widths, NoLeak, TableOnDisk, StraySame, StrayGrows, Others;
    hide Elsewhere, InWidth, SameSlot, DiskSlot, Decode, Ptr, LMap, InUse, Ino;
    var e := Emptied(s, i);
    EmptiedLaw(s, own, i);
    assert Shape(s) && Shape(t) by { OwnsShape(s, own); OwnsShape(t, ownT); }
    StraySameGrows(s, own, e, own);
    StrayChain(s, own, e, own, t, ownT);
    StrayKeepsMeta(s, own, t, ownT);
    OthersTransitive(s, own, e, own, t, ownT, i);
    OthersElsewhere(s, own, t, ownT, i);
    assert InUse(s, i) && InUse(t, i) by { CachedInUse(s, i); CachedInUse(t, i); }
    ListsKept(s, own, t, ownT, i);
    RestKept(s, own, t, ownT, i);
    if clean' {
      StrayTransitive(s, own, e, own, t, ownT);
      NoLeakKept(s, own, t, ownT);
      OnDiskSlot(s, i);
      SameDevice(s, own, t, ownT, i);
      TableOnDiskKept(s, own, t, ownT, i);
      TruncatedToNothing(e, own, t, ownT, i);
    }
  }

  lemma CachedInUse(s: Fs, i: nat)
    requires Shape(s) && i in s.cache
    ensures InUse(s, i)
  {
  }

  lemma RestKept(s: Fs, own: Owners, t: Fs, ownT: Owners, i: nat)
    requires Widths(s) && CleanCached(s) && Elsewhere(s, own, t, ownT, i)
    ensures (forall j: nat :: j != i && InUse(t, j) ==> InWidth(Ino(t, j)))
    ensures forall j :: j != i && j in t.cache && j < |t.table| && !t.cache[j].dirty ==>
      t.cache[j] == Decode(t.table[j])
  {
    hide InWidth, Decode, Ino, DiskSlot, OwnersElsewhere;
    forall j: nat | j != i && InUse(t, j) ensures InWidth(Ino(t, j)) {
      ElsewhereInUse(s, own, t, ownT, i, j);
    }
  }

  lemma ReadyDrops(s: Fs, own: Owners, t: Fs, ownT: Owners, i: nat, disk: seq<Block>, clean: bool, clean': bool)
    requires Shape(s) && ReadyToDrop(s, own, t, ownT, i, clean) && IBlock(t.sb, i) < |t.disk| && i < |t.table|
    requires disk == t.disk || disk == SetDiskSlot(t.sb, t.disk, i, ZeroRaw())
    requires clean' ==> clean && disk == SetDiskSlot(t.sb, t.disk, i, ZeroRaw())
    ensures var s' := DroppedState(t, i, disk);
      Sound(s', DropOwner(ownT, i), clean') && Freed(s, own, s', DropOwner(ownT, i), i) && !InUse(s', i)
  {
    hide Owns, MetaMarked, Lists, NoLeak, TableOnDisk, StraySame, StrayGrows, Elsewhere, InWidth, DiskSlot;
    hide SetDiskSlot, Decode, Ptr, InUse, Ino, Sound;
    DropLaw(t, ownT, i, disk, clean, clean');
    ElsewhereTransitive(s, own, t, ownT, DroppedState(t, i, disk), DropOwner(ownT, i), i);
  }

  lemma TruncatedElsewhere(s: Fs, own: Owners, t: Fs, ownT: Owners, i: nat, clean: bool)
    requires Owns(s, own) && i in s.cache && TruncPost(Emptied(s, i), own, t, ownT, i, 0, clean)
    ensures Owns(t, ownT) && Elsewhere(s, own, t, ownT, i) && i in t.cache && t.free == s.free
    ensures i < |t.table| && IBlock(t.sb, i) < |t.disk|
  {
    hide Owns, StraySame, StrayGrows, Others, Elsewhere, DiskSlot, Decode, Ptr, LMap, InUse, Ino;
    EmptiedLaw(s, own, i);
    assert Shape(s) && Shape(t) by { OwnsShape(s, own); OwnsShape(t, ownT); }
    OthersTransitive(s, own, Emptied(s, i), own, t, ownT, i);
    OthersElsewhere(s, own, t, ownT, i);
    RegionsDisjoint(t.sb, i, i, 0, 0);
  }

  /** The blocks inode `i` pointed at in `s` are marked and nobody's in `s'`. */
  ghost predicate Stranded(s: Fs, s': Fs, own': Owners, i: nat) {
    forall k: nat :: k < SLOTS && Ptr(s, i, k) != 0 ==> Stray(s', own', Ptr(s, i, k))
  }

  /** Inode 0 leaves the cache for good: its blocks stay marked, and nobody owns them. */
  lemma ZeroLaw(s: Fs, own: Owners)
    requires Owns(s, own) && 0 in s.cache
    ensures var s', own' := UncachedState(s, 0), DropOwner(own, 0);
      && Owns(s', own') && !InUse(s', 0) && Elsewhere(s, own, s', own', 0)
      && Stranded(s, s', own', 0)
  {
    hide IsSet, DiskSlot, Decode, WordAt, Ptr, Kind;
    var s', own' := UncachedState(s, 0), DropOwner(own, 0);
    assert Shape(s') && InUse(s, 0);
    assert Elsewhere(s, own, s', own', 0);
    DropOwns(s, own, s', 0);
    forall k: nat | k < SLOTS && Ptr(s, 0, k) != 0 ensures Stray(s', own', Ptr(s, 0, k)) {
      OwnedBlock(s, own, 0, k);
    }
  }

  lemma EvictionDrops(s: Fs, own: Owners, clean: bool, t: Fs, ownT: Owners, clean1: bool, i: nat, disk: seq<Block>,
                      clean2: bool)
    requires Owns(s, own) && 0 < i && i in s.cache && (clean1 ==> clean)
    requires TruncPost(Emptied(s, i), own, t, ownT, i, 0, clean1)
    requires i < |t.table| && IBlock(t.sb, i) < |t.disk|
    requires disk == t.disk || disk == SetDiskSlot(t.sb, t.disk, i, ZeroRaw())
    requires clean2 ==> clean1 && disk == SetDiskSlot(t.sb, t.disk, i, ZeroRaw())
    ensures var s', own' := DroppedState(t, i, disk), DropOwner(ownT, i);
      && Owns(s', own') && Freed(s, own, s', own', i) && !InUse(s', i) && Elsewhere(s, own, s', own', i)
      && (Sound(s, own, clean) ==> Sound(s', own', clean2))
  {
    hide Owns, Elsewhere, Ptr, TruncPost, ReadyToDrop, Sound, SetDiskSlot, InUse, DropOwner, DroppedState;
    assert Shape(s) by { OwnsShape(s, own); }
    TruncatedElsewhere(s, own, t, ownT, i, clean1);
    DroppedOwns(s, own, t, ownT, i, disk);
    if Sound(s, own, clean) {
      TruncatedReady(s, own, t, ownT, i, clean, clean1);
      ReadyDrops(s, own, t, ownT, i, disk, clean1, clean2);
    }
  }

  lemma DroppedFrame(t: Fs, ownT: Owners, i: nat, disk: seq<Block>)
    requires Owns(t, ownT) && i < |t.table| && IBlock(t.sb, i) < |t.disk|
    requires disk == t.disk || disk == SetDiskSlot(t.sb, t.disk, i, ZeroRaw())
    ensures Elsewhere(t, ownT, DroppedState(t, i, disk), DropOwner(ownT, i), i)
    ensures forall x: nat :: t.sb.bmapstart <= x < |t.disk| ==> disk[x] == t.disk[x]
  {
    hide Owns, SetDiskSlot, DiskSlot, Elsewhere;
    StoredFrame(t, ownT, DroppedState(t, i, disk), i, ZeroRaw());
    assert OwnersElsewhere(ownT, DropOwner(ownT, i), i);
  }

  /** Without a failed read the eviction strands nothing. */
  lemma EvictionQuiet(s: Fs, own: Owners, t: Fs, ownT: Owners, i: nat, disk: seq<Block>)
    requires Owns(s, own) && i in s.cache && TruncPost(Emptied(s, i), own, t, ownT, i, 0, true)
    requires i < |t.table| && IBlock(t.sb, i) < |t.disk|
    requires disk == t.disk || disk == SetDiskSlot(t.sb, t.disk, i, ZeroRaw())
    requires Owns(DroppedState(t, i, disk), DropOwner(ownT, i))
    requires !InUse(DroppedState(t, i, disk), i)
    ensures StraySame(s, own, DroppedState(t, i, disk), DropOwner(ownT, i))
  {
    assert StraySame(Emptied(s, i), own, t, ownT) && Owns(t, ownT) && i in t.cache;
    hide TruncPost, Owns, Elsewhere, Ptr, InUse, StraySame, DropOwner, SetDiskSlot;
    var s' := DroppedState(t, i, disk);
    EmptiedLaw(s, own, i);
    TruncatedToNothing(Emptied(s, i), own, t, ownT, i);
    assert Shape(s) && Shape(t) && Shape(s') && InUse(t, i) by {
      OwnsShape(s, own);
      OwnsShape(t, ownT);
      OwnsShape(s', DropOwner(ownT, i));
      CachedInUse(t, i);
    }
    assert Elsewhere(t, ownT, s', DropOwner(ownT, i), i) && forall x: nat ::
        t.sb.bmapstart <= x < |t.disk| ==> s'.disk[x] == t.disk[x] by {
      DroppedFrame(t, ownT, i, disk);
    }
    DropOwns(t, ownT, s', i);
    StrayTransitive(s, own, Emptied(s, i), own, t, ownT);
    StrayTransitive(s, own, t, ownT, s', DropOwner(ownT, i));
  }

  /** Every block inode `i` pointed at in `s` is free in `s'`. */
  ghost predicate GaveBack(s: Fs, s': Fs, i: nat) {
    forall k: nat :: k < SLOTS && Ptr(s, i, k) != 0 ==> !Used(s', Ptr(s, i, k))
  }

  lemma GivesBack(s: Fs, own: Owners, s': Fs, own': Owners, i: nat)
    requires Owns(s, own) && Owns(s', own') && StraySame(s, own, s', own') && Elsewhere(s, own, s', own', i)
    requires InUse(s, i) && !InUse(s', i)
    ensures GaveBack(s, s', i)
  {
    assert OwnersElsewhere(own, own', i);
    hide Used, Ptr, InUse, Elsewhere, PointersOwned, Shape;
    forall k: nat | k < SLOTS && Ptr(s, i, k) != 0 ensures !Used(s', Ptr(s, i, k)) {
      var b := Ptr(s, i, k);
      OwnedBlock(s, own, i, k);
      assert !Stray(s', own', b);
    }
  }

  lemma UncacheElsewhere(s: Fs, own: Owners, i: nat)
    requires Shape(s)
    ensures Elsewhere(s, own, UncachedState(s, i), own, i) && StraySame(s, own, UncachedState(s, i), own)
  {
    hide DiskSlot, IsSet;
  }

  /** The 64 bytes of a dinode are zero. */
  ghost predicate Wiped(disk: seq<Block>, n: nat) { forall m: nat :: n <= m < n + 64 ==> At(disk, m) == 0 }

  lemma SlotWiped(sb: Super, disk: seq<Block>, i: nat)
    requires WellFormed(sb) && |disk| == sb.size && i < sb.ninodes
    ensures IBlock(sb, i) < |disk| && Wiped(SetDiskSlot(sb, disk, i, ZeroRaw()), 512 * sb.inodestart + 64 * i)
  {
    hide DiskSlot, SetRaw, At;
    DiskSlotLaw(sb, disk, i, ZeroRaw());
    var d, n := SetDiskSlot(sb, disk, i, ZeroRaw()), 512 * sb.inodestart + 64 * i;
    forall m: nat | n <= m < n + 64 ensures At(d, m) == 0 {
      SlotPlace(sb, d, i, m - n);
    }
  }

  /** Zero the slot on disk, unless its block cannot be read. */
  method WipeSlot(v: Volume, i: nat)
    requires WellFormed(v.sb) && |v.disk| == v.sb.size && i < v.sb.ninodes
    modifies v`disk, v`faults
    ensures old(v.faults) <= v.faults && IBlock(v.sb, i) < |old(v.disk)|
    ensures v.faults > old(v.faults) ==> v.disk == old(v.disk)
    ensures v.faults == old(v.faults) ==>
      v.disk == SetDiskSlot(v.sb, old(v.disk), i, ZeroRaw()) && Wiped(v.disk, 512 * v.sb.inodestart + 64 * i)
  {
    hide SetRaw, Wiped;
    SlotWiped(v.sb, v.disk, i);
    var bh := v.BRead(IBlock(v.sb, i));
    if bh.Some? {
      v.disk := v.disk[IBlock(v.sb, i) := SetRaw(bh.value, IOffset(i), ZeroRaw())];
    }
  }

  /** The release of an unlinked inode: its blocks, its slot on disk and in the table, its place on the list. */
  method ReleaseInode(v: Volume, i: nat)
    requires Owns(v.View(), v.owner) && i in v.cache && 0 < i
    modifies v`disk, v`table, v`free, v`freeCount, v`cache, v`faults, v`owner
    ensures Freed(old(v.View()), old(v.owner), v.View(), v.owner, i) && !InUse(v.View(), i) && Owns(v.View(), v.owner)
    ensures Elsewhere(old(v.View()), old(v.owner), v.View(), v.owner, i) && old(v.faults) <= v.faults
    ensures v.faults == old(v.faults) ==>
      StraySame(old(v.View()), old(v.owner), v.View(), v.owner) && GaveBack(old(v.View()), v.View(), i)
    ensures v.faults == old(v.faults) ==> Wiped(v.disk, 512 * v.sb.inodestart + 64 * i)
    ensures Sound(old(v.View()), old(v.owner), old(v.faults) == 0) ==> Sound(v.View(), v.owner, v.faults == 0)
  {
    hide Owns, Elsewhere, DiskSlot, Decode, Ptr, TruncPost, Sound, SetRaw, RawAt, InUse, Freed, Ino, StraySame;
    hide GaveBack, IsSet, Wiped;
    ghost var s, own, clean := v.View(), v.owner, v.faults == 0;
    assert Shape(s) by { OwnsShape(s, own); }
    EmptiedLaw(s, own, i);
    v.cache := v.cache[i := v.cache[i].(size := 0)];
    ghost var f0 := v.faults;
    TruncateBlocks(v, i, 0);
    ghost var t, ownT, f1, clean1 := v.View(), v.owner, v.faults, v.faults == 0;
    TruncForget(Emptied(s, i), own, t, ownT, i, 0, v.faults == f0, clean1);
    TruncatedElsewhere(s, own, t, ownT, i, clean1);
    assert Shape(t) by { OwnsShape(t, ownT); }
    WipeSlot(v, i);
    v.table := v.table[i := ZeroRaw()];
    v.free := v.free + [i];
    v.freeCount := v.freeCount + 1;
    v.cache := v.cache - {i};
    v.owner := DropOwner(v.owner, i);
    EvictionDrops(s, own, clean, t, ownT, clean1, i, v.disk, v.faults == 0);
    if f1 == f0 {
      EvictionQuiet(s, own, t, ownT, i, v.disk);
      CachedInUse(s, i);
      GivesBack(s, own, v.View(), v.owner, i);
    }
  }

  /**
   `xv6fs_evict_inode`.  A linked inode, which the VFS has written back, only leaves
   the cache.  An unlinked one gives up its blocks and returns to the free list,
   unless it is inode 0: that never comes back, and its blocks belong to nobody.
   */
  method EvictInode(v: Volume, i: nat)
    requires Owns(v.View(), v.owner) && i in v.cache
    modifies v`disk, v`table, v`free, v`freeCount, v`cache, v`faults, v`owner
    ensures Elsewhere(old(v.View()), old(v.owner), v.View(), v.owner, i) && old(v.faults) <= v.faults
    ensures i == 0 || old(v.cache[i].nlink) > 0 ==>
      v.View() == UncachedState(old(v.View()), i) && v.faults == old(v.faults)
    ensures i > 0 && old(v.cache[i].nlink) > 0 ==> v.owner == old(v.owner)
    ensures i > 0 && old(v.cache[i].nlink) == 0 ==>
      && Freed(old(v.View()), old(v.owner), v.View(), v.owner, i) && !InUse(v.View(), i) && Owns(v.View(), v.owner)
    ensures i > 0 && v.faults == old(v.faults) ==>
      && StraySame(old(v.View()), old(v.owner), v.View(), v.owner)
      && (old(v.cache[i].nlink) == 0 ==> GaveBack(old(v.View()), v.View(), i))
      && (old(v.cache[i].nlink) == 0 ==> Wiped(v.disk, 512 * v.sb.inodestart + 64 * i))
    ensures i == 0 ==>
      && v.owner == DropOwner(old(v.owner), 0) && Owns(v.View(), v.owner) && !InUse(v.View(), 0)
      && Stranded(old(v.View()), v.View(), v.owner, 0)
    ensures Sound(old(v.View()), old(v.owner), old(v.faults) == 0)
            && old(v.cache[i].nlink > 0 ==> !v.cache[i].dirty) ==>
      && Sound(v.View(), v.owner, v.faults == 0) && 0 < i
      && (old(v.cache[i].nlink) > 0 ==> InUse(v.View(), i) && Ino(v.View(), i) == Ino(old(v.View()), i))
  {
    hide Owns, Elsewhere, DiskSlot, Decode, Ptr, Sound, Stranded, InUse, Freed, Ino, StraySame, GaveBack, IsSet;
    hide Wiped;
    ghost var s, own, clean := v.View(), v.owner, v.faults == 0;
    assert Shape(s) by { OwnsShape(s, own); }
    if v.cache[i].nlink == 0 && i > 0 {
      ReleaseInode(v, i);
    } else {
      v.cache := v.cache - {i};
      if i == 0 {
        v.owner := DropOwner(v.owner, 0);
        ZeroLaw(s, own);
        ZeroNotSound(s, own, clean);
      } else {
        UncacheElsewhere(s, own, i);
        if Sound(s, own, clean) && !s.cache[i].dirty {
          CachedKind(s, own, i, clean);
          UncacheLaw(s, own, i, clean);
        }
      }
    }
  }

  lemma ZeroNotSound(s: Fs, own: Owners, clean: bool)
    ensures Sound(s, own, clean) ==> 0 !in s.cache
  {
    hide Owns, MetaMarked, NoLeak, TableOnDisk, CleanCached, Widths;
  }

  lemma CachedKind(s: Fs, own: Owners, i: nat, clean: bool)
    requires Sound(s, own, clean) && i in s.cache && !s.cache[i].dirty
    ensures i < |s.table| && Kind(s.table[i]) != 0
  {
    hide PointersOwned, OwnersPoint, Lists, NoLeak, TableOnDisk;
    CleanSlot(s, i);
    InWidthOf(s, i);
  }

  // ------------------------------------------------------------ iget, at last

  lemma ZeroDecodes()
    ensures Decode(ZeroRaw()).kind == 0 && Decode(ZeroRaw()).nlink == 0 && Decode(ZeroRaw()).addrs == NoAddrs()
  {
  }

  /** A slot of the table brought in core as it is: a free one has no blocks. */
  lemma LoadOwns(s: Fs, own: Owners, i: nat)
    requires Owns(s, own) && BlankSlots(s) && 0 < i < s.sb.ninodes && i !in s.cache
    ensures var t := LoadedState(s, i);
      && Owns(t, own) && StraySame(s, own, t, own) && Elsewhere(s, own, t, own, i)
      && UncachedState(t, i) == s && forall k: nat :: k < SLOTS ==> Ptr(t, i, k) == Ptr(s, i, k)
  {
    hide IsSet, DiskSlot, Decode, PointersOwned, OwnersPoint, StraySame, WordAt, Kind;
    ZeroDecodes();
    var t := LoadedState(s, i);
    assert Shape(t);
    RecordsOwn(s, own, t);
    assert UncachedState(t, i).cache == s.cache;
  }

  /** Loading slot `i` fails and takes the slot along: `iput` evicts an inode without links. */
  ghost predicate Reaped(s: Fs, i: nat) {
    0 < i < s.sb.ninodes && i !in s.cache && Ino(s, i).kind !in {T_DIR, T_FILE, T_DEV} && Ino(s, i).nlink == 0
  }

  /** Every free slot is one. */
  lemma FreeIsReaped(s: Fs, own: Owners, i: nat, clean: bool)
    requires Sound(s, own, clean) && i in s.free
    ensures Reaped(s, i) && Unreadable(s, i)
  {
    hide PointersOwned, OwnersPoint, MetaMarked, CleanCached, NoLeak, TableOnDisk, Widths, Decode, Kind;
    ZeroDecodes();
  }

  /** And is then on the list twice, so that two files get its number. */
  lemma ListedTwice(s: Fs, own: Owners, s': Fs, own': Owners, i: nat)
    requires i in s.free && Freed(s, own, s', own', i)
    ensures !Lists(s')
    ensures exists a, b :: 0 <= a < b < |s'.free| && s'.free[a] == i == s'.free[b]
  {
    hide Elsewhere, InUse;
    var a :| 0 <= a < |s.free| && s.free[a] == i;
    assert s'.free[a] == i == s'.free[|s.free|];
  }

  lemma ReapedFrom(s: Fs, own: Owners, s': Fs, own': Owners, i: nat)
    requires Elsewhere(s, own, LoadedState(s, i), own, i) && Freed(LoadedState(s, i), own, s', own', i)
    ensures Freed(s, own, s', own', i)
  {
    hide Elsewhere;
    ElsewhereTransitive(s, own, LoadedState(s, i), own, s', own', i);
  }

  lemma ReapedSound(s: Fs, own: Owners, s': Fs, own': Owners, i: nat, clean: bool, clean': bool)
    requires Sound(s, own, clean) && Freed(s, own, s', own', i) && 0 < i < s.sb.ninodes
    requires InUse(s, i) ==> Sound(s', own', clean')
    ensures Sound(s', own', clean') <==> i !in s.free
  {
    hide PointersOwned, OwnersPoint, MetaMarked, CleanCached, NoLeak, TableOnDisk, Widths, Elsewhere, InUse, Freed;
    if i in s.free {
      ListedTwice(s, own, s', own', i);
    }
  }

  /**
   `xv6fs_iget`: range checks, then the in-core inode, loading it from the table if
   need be.  A slot of no known type is refused, but not before `iget_failed` has put
   the half-made inode, and with it evicted the slot if its link field is 0.
   */
  method Iget(v: Volume, i: nat) returns (r: Result<Inode>)
    requires Owns(v.View(), v.owner) && BlankSlots(v.View())
    modifies v`disk, v`table, v`free, v`freeCount, v`cache, v`faults, v`oom, v`owner
    ensures r.Ok? ==> 0 < i < v.sb.ninodes && i in v.cache && v.cache[i] == r.value == Ino(old(v.View()), i)
    ensures r.Ok? ==> i in old(v.cache) || r.value.kind in {T_DIR, T_FILE, T_DEV}
    ensures r.Ok? ==> v.View() == LoadedState(old(v.View()), i)
    ensures r.Err? ==> r.error == EINVAL || r.error == ENOMEM
    ensures r == Err(EINVAL) ==> Unreadable(old(v.View()), i)
    ensures Unreadable(old(v.View()), i) ==> r.Err?
    ensures i == 0 || i >= v.sb.ninodes ==> r == Err(EINVAL)
    ensures r == Err(ENOMEM) ==> i !in old(v.cache) && v.View() == old(v.View())
    ensures v.oom == old(v.oom) + if r == Err(ENOMEM) then 1 else 0
    ensures r != Err(EINVAL) || !Reaped(old(v.View()), i) ==> v.owner == old(v.owner) && v.faults == old(v.faults)
    ensures r == Err(EINVAL) ==>
      (v.View() == old(v.View()) <==> i == 0 || i >= v.sb.ninodes || Ino(old(v.View()), i).nlink != 0)
    ensures r == Err(EINVAL) && Reaped(old(v.View()), i) ==>
      && Freed(old(v.View()), old(v.owner), v.View(), v.owner, i) && Owns(v.View(), v.owner) && !InUse(v.View(), i)
      && (v.faults == old(v.faults) ==> GaveBack(old(v.View()), v.View(), i))
    ensures old(v.faults) <= v.faults
    ensures Sound(old(v.View()), old(v.owner), old(v.faults) == 0) ==>
      (Sound(v.View(), v.owner, v.faults == 0) <==> !(r == Err(EINVAL) && i in old(v.free)))
  {
    hide Decode, Owns, Sound, BlankSlots, Elsewhere, Freed, InUse, GaveBack, StraySame, Ptr, Used, Stranded;
    ghost var s, own, clean := v.View(), v.owner, v.faults == 0;
    assert Shape(s) by { OwnsShape(s, own); }
    FreeInRange(s, own, i, clean);
    if i == 0 {
      return Err(EINVAL);
    }
    if i >= v.sb.ninodes {
      return Err(EINVAL);
    }
    if i in v.cache {
      return Ok(v.cache[i]);
    }
    var nomem: bool := *;
    if nomem {
      v.oom := v.oom + 1;
      return Err(ENOMEM);
    }
    var n := DinodeToCpu(v.table[i]);
    v.cache := v.cache[i := n];
    LoadOwns(s, own, i);
    if n.kind != T_DIR && n.kind != T_FILE && n.kind != T_DEV {
      if Sound(s, own, clean) && InUse(s, i) {
        LoadLaw(s, own, i, clean);
      }
      EvictInode(v, i);
      if n.nlink == 0 {
        ReapedFrom(s, own, v.View(), v.owner, i);
        FreedDiffers(s, own, v.View(), v.owner, i);
        SamePointers(s, LoadedState(s, i), v.View(), i);
        if Sound(s, own, clean) {
          ReapedSound(s, own, v.View(), v.owner, i, clean, v.faults == 0);
        }
      } else {
        LinkedNotFree(s, own, i, clean);
      }
      return Err(EINVAL);
    }
    LoadedInUse(s, i);
    if Sound(s, own, clean) {
      LoadLaw(s, own, i, clean);
    }
    return Ok(n);
  }

  lemma LoadedInUse(s: Fs, i: nat)
    requires Shape(s) && 0 < i < s.sb.ninodes && (i in s.cache || Ino(s, i).kind in {T_DIR, T_FILE, T_DEV})
    ensures InUse(s, i)
  {
  }

  lemma FreeInRange(s: Fs, own: Owners, i: nat, clean: bool)
    ensures Sound(s, own, clean) && i in s.free ==> 0 < i < s.sb.ninodes && i !in s.cache
  {
    hide PointersOwned, OwnersPoint, MetaMarked, CleanCached, NoLeak, TableOnDisk, Widths;
  }

  lemma LinkedNotFree(s: Fs, own: Owners, i: nat, clean: bool)
    requires Ino(s, i).nlink != 0
    ensures Sound(s, own, clean) ==> i !in s.free
  {
    hide Sound, Decode;
    if Sound(s, own, clean) && i in s.free {
      FreeIsReaped(s, own, i, clean);
    }
  }

  lemma FreedDiffers(s: Fs, own: Owners, s': Fs, own': Owners, i: nat)
    requires Freed(s, own, s', own', i)
    ensures s' != s
  {
    hide Elsewhere;
    assert |s'.free| == |s.free| + 1;
  }

  lemma SamePointers(s: Fs, t: Fs, s': Fs, i: nat)
    requires forall k: nat :: k < SLOTS ==> Ptr(t, i, k) == Ptr(s, i, k)
    ensures GaveBack(t, s', i) <==> GaveBack(s, s', i)
  {
    hide Ptr, Used;
  }
}
