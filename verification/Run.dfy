/**
 Whole runs: any sequence of VFS requests, in any order, with any reads failing.
 Each request is guarded as the VFS guards it (the directory is in core and linked,
 a name to be created is absent, the inode an entry names is loaded and of the right
 kind, inodes are loaded by name or as the root) and then handed to the driver.
 */
module Run {
  import opened Bytes
  import opened OnDisk
  import opened Layout
  import opened Codec
  import opened Results
  import opened State
  import Bitmap
  import opened Ownership
  import Counting
  import BlockMap
  import opened Cursor
  import opened Listing
  import opened Directory
  import DirMap
  import opened Inodes
  import opened Tree
  import opened Namespace
  import opened Ops
  import DirOps
  import Files

  // ----------------------------------- steps the name space does not notice

  /** Records of `i` moved, its pointers and everything from the bitmap up did not: same listing. */
  lemma RegionSlots(s: Fs, own: Owners, s': Fs, i: nat)
    requires Owns(s, own) && InUse(s, i) && |s'.disk| == |s.disk| && Ino(s', i).size == Ino(s, i).size
    requires forall k: nat :: k < SLOTS ==> Ptr(s', i, k) == Ptr(s, i, k)
    requires forall x: nat :: s.sb.bmapstart <= x < |s.disk| ==> s'.disk[x] == s.disk[x]
    ensures Slots(s', i) == Slots(s, i)
  {
    hide Ptr, DirentAt, Used, Ino;
    forall p: nat ensures Slot(s', i, p) == Slot(s, i, p) {
      if p / DPB < MAXFILE {
        assert LMap(s', i, p / DPB) == LMap(s, i, p / DPB);
      }
    }
  }

  lemma LoadQuiet(s: Fs, own: Owners, i: nat, clean: bool)
    requires Sound(s, own, clean) && InUse(s, i)
    ensures Sound(LoadedState(s, i), own, clean) && Abs(LoadedState(s, i)) == Abs(s)
    ensures Untouched(s, LoadedState(s, i), {})
  {
    hide Sound, Owns, Elsewhere, Slots, Ptr, Abs, Decode, Untouched;
    LoadLaw(s, own, i, clean);
    SoundOwns(s, own, clean);
    RegionSlots(s, own, LoadedState(s, i), i);
    Quiet(s, own, LoadedState(s, i), own, i);
    RecordUntouched(s, own, LoadedState(s, i), own, i);
  }

  lemma WriteQuiet(s: Fs, own: Owners, s': Fs, i: nat, clean: bool)
    requires Sound(s, own, clean) && i in s.cache && i < |s.table| && Elsewhere(s, own, s', own, i)
    requires s' == WrittenState(s, i, s'.disk) && IBlock(s.sb, i) < |s.disk|
    requires s'.disk == s.disk || s'.disk == SetDiskSlot(s.sb, s.disk, i, Encode(s.cache[i]))
    ensures Abs(s') == Abs(s) && Untouched(s, s', {})
  {
    hide Sound, Owns, Elsewhere, Slots, Ptr, Abs, Decode, Encode, SetDiskSlot, Untouched;
    SoundOwns(s, own, clean);
    CachedInUse(s, i);
    DiskSlotLaw(s.sb, s.disk, i, Encode(s.cache[i]));
    WrittenOwns(s, own, i, s'.disk);
    RegionSlots(s, own, s', i);
    Quiet(s, own, s', own, i);
    RecordUntouched(s, own, s', own, i);
  }

  lemma UncacheQuiet(s: Fs, own: Owners, i: nat, clean: bool)
    requires Sound(s, own, clean) && i in s.cache && !s.cache[i].dirty
    ensures Abs(UncachedState(s, i)) == Abs(s) && Untouched(s, UncachedState(s, i), {})
  {
    hide Sound, Owns, Elsewhere, Slots, Ptr, Abs, Decode, Untouched;
    SoundOwns(s, own, clean);
    CachedInUse(s, i);
    CachedKind(s, own, i, clean);
    UncacheLaw(s, own, i, clean);
    RegionSlots(s, own, UncachedState(s, i), i);
    Quiet(s, own, UncachedState(s, i), own, i);
    RecordUntouched(s, own, UncachedState(s, i), own, i);
  }

  // ---------------------------------------------------------------- requests

  datatype Request =
    | LoadRoot
    | LookUp(d: nat, name: Name)
    | SyncInode(i: nat)
    | ForgetInode(i: nat)
    | CreateFile(d: nat, name: Name)
    | MakeDir(d: nat, name: Name)
    | LinkFile(i: nat, d: nat, name: Name)
    | RemoveFile(d: nat, name: Name)
    | RemoveDir(d: nat, name: Name)
    | ResizeFile(i: nat, size: nat)
    | WriteFile(i: nat, l: nat, data: Block, size: nat)
    | ListDir(d: nat, p: nat, room: nat)

  /** Carried out, with what was asked for; refused by the checks of the VFS; or failed in the driver. */
  datatype Reply =
    | Done
    | Found(inode: Option<nat>)
    | Listed(pos: nat, out: seq<Entry>)
    | Refused
    | Failed(error: Errno)

  /** One state of a run, with the failures counted so far. */
  datatype Moment = Moment(fs: Fs, own: Owners, faults: nat, oom: nat)

  ghost function Now(v: Volume): Moment
    reads v
  {
    Moment(v.View(), v.owner, v.faults, v.oom)
  }

  /** The invariant of every moment of a run. */
  ghost predicate ValidAt(m: Moment, base: nat) {
    Sound(m.fs, m.own, m.faults == 0) && WellLinked(Abs(m.fs), base) && base + MAXSLOTS - 2 < U16
  }

  // ------------------------------------------------ what the VFS checks first

  /** A linked directory in core. */
  predicate OpenDir(cache: map<nat, Inode>, d: nat) {
    d in cache && cache[d].kind == T_DIR && cache[d].nlink > 0
  }

  /** An entry `name` can be made in `d`. */
  ghost predicate MayName(s: Fs, d: nat, name: Name) {
    OpenDir(s.cache, d) && Nameable(name) && Absent(Slots(s, d), name)
  }

  /** The entry `name` of `d` can be removed: it names an inode of the right kind. */
  ghost predicate Removable(s: Fs, d: nat, name: Name, isDir: bool) {
    && OpenDir(s.cache, d) && Nameable(name) && DirMap.Lookup(Slots(s, d), name).Some?
    && (Ino(s, DirMap.Lookup(Slots(s, d), name).value).kind == T_DIR) == isDir
  }

  predicate OpenFile(cache: map<nat, Inode>, i: nat, size: nat) {
    i in cache && cache[i].kind != T_DIR && size <= Files.MAXBYTES
  }

  ghost predicate Allowed(s: Fs, op: Request) {
    match op
    case LoadRoot => true
    case LookUp(d, _) => OpenDir(s.cache, d)
    case SyncInode(i) => i in s.cache
    case ForgetInode(i) => i in s.cache
    case CreateFile(d, name) => MayName(s, d, name)
    case MakeDir(d, name) => MayName(s, d, name)
    case LinkFile(i, d, name) => MayName(s, d, name) && i in s.cache && s.cache[i].nlink > 0
    case RemoveFile(d, name) => Removable(s, d, name, false)
    case RemoveDir(d, name) => Removable(s, d, name, true)
    case ResizeFile(i, size) => OpenFile(s.cache, i, size)
    case WriteFile(i, _, _, size) => OpenFile(s.cache, i, size)
    case ListDir(d, p, _) => OpenDir(s.cache, d) && p % DIRENT_SIZE == 0
  }

  /**
   The guards in numbers: directories are of kind 1, files are written and resized up to 140
   blocks of 512 bytes, names have no NUL byte and are neither "." nor "..".
   */
  lemma AllowedMeans(s: Fs, op: Request)
    ensures op.LookUp? ==> (Allowed(s, op) <==> op.d in s.cache && s.cache[op.d].kind == 1 && s.cache[op.d].nlink > 0)
    ensures op.ListDir? ==>
      (Allowed(s, op) <==> op.d in s.cache && s.cache[op.d].kind == 1 && s.cache[op.d].nlink > 0 && op.p % 16 == 0)
    ensures op.ResizeFile? || op.WriteFile? ==>
      (Allowed(s, op) <==> op.i in s.cache && s.cache[op.i].kind != 1 && op.size <= 140 * 512)
    ensures op.SyncInode? || op.ForgetInode? ==> (Allowed(s, op) <==> op.i in s.cache)
    ensures op.LoadRoot? ==> Allowed(s, op)
    ensures op.CreateFile? || op.MakeDir? || op.LinkFile? ==>
      (Allowed(s, op) <==>
       && Allowed(s, LookUp(op.d, op.name)) && op.name != [] && (forall k :: 0 <= k < |op.name| ==> op.name[k] != 0)
       && op.name != [46] && op.name != [46, 46] && DirMap.Lookup(Slots(s, op.d), op.name) == None
       && (op.LinkFile? ==> op.i in s.cache && s.cache[op.i].nlink > 0))
    ensures op.RemoveFile? || op.RemoveDir? ==>
      (Allowed(s, op) <==>
       && Allowed(s, LookUp(op.d, op.name)) && op.name != [] && (forall k :: 0 <= k < |op.name| ==> op.name[k] != 0)
       && op.name != [46] && op.name != [46, 46]
       && match DirMap.Lookup(Slots(s, op.d), op.name)
          case None => false
          case Some(i) => Ino(s, i).kind == 1 <==> op.RemoveDir?)
  {
    hide Slots, DirMap.Lookup, Ino, Absent;
    if op.CreateFile? || op.MakeDir? || op.LinkFile? {
      DirMap.LookupMeaning(Slots(s, op.d), op.name);
    }
  }

  // -------------------------------------------------- effects of a request

  /** Requests that change the name space. */
  predicate Renames(op: Request) {
    op.CreateFile? || op.MakeDir? || op.LinkFile? || op.RemoveFile? || op.RemoveDir?
  }

  ghost predicate Renamed(s: Fs, s': Fs, op: Request) {
    match op
    case CreateFile(d, name) => exists i: nat :: CreatedAs(s, s', d, name, i)
    case MakeDir(d, name) => exists i: nat :: MadeAs(s, s', d, name, i)
    case LinkFile(i, d, name) => LinkedAs(s, s', d, name, i)
    case RemoveFile(d, name) =>
      && (exists i: nat :: IsFile(Abs(s), i) && Unlinked(Abs(s), Abs(s'), d, name, i))
      && Erased(s, s', d, name, 0)
    case RemoveDir(d, name) =>
      && (exists c: nat :: DirOps.RemovedDir(Abs(s), Abs(s'), d, name, c))
      && Erased(s, s', d, name, 1)
    case _ => false
  }

  /** A new regular file with one link, entered in the directory. */
  ghost predicate CreatedAs(s: Fs, s': Fs, d: nat, name: Name, i: nat) {
    && i !in Abs(s).nodes && Entered(Abs(s), Abs(s'), d, name, i, Node(2, 1))
    && NameWritten(s, s', d, name, i, 0) && NewFile(s', i)
  }

  /** A new directory of two entries, "." and "..", entered in the directory, which has one link more. */
  ghost predicate MadeAs(s: Fs, s': Fs, d: nat, name: Name, i: nat) {
    && (exists p: nat :: PutDir(Abs(s), Abs(s'), (d, p), name, i))
    && NameWritten(s, s', d, name, i, 1) && DirOps.NewDir(s', i, 2)
    && Slots(s', i) == [NewDirent([46], i), NewDirent([46, 46], d)]
  }

  /** One more entry and one more link. */
  ghost predicate LinkedAs(s: Fs, s': Fs, d: nat, name: Name, i: nat) {
    && IsFile(Abs(s), i)
    && Entered(Abs(s), Abs(s'), d, name, i, Node(Abs(s).nodes[i].kind, Abs(s).nodes[i].nlink + 1))
    && NameWritten(s, s', d, name, i, 0) && i in s.cache && i in s'.cache
    && s'.cache[i] == s.cache[i].(nlink := s.cache[i].nlink + 1, dirty := true)
  }

  /** The slot of the name is free, all others are as they were; the directory has `links` links fewer. */
  ghost predicate Erased(s: Fs, s': Fs, d: nat, name: Name, links: nat) {
    && d in s.cache && d in s'.cache && links <= s.cache[d].nlink
    && s'.cache[d] == s.cache[d].(nlink := s.cache[d].nlink - links, dirty := links > 0 || s.cache[d].dirty)
    && exists q: nat :: NameCleared(Slots(s, d), Slots(s', d), name, q)
  }

  /** The inode the directory maps the name to is in core, or there is none. */
  ghost predicate LookedUp(s: Fs, s': Fs, d: nat, name: Name, inode: Option<nat>) {
    inode == DirMap.Lookup(Slots(s, d), name) && s' == if inode.None? then s else LoadedState(s, inode.value)
  }

  /** The disk has the inode as it is in core. */
  ghost predicate Synced(s: Fs, s': Fs, i: nat) {
    && i in s.cache && i in s'.cache && s'.cache[i] == s.cache[i].(dirty := false)
    && Decode(DiskSlot(s'.sb, s'.disk, i)) == s'.cache[i]
    && HeldAt(s'.disk, 512 * s.sb.inodestart + 64 * i, s.cache[i])
  }

  /** A linked inode has left the cache as it was; an unlinked one is free. */
  ghost predicate Forgotten(s: Fs, s': Fs, i: nat) {
    && i in s.cache && i !in s'.cache
    && (if s.cache[i].nlink > 0 then InUse(s', i) && Ino(s', i) == s.cache[i].(dirty := false)
        else i in s'.free && !InUse(s', i))
  }

  ghost predicate HasSize(s: Fs, s': Fs, i: nat, size: nat) {
    && i in s.cache && i in s'.cache
    && s'.cache[i] == s.cache[i].(addrs := s'.cache[i].addrs, size := size, dirty := true)
    && (forall l: nat :: l < MAXFILE && l * BSIZE < size ==> Files.SameBlock(s, s', i, l))
    && forall l: nat :: l < NDIRECT && l * BSIZE >= size ==> LMap(s', i, l) == 0
  }

  ghost predicate HasBlock(s: Fs, s': Fs, i: nat, l: nat, data: Block, size: nat) {
    && i in s.cache && i in s'.cache && Files.Raised(s.cache[i], s'.cache[i], size)
    && l < MAXFILE && 0 < LMap(s', i, l) < |s'.disk| && s'.disk[LMap(s', i, l)] == data
    && forall k: nat :: k < MAXFILE && k != l ==> Files.SameBlock(s, s', i, k)
  }

  /** What a request that is carried out does. */
  ghost predicate Acted(s: Fs, s': Fs, op: Request, reply: Reply) {
    match op
    case LoadRoot => reply == Done && s' == LoadedState(s, ROOTINO)
    case LookUp(d, name) => reply.Found? && LookedUp(s, s', d, name, reply.inode)
    case SyncInode(i) => reply == Done && Synced(s, s', i)
    case ForgetInode(i) => reply == Done && Forgotten(s, s', i)
    case ResizeFile(i, size) => reply == Done && HasSize(s, s', i, size)
    case WriteFile(i, l, data, size) => reply == Done && HasBlock(s, s', i, l, data, size)
    case ListDir(d, p, room) => reply.Listed? && s' == s && Emits(Slots(s, d), p, room, reply.pos, reply.out)
    case _ => reply == Done && Renamed(s, s', op)
  }

  /** Why a request fails in the driver. */
  ghost predicate Cause(s: Fs, op: Request, e: Errno, unreadable: bool, noMemory: bool) {
    match op
    case LoadRoot => e == ENOMEM && noMemory
    case LookUp(d, name) => NameCause(s, d, name, e, unreadable, noMemory)
    case SyncInode(_) => e == EIO && unreadable
    case ForgetInode(_) => false
    case CreateFile(d, name) => EntryCause(s, d, name, AddNeed(s, d), e, unreadable, noMemory)
    case MakeDir(d, name) => EntryCause(s, d, name, 1 + AddNeed(s, d), e, unreadable, noMemory)
    case LinkFile(i, d, name) =>
      || (e == EPERM && i in s.cache && s.cache[i].kind == T_DIR)
      || (e == EMLINK && i in s.cache && s.cache[i].nlink >= 65535)
      || AddCause(s, d, name, AddNeed(s, d), e, unreadable)
    case RemoveFile(d, name) => NameCause(s, d, name, e, unreadable, noMemory)
    case RemoveDir(d, name) =>
      NameCause(s, d, name, e, unreadable, noMemory) || (e == ENOTEMPTY && (unreadable || NamesFullDir(s, d, name)))
    case ResizeFile(_, _) => false
    case WriteFile(i, l, _, _) =>
      || (e == EIO && unreadable) || (e == EFBIG && l >= MAXFILE)
      || (e == ENOSPC && Counting.FreeData(s) < BlockMap.BlocksNeeded(s, i, l))
    case ListDir(_, _, _) => e == EIO && unreadable
  }

  ghost predicate EntryCause(s: Fs, d: nat, name: Name, need: nat, e: Errno, unreadable: bool, noMemory: bool) {
    AddCause(s, d, name, need, e, unreadable) || InodeCause(s, e, noMemory)
  }

  /** Why the inode behind a name cannot be had. */
  ghost predicate NameCause(s: Fs, d: nat, name: Name, e: Errno, unreadable: bool, noMemory: bool) {
    || (e == ENAMETOOLONG && |name| > DIRSIZ)
    || (e == EIO && unreadable)
    || (e == ENOMEM && noMemory && DirMap.Lookup(Slots(s, d), name).Some?)
    || (e == EINVAL && NamesUnknown(s, d, name))
  }

  ghost predicate NamesFullDir(s: Fs, d: nat, name: Name) {
    var i := DirMap.Lookup(Slots(s, d), name);
    i.Some? && |LiveFrom(Slots(s, i.value), 0)| > 2
  }

  /** The name is present, but its inode is not in core and has none of the three kinds. */
  ghost predicate NamesUnknown(s: Fs, d: nat, name: Name) {
    var i := DirMap.Lookup(Slots(s, d), name);
    i.Some? && i.value !in s.cache && Ino(s, i.value).kind !in {T_DIR, T_FILE, T_DEV}
  }

  /** Inodes whose data `ForgetInode(i)` may discard: an unlinked one. */
  ghost function Orphan(s: Fs, i: nat): set<nat> {
    if i in s.cache && s.cache[i].nlink == 0 then {i} else {}
  }

  /** The inodes whose data a request may change: the directory or file it writes, an unlinked inode it drops. */
  ghost function Touched(s: Fs, op: Request): set<nat> {
    match op
    case LoadRoot => {}
    case LookUp(_, _) => {}
    case SyncInode(_) => {}
    case ForgetInode(i) => Orphan(s, i)
    case CreateFile(d, _) => {d}
    case MakeDir(d, _) => {d}
    case LinkFile(_, d, _) => {d}
    case RemoveFile(d, _) => {d}
    case RemoveDir(d, _) => {d}
    case ResizeFile(i, _) => {i}
    case WriteFile(i, _, _, _) => {i}
    case ListDir(_, _, _) => {}
  }

  /** The reply is right: refused only what the VFS must refuse, failed only with a cause, and done what was asked. */
  ghost predicate Answered(m: Moment, m': Moment, op: Request, reply: Reply) {
    match reply
    case Refused => !Allowed(m.fs, op)
    case Failed(e) => Cause(m.fs, op, e, m'.faults > m.faults, m'.oom > m.oom)
    case _ => Allowed(m.fs, op) && Acted(m.fs, m'.fs, op, reply)
  }

  /**
   One request.  Only one that is carried out and renames changes the name space; data
   it does not touch is left alone; and unless one of its reads fails it strands nothing.
   */
  ghost predicate Follows(m: Moment, m': Moment, op: Request, reply: Reply) {
    && Answered(m, m', op, reply)
    && (reply.Refused? || reply.Failed? || !Renames(op) ==> Abs(m'.fs) == Abs(m.fs))
    && (reply.Failed? && Renames(op) ==> DirKept(m.fs, m'.fs, op.d))
    && Steps(m, m', Touched(m.fs, op))
  }

  ghost predicate Steps(m: Moment, m': Moment, touched: set<nat>) {
    && Untouched(m.fs, m'.fs, touched)
    && m.faults <= m'.faults && m.oom <= m'.oom
    && (m'.faults == m.faults ==> StraySame(m.fs, m.own, m'.fs, m'.own))
  }

  /** States of a run, one before each request and one at the end. */
  ghost predicate History(trace: seq<Moment>, ops: seq<Request>, replies: seq<Reply>) {
    && |trace| == |ops| + 1 && |replies| == |ops|
    && forall k :: 0 <= k < |ops| ==> Follows(trace[k], trace[k + 1], ops[k], replies[k])
  }

  // -------------------------------------------------------- guarded requests

  lemma StepsSelf(m: Moment, base: nat, faults: nat, touched: set<nat>)
    requires ValidAt(m, base) && m.faults <= faults
    ensures Steps(m, m.(faults := faults), touched) && ValidAt(m.(faults := faults), base)
  {
    hide Sound, Abs, WellLinked, Untouched, StraySame;
    UntouchedStart(m.fs, m.own, m.faults == 0, touched);
    StrayItself(m.fs, m.own);
    SoundAfterRead(m.fs, m.own, m.faults == 0, faults == 0);
  }

  lemma StepsTwice(m: Moment, m1: Moment, m2: Moment, touched: set<nat>)
    requires Steps(m, m1, {}) && Steps(m1, m2, touched)
    ensures Steps(m, m2, touched)
  {
    hide Untouched, StraySame;
    UntouchedTransitive(m.fs, m1.fs, m2.fs, {}, touched);
    assert {} + touched == touched;
    if m2.faults == m.faults {
      BlockMap.StrayTransitive(m.fs, m.own, m1.fs, m1.own, m2.fs, m2.own);
    }
  }

  lemma LoadStray(s: Fs, own: Owners, i: nat)
    requires Shape(s) && i < s.sb.ninodes
    ensures StraySame(s, own, LoadedState(s, i), own)
  {
    hide Bitmap.IsSet;
  }

  /** `xv6fs_iget` as the VFS calls it: for a linked inode, by its name or as the root. */
  method Load(v: Volume, i: nat, ghost base: nat) returns (r: Result<()>)
    requires Valid(v, base) && NodeAt(v.View(), i).Some?
    modifies v`disk, v`table, v`free, v`freeCount, v`cache, v`faults, v`oom, v`owner
    ensures Valid(v, base) && Abs(v.View()) == Abs(old(v.View())) && Untouched(old(v.View()), v.View(), {})
    ensures v.owner == old(v.owner) && v.faults == old(v.faults) && old(v.oom) <= v.oom
    ensures StraySame(old(v.View()), v.owner, v.View(), v.owner)
    ensures r.Ok? ==> i in v.cache && v.View() == LoadedState(old(v.View()), i)
    ensures r.Err? ==> v.View() == old(v.View())
    ensures r.Err? ==> (r.error == EINVAL && Unreadable(old(v.View()), i)) || (r.error == ENOMEM && v.oom > old(v.oom))
  {
    hide Sound, Abs, WellLinked, Decode, Untouched, Unreadable, LoadedState, InUse, BlankSlots, Owns, StraySame, Ino;
    hide Freed, GaveBack;
    ghost var s, own, clean := v.View(), v.owner, v.faults == 0;
    SoundBlank(s, own, clean);
    UntouchedStart(s, own, clean, {});
    StrayItself(s, own);
    NodeNumber(s, own, i, clean);
    assert Shape(s) by { OwnsShape(s, own); }
    var n := Iget(v, i);
    if n.Err? {
      return Err(n.error);
    }
    LoadQuiet(s, own, i, clean);
    LoadStray(s, own, i);
    return Ok(());
  }

  lemma NodeNumber(s: Fs, own: Owners, i: nat, clean: bool)
    requires Sound(s, own, clean) && NodeAt(s, i).Some?
    ensures 0 < i < s.sb.ninodes && InUse(s, i) && Ino(s, i).nlink > 0
  {
    hide PointersOwned, OwnersPoint, MetaMarked, CleanCached, NoLeak, TableOnDisk, Widths;
  }

  lemma RootIsNode(s: Fs, base: nat)
    requires WellLinked(Abs(s), base)
    ensures NodeAt(s, ROOTINO).Some? && (ROOTINO < s.sb.ninodes ==> !Unreadable(s, ROOTINO))
  {
    hide UniqueNames, Dots, Parents, FileCounts, DirCounts, Slots;
    AbsAt(s);
    hide Abs;
  }

  method Root(v: Volume, ghost base: nat) returns (reply: Reply)
    requires Valid(v, base)
    modifies v`disk, v`table, v`free, v`freeCount, v`cache, v`faults, v`oom, v`owner
    ensures Valid(v, base) && Follows(old(Now(v)), Now(v), LoadRoot, reply)
  {
    hide Sound, Abs, WellLinked, Untouched, StraySame, LoadedState, Unreadable, NodeAt;
    RootIsNode(v.View(), base);
    RootInRange(v.View(), v.owner, v.faults == 0);
    var l := Load(v, ROOTINO, base);
    reply := if l.Ok? then Done else Failed(l.error);
  }

  lemma RootInRange(s: Fs, own: Owners, clean: bool)
    requires Sound(s, own, clean)
    ensures ROOTINO < s.sb.ninodes
  {
    hide PointersOwned, OwnersPoint, MetaMarked, Lists, CleanCached, NoLeak, TableOnDisk, Widths;
  }

  /** Write an inode back. */
  method Writeback(v: Volume, i: nat, ghost base: nat) returns (reply: Reply)
    requires Valid(v, base)
    modifies v`disk, v`table, v`cache, v`faults
    ensures Valid(v, base) && Follows(old(Now(v)), Now(v), SyncInode(i), reply) && v.cache.Keys == old(v.cache).Keys
    ensures i in v.cache ==> !v.cache[i].dirty && v.cache[i] == old(v.cache)[i].(dirty := false)
  {
    hide Sound, Abs, WellLinked, Decode, Encode, Elsewhere, SetRaw, Untouched, Owns, StraySame, DiskSlot;
    hide HeldAt, SameBut;
    ghost var s, clean := v.View(), v.faults == 0;
    StepsSelf(Now(v), base, v.faults, {});
    if i !in v.cache {
      return Refused;
    }
    SoundOwns(s, v.owner, clean);
    var r := WriteInode(v, i);
    WriteQuiet(s, v.owner, v.View(), i, clean);
    reply := if r.Ok? then Done else Failed(r.error);
  }

  /** Drop an inode from the cache, writing a linked one back first. */
  method Evict(v: Volume, i: nat, ghost base: nat) returns (reply: Reply)
    requires Valid(v, base)
    modifies v`disk, v`table, v`free, v`freeCount, v`cache, v`faults, v`owner
    ensures Valid(v, base) && Follows(old(Now(v)), Now(v), ForgetInode(i), reply)
  {
    hide Sound, Abs, WellLinked, Decode, Elsewhere, Untouched, Owns, StraySame, Ino, InUse, GaveBack;
    ghost var m0 := Now(v);
    StepsSelf(m0, base, v.faults, {});
    if i !in v.cache {
      return Refused;
    }
    if v.cache[i].nlink > 0 && v.cache[i].dirty {
      var w := Writeback(v, i, base);
    }
    ghost var m1 := Now(v);
    assert Steps(m0, m1, {}) && Abs(m1.fs) == Abs(m0.fs);
    SoundOwns(m1.fs, m1.own, m1.faults == 0);
    CachedNumber(m1.fs, m1.own, i, m1.faults == 0);
    EvictInode(v, i);
    if m1.fs.cache[i].nlink > 0 {
      UncacheQuiet(m1.fs, m1.own, i, m1.faults == 0);
    } else {
      GoneQuiet(m1.fs, m1.own, v.View(), v.owner, i);
      ElsewhereUntouched(m1.fs, m1.own, v.View(), v.owner, i);
    }
    StepsTwice(m0, m1, Now(v), Orphan(m0.fs, i));
    CachedIno(m1.fs, i);
    assert Forgotten(m0.fs, v.View(), i);
    return Done;
  }

  lemma CachedIno(s: Fs, i: nat)
    requires i in s.cache
    ensures Ino(s, i) == s.cache[i]
  {
  }

  lemma CachedNumber(s: Fs, own: Owners, i: nat, clean: bool)
    requires Sound(s, own, clean) && i in s.cache
    ensures 0 < i
  {
    hide PointersOwned, OwnersPoint, MetaMarked, CleanCached, NoLeak, TableOnDisk, Widths, InUse;
  }

  lemma InCoreDir(s: Fs, own: Owners, d: nat, clean: bool)
    requires Sound(s, own, clean) && d in s.cache && s.cache[d].kind == T_DIR && s.cache[d].nlink > 0
    ensures LinkedDir(s, d) && Walkable(s, d) && Owns(s, own) && MetaMarked(s)
  {
    hide Sound, Owns, MetaMarked, Walkable;
    SoundOwns(s, own, clean);
    CachedInUse(s, d);
    DirWalkable(s, own, d, clean);
  }

  /** The checks before an entry is made: the directory is linked and does not have the name yet. */
  method MayEnter(v: Volume, d: nat, name: Name, ghost base: nat) returns (verdict: Option<Reply>)
    requires Valid(v, base)
    modifies v`disk, v`cache, v`faults, v`nobuf, v`owner
    ensures Valid(v, base) && v.View() == old(v.View()) && v.owner == old(v.owner) && old(v.faults) <= v.faults
    ensures match verdict
      case None => CanEnter(v, base, d, name) && MayName(v.View(), d, name) && v.faults == old(v.faults)
      case Some(reply) =>
        || (reply == Refused && !MayName(v.View(), d, name))
        || (reply == Failed(EIO) && v.faults > old(v.faults) && d in v.cache)
  {
    hide Sound, Abs, WellLinked, Owns, MetaMarked, LinkedDir, Slots, LMap, Names, Walkable;
    ghost var s := v.View();
    if !OpenDir(v.cache, d) || !Nameable(name) {
      return Some(Refused);
    }
    InCoreDir(v.View(), v.owner, d, v.faults == 0);
    ghost var clean := v.faults == 0;
    var f, c := FindEntry(v, d, name);
    SoundAfterRead(v.View(), v.owner, clean, v.faults == 0);
    if f.Err? {
      return Some(Failed(f.error));
    }
    return if f.value.None? then None else Some(Refused);
  }

  lemma LoadedSlots(s: Fs, i: nat, d: nat)
    ensures Slots(LoadedState(s, i), d) == Slots(s, d)
  {
    hide Ino, WordAt, DirentAt;
    SameIno(s, i, d);
    assert forall p: nat :: Slot(LoadedState(s, i), d, p) == Slot(s, d, p);
  }

  lemma SameIno(s: Fs, i: nat, d: nat)
    ensures Ino(LoadedState(s, i), d) == Ino(s, d)
  {
    hide Decode;
  }

  /** A name found leads to a linked inode. */
  lemma NamedIsLinked(s: Fs, base: nat, d: nat, name: Name, q: nat)
    requires WellLinked(Abs(s), base) && LinkedDir(s, d) && Walkable(s, d) && FoundAt(Slots(s, d), name, q)
    ensures NodeAt(s, Slots(s, d)[q].inum).Some?
  {
    hide Slots, NodeAt, UniqueNames, Dots, Parents, FileCounts, DirCounts, Names;
    SizeSlots(s, d);
    FoundMeans(s, d, name, q);
    AbsAt(s);
    hide Abs;
  }

  /**
   `xv6fs_lookup`: the inode the directory maps the name to, brought in core, or
   nothing for an absent name.  It fails only for a name that is too long, a failed
   read, or a present name whose inode cannot be had: for want of memory, or because
   it is not in core and of no known kind.
   */
  method LookupName(v: Volume, d: nat, name: Name, ghost base: nat) returns (r: Result<Option<nat>>)
    requires Valid(v, base) && OpenDir(v.cache, d)
    modifies v`disk, v`table, v`free, v`freeCount, v`cache, v`faults, v`nobuf, v`oom, v`owner
    ensures Valid(v, base) && Abs(v.View()) == Abs(old(v.View())) && Steps(old(Now(v)), Now(v), {})
    ensures v.owner == old(v.owner)
    ensures |name| > DIRSIZ <==> r == Err(ENAMETOOLONG)
    ensures r.Ok? ==> LookedUp(old(v.View()), v.View(), d, name, r.value) && v.faults == old(v.faults)
    ensures r.Ok? && r.value.Some? ==>
      r.value.value in v.cache && v.cache[r.value.value] == Ino(old(v.View()), r.value.value)
        && v.cache[r.value.value].nlink > 0
    ensures r.Err? ==> v.View() == old(v.View())
    ensures r.Err? ==> NameCause(old(v.View()), d, name, r.error, v.faults > old(v.faults), v.oom > old(v.oom))
  {
    hide Sound, Abs, WellLinked, Owns, MetaMarked, LinkedDir, Slots, LMap, Decode, InUse, Walkable, Untouched;
    hide NodeAt, Ino, Unreadable, NamesUnknown, StraySame;
    ghost var s, clean := v.View(), v.faults == 0;
    StepsSelf(Now(v), base, v.faults, {});
    if |name| > DIRSIZ {
      return Err(ENAMETOOLONG);
    }
    InCoreDir(s, v.owner, d, clean);
    DirMap.LookupMeaning(Slots(s, d), name);
    var f, c := FindEntry(v, d, name);
    SoundAfterRead(s, v.owner, clean, v.faults == 0);
    if f.Err? {
      return Err(f.error);
    }
    if f.value.None? {
      return Ok(None);
    }
    NamedIsLinked(s, base, d, name, c.pos / DIRENT_SIZE);
    var i := f.value.value.inum;
    NodeNumber(s, v.owner, i, v.faults == 0);
    var l := Load(v, i, base);
    if l.Err? {
      UnknownKind(s, d, name, i);
      return Err(l.error);
    }
    LoadedIno(s, i);
    return Ok(Some(i));
  }

  lemma UnknownKind(s: Fs, d: nat, name: Name, i: nat)
    requires DirMap.Lookup(Slots(s, d), name) == Some(i) && 0 < i < s.sb.ninodes
    ensures Unreadable(s, i) ==> NamesUnknown(s, d, name)
  {
    hide Slots, Ino;
  }

  lemma LoadedIno(s: Fs, i: nat)
    ensures i in LoadedState(s, i).cache && LoadedState(s, i).cache[i] == Ino(s, i)
  {
  }

  /** After the lookup the entry can be removed. */
  lemma LookedUpRemovable(v: Volume, s: Fs, d: nat, name: Name, i: nat)
    requires Sound(v.View(), v.owner, v.faults == 0) && OpenDir(s.cache, d)
    requires LookedUp(s, v.View(), d, name, Some(i)) && i in v.cache && v.cache[i].nlink > 0
    ensures CanRemove(v, d, name, i) && Slots(v.View(), i) == Slots(s, i)
    ensures !Absent(Slots(v.View(), d), name)
  {
    hide Sound, LinkedDir, Slots, Ino, LoadedState, Decode, Owns, Walkable;
    var t := v.View();
    LoadedSlots(s, i, d);
    LoadedSlots(s, i, i);
    LoadedDir(s, d, i);
    InCoreDir(t, v.owner, d, v.faults == 0);
    DirMap.LookupMeaning(Slots(s, d), name);
  }

  lemma LoadedDir(s: Fs, d: nat, i: nat)
    requires d in s.cache
    ensures d in LoadedState(s, i).cache && LoadedState(s, i).cache[d] == s.cache[d]
  {
  }

  method Remove(v: Volume, op: Request, ghost base: nat) returns (reply: Reply)
    requires Valid(v, base) && (op.RemoveFile? || op.RemoveDir?)
    modifies v`disk, v`table, v`free, v`freeCount, v`cache, v`faults, v`nobuf, v`oom, v`owner
    ensures Valid(v, base) && Follows(old(Now(v)), Now(v), op, reply)
  {
    hide Sound, Abs, WellLinked, Slots, Untouched, StraySame, Steps, LoadedState, Ino, NamesUnknown, DirMap.Lookup;
    hide CanRemove, LiveFrom, NameCleared, Renamed, DirKept, Owns;
    ghost var m0 := Now(v);
    var d, name := op.d, op.name;
    StepsSelf(m0, base, v.faults, {d});
    if !OpenDir(v.cache, d) || !Nameable(name) {
      return Refused;
    }
    var l := LookupName(v, d, name, base);
    ghost var m1 := Now(v);
    StepsSelf(m1, base, v.faults, {d});
    StepsTwice(m0, m1, m1, {d});
    if l.Err? {
      DirKeptSelf(m0.fs, d);
      return Failed(l.error);
    }
    if l.value.None? {
      return Refused;
    }
    var i := l.value.value;
    LookedUpRemovable(v, m0.fs, d, name, i);
    LoadedSlots(m0.fs, i, d);
    LoadedDir(m0.fs, d, i);
    if (v.cache[i].kind == T_DIR) != op.RemoveDir? {
      return Refused;
    }
    if op.RemoveDir? {
      reply := RemoveDirectory(v, d, name, i, base);
    } else {
      reply := RemoveRegular(v, d, name, i, base);
    }
    StepsTwice(m0, m1, Now(v), {d});
    RenamedFrom(m0.fs, m1.fs, v.View(), op);
  }

  /** Bringing an inode into core first makes no difference to a removal. */
  lemma RenamedFrom(s: Fs, t: Fs, u: Fs, op: Request)
    requires (op.RemoveFile? || op.RemoveDir?) && Abs(t) == Abs(s) && Slots(t, op.d) == Slots(s, op.d)
    requires op.d in s.cache && op.d in t.cache && t.cache[op.d] == s.cache[op.d]
    ensures Renamed(t, u, op) ==> Renamed(s, u, op)
    ensures u == t ==> DirKept(s, u, op.d)
  {
    hide Abs, Slots, NameCleared, Unlinked, DirOps.RemovedDir;
  }

  method RemoveDirectory(v: Volume, d: nat, name: Name, i: nat, ghost base: nat) returns (reply: Reply)
    requires Valid(v, base) && CanRemove(v, d, name, i) && Nameable(name)
    requires i in v.cache && v.cache[i].kind == T_DIR && v.cache[i].nlink > 0 && !Absent(Slots(v.View(), d), name)
    modifies v`disk, v`cache, v`faults, v`nobuf, v`owner
    ensures Valid(v, base) && Steps(old(Now(v)), Now(v), {d})
    ensures reply == Done || reply.Failed?
    ensures reply == Done ==> Renamed(old(v.View()), v.View(), RemoveDir(d, name))
    ensures reply.Failed? ==> v.View() == old(v.View()) && v.oom == old(v.oom)
    ensures reply.Failed? ==>
      || (reply.error == EIO && v.faults > old(v.faults))
      || (reply.error == ENOTEMPTY && (v.faults > old(v.faults) || |LiveFrom(Slots(old(v.View()), i), 0)| > 2))
  {
    hide Sound, Abs, WellLinked, Slots, Untouched, StraySame, LinkedDir, Owns, CanRemove, LiveFrom, Nameable;
    hide NameCleared, DirOps.RemovedDir, Walkable, MetaMarked;
    InCoreDir(v.View(), v.owner, i, v.faults == 0);
    ParentDir(v, d, name, i);
    var r := DirOps.Rmdir(v, d, name, i, base);
    reply := if r.Ok? then Done else Failed(r.error);
  }

  lemma ParentDir(v: Volume, d: nat, name: Name, i: nat)
    requires CanRemove(v, d, name, i)
    ensures d in v.cache && v.cache[d].kind == T_DIR && v.cache[d].nlink > 0 && LinkedDir(v.View(), d)
  {
    hide Sound, Slots;
  }

  method RemoveRegular(v: Volume, d: nat, name: Name, i: nat, ghost base: nat) returns (reply: Reply)
    requires Valid(v, base) && CanRemove(v, d, name, i) && Nameable(name)
    requires i in v.cache && v.cache[i].kind != T_DIR && v.cache[i].nlink > 0 && !Absent(Slots(v.View(), d), name)
    modifies v`disk, v`cache, v`faults, v`nobuf, v`owner
    ensures Valid(v, base) && Steps(old(Now(v)), Now(v), {d})
    ensures reply == Done || (reply == Failed(EIO) && v.faults > old(v.faults))
    ensures reply == Done ==> Renamed(old(v.View()), v.View(), RemoveFile(d, name))
    ensures reply.Failed? ==> v.View() == old(v.View())
  {
    hide Sound, Abs, WellLinked, Slots, Untouched, StraySame, LinkedDir, Owns, CanRemove, Nameable, NameCleared;
    hide Unlinked, Absent, EntryBytes;
    ghost var s := v.View();
    FileInAbs(s, v.owner, i, v.faults == 0);
    ParentDir(v, d, name, i);
    var r := Unlink(v, d, name, i);
    if r.Ok? {
      UnlinkFileLinks(Abs(s), Abs(v.View()), base, d, name, i);
    }
    reply := if r.Ok? then Done else Failed(r.error);
  }

  lemma FileInAbs(s: Fs, own: Owners, i: nat, clean: bool)
    requires Sound(s, own, clean) && i in s.cache && s.cache[i].nlink > 0 && s.cache[i].kind != T_DIR
    ensures IsFile(Abs(s), i)
  {
    hide Sound, Slots, Decode;
    SoundShape(s, own, clean);
    AbsAt(s);
    CachedInUse(s, i);
    hide Abs;
  }

  method ResizeOrWrite(v: Volume, op: Request, ghost base: nat) returns (reply: Reply)
    requires Valid(v, base) && (op.ResizeFile? || op.WriteFile?)
    modifies v`disk, v`cache, v`faults, v`nobuf, v`owner
    ensures Valid(v, base) && Follows(old(Now(v)), Now(v), op, reply)
  {
    hide Sound, Abs, WellLinked, LMap, Decode, Untouched, Files.SameBlock, BlockMap.BlocksNeeded,
      Counting.FreeData, StraySame, Files.CutBack;
    StepsSelf(Now(v), base, v.faults, {op.i});
    if !OpenFile(v.cache, op.i, op.size) {
      return Refused;
    }
    if op.ResizeFile? {
      Files.SetSize(v, op.i, op.size, base);
      return Done;
    }
    var r := Files.WriteFileBlock(v, op.i, op.l, op.data, op.size, base);
    reply := if r.Ok? then Done else Failed(r.error);
  }

  method Enter(v: Volume, op: Request, ghost base: nat) returns (reply: Reply)
    requires Valid(v, base) && (op.CreateFile? || op.MakeDir? || op.LinkFile?)
    modifies v`disk, v`table, v`free, v`freeCount, v`cache, v`faults, v`nobuf, v`oom, v`owner
    ensures Valid(v, base) && Follows(old(Now(v)), Now(v), op, reply)
  {
    hide Sound, WellLinked, CanEnter, Abs, AddNeed, Counting.FreeData, Steps, Acted;
    hide MayName, FreeSlot, Slots;
    ghost var m0 := Now(v);
    var verdict := MayEnter(v, op.d, op.name, base);
    StepsSelf(m0, base, v.faults, {op.d});
    assert op.d in v.cache ==> DirKept(m0.fs, m0.fs, op.d);
    if verdict.Some? {
      return verdict.value;
    }
    if op.CreateFile? {
      reply := EnterFile(v, op.d, op.name, base);
    } else if op.MakeDir? {
      reply := EnterDir(v, op.d, op.name, base);
    } else if op.i !in v.cache || v.cache[op.i].nlink == 0 {
      reply := Refused;
    } else {
      reply := EnterLink(v, op.i, op.d, op.name, base);
    }
  }

  method EnterFile(v: Volume, d: nat, name: Name, ghost base: nat) returns (reply: Reply)
    requires CanEnter(v, base, d, name) && MayName(v.View(), d, name)
    modifies v`disk, v`table, v`free, v`freeCount, v`cache, v`faults, v`nobuf, v`oom, v`owner
    ensures Valid(v, base) && Follows(old(Now(v)), Now(v), CreateFile(d, name), reply)
  {
    hide Sound, WellLinked, CanEnter, Entered, Abs, Untouched, HasRoom, AddNeed, AddCause, StraySame, MayName;
    hide NameWritten, DirKept;
    ghost var s := v.View();
    var r := Create(v, d, name, base);
    assert r.Ok? ==> CreatedAs(s, v.View(), d, name, r.value);
    reply := if r.Ok? then Done else Failed(r.error);
  }

  method EnterDir(v: Volume, d: nat, name: Name, ghost base: nat) returns (reply: Reply)
    requires CanEnter(v, base, d, name) && MayName(v.View(), d, name)
    modifies v`disk, v`table, v`free, v`freeCount, v`cache, v`faults, v`nobuf, v`oom, v`owner
    ensures Valid(v, base) && Follows(old(Now(v)), Now(v), MakeDir(d, name), reply)
  {
    hide Sound, WellLinked, CanEnter, PutDir, Abs, Untouched, HasRoom, AddNeed, AddCause, StraySame, MayName;
    hide NameWritten, DirKept;
    ghost var s := v.View();
    var r := DirOps.Mkdir(v, d, name, base);
    assert r.Ok? ==> MadeAs(s, v.View(), d, name, r.value);
    reply := if r.Ok? then Done else Failed(r.error);
  }

  method EnterLink(v: Volume, i: nat, d: nat, name: Name, ghost base: nat) returns (reply: Reply)
    requires CanEnter(v, base, d, name) && MayName(v.View(), d, name) && i in v.cache && v.cache[i].nlink > 0
    modifies v`disk, v`cache, v`faults, v`nobuf, v`owner
    ensures Valid(v, base) && Follows(old(Now(v)), Now(v), LinkFile(i, d, name), reply)
  {
    hide Sound, WellLinked, Entered, Abs, Untouched, HasRoom, AddNeed, AddCause, StraySame, MayName;
    hide NameWritten, DirKept, Slots;
    hide LinkedDir, Absent, Nameable;
    if v.cache[i].kind != T_DIR {
      FileInAbs(v.View(), v.owner, i, v.faults == 0);
      NodeIsInode(v.View(), i);
    }
    var r := Link(v, i, d, name, base);
    reply := if r.Ok? then Done else Failed(r.error);
  }

  method List(v: Volume, d: nat, p: nat, room: nat, ghost base: nat) returns (reply: Reply)
    requires Valid(v, base)
    modifies v`disk, v`cache, v`faults, v`nobuf, v`owner
    ensures Valid(v, base) && Follows(old(Now(v)), Now(v), ListDir(d, p, room), reply)
  {
    hide Sound, Abs, WellLinked, Owns, MetaMarked, Walkable, Slots, Emits, EmitsSome, Untouched, StraySame;
    ghost var m0 := Now(v);
    StepsSelf(m0, base, v.faults, {});
    if !OpenDir(v.cache, d) || p % DIRENT_SIZE != 0 {
      return Refused;
    }
    InCoreDir(v.View(), v.owner, d, v.faults == 0);
    var r, pos, out := Readdir(v, d, p, room);
    StepsSelf(m0, base, v.faults, {});
    reply := if r.Ok? then Listed(pos, out) else Failed(r.error);
  }

  method Name(v: Volume, d: nat, name: Name, ghost base: nat) returns (reply: Reply)
    requires Valid(v, base)
    modifies v`disk, v`table, v`free, v`freeCount, v`cache, v`faults, v`nobuf, v`oom, v`owner
    ensures Valid(v, base) && Follows(old(Now(v)), Now(v), LookUp(d, name), reply)
  {
    hide Sound, Abs, WellLinked, Steps, NameCause, LookedUp, Ino;
    StepsSelf(Now(v), base, v.faults, {});
    if !OpenDir(v.cache, d) {
      return Refused;
    }
    var l := LookupName(v, d, name, base);
    reply := if l.Ok? then Found(l.value) else Failed(l.error);
  }

  /** One request, answered. */
  method Step(v: Volume, op: Request, ghost base: nat) returns (reply: Reply)
    requires Valid(v, base)
    modifies v`disk, v`table, v`free, v`freeCount, v`cache, v`faults, v`nobuf, v`oom, v`owner
    ensures Valid(v, base) && Follows(old(Now(v)), Now(v), op, reply)
  {
    hide Valid, Follows;
    match op {
      case LoadRoot =>
        reply := Root(v, base);
      case LookUp(d, name) =>
        reply := Name(v, d, name, base);
      case SyncInode(i) =>
        reply := Writeback(v, i, base);
      case ForgetInode(i) =>
        reply := Evict(v, i, base);
      case CreateFile(_, _) =>
        reply := Enter(v, op, base);
      case MakeDir(_, _) =>
        reply := Enter(v, op, base);
      case LinkFile(_, _, _) =>
        reply := Enter(v, op, base);
      case RemoveFile(_, _) =>
        reply := Remove(v, op, base);
      case RemoveDir(_, _) =>
        reply := Remove(v, op, base);
      case ResizeFile(_, _) =>
        reply := ResizeOrWrite(v, op, base);
      case WriteFile(_, _, _, _) =>
        reply := ResizeOrWrite(v, op, base);
      case ListDir(d, p, room) =>
        reply := List(v, d, p, room, base);
    }
  }

  // -------------------------------------------------------------- whole runs

  /**
   Every state of every run is valid: ownership without sharing, metadata marked,
   inode partition, clean inodes in the table, field widths and link counts hold
   whatever reads fail; nothing leaks and the table is on disk as long as none has.
   Every request is answered rightly (`Answered`): it is refused only by a check it does
   not pass, fails only for a cause and then leaves the name space alone, and is
   otherwise carried out; it leaves the data of every inode it does not touch alone,
   and strands blocks only if one of its own reads failed.
   */
  method RunAll(v: Volume, ops: seq<Request>, ghost base: nat)
    returns (replies: seq<Reply>, ghost trace: seq<Moment>)
    requires Valid(v, base)
    modifies v`disk, v`table, v`free, v`freeCount, v`cache, v`faults, v`nobuf, v`oom, v`owner
    ensures Valid(v, base)
    ensures History(trace, ops, replies) && trace[0] == old(Now(v)) && trace[|ops|] == Now(v)
    ensures forall k :: 0 <= k < |trace| ==> ValidAt(trace[k], base)
  {
    hide Valid, ValidAt, Follows;
    trace, replies := [Now(v)], [];
    ValidNow(v, base);
    for k := 0 to |ops|
      invariant Valid(v, base)
      invariant History(trace, ops[..k], replies) && trace[0] == old(Now(v)) && trace[k] == Now(v)
      invariant forall j :: 0 <= j < |trace| ==> ValidAt(trace[j], base)
    {
      var reply := Step(v, ops[k], base);
      ValidNow(v, base);
      Longer(trace, ops[..k], replies, Now(v), ops[k], reply);
      trace, replies := trace + [Now(v)], replies + [reply];
      assert ops[..k + 1] == ops[..k] + [ops[k]];
    }
    assert ops[..|ops|] == ops;
  }

  lemma ValidNow(v: Volume, base: nat)
    requires Valid(v, base)
    ensures ValidAt(Now(v), base)
  {
    hide Sound, WellLinked, Abs;
  }

  lemma Longer(trace: seq<Moment>, ops: seq<Request>, replies: seq<Reply>, m: Moment, op: Request, reply: Reply)
    requires History(trace, ops, replies) && Follows(trace[|ops|], m, op, reply)
    ensures History(trace + [m], ops + [op], replies + [reply])
  {
    hide Follows;
    var t, o, r := trace + [m], ops + [op], replies + [reply];
    forall k | 0 <= k < |o| ensures Follows(t[k], t[k + 1], o[k], r[k]) {
      if k < |ops| {
        assert t[k] == trace[k] && t[k + 1] == trace[k + 1] && o[k] == ops[k] && r[k] == replies[k];
      } else {
        assert t[k] == trace[|ops|] && t[k + 1] == m && o[k] == op && r[k] == reply;
      }
    }
  }

  /**
   File contents survive a run: an inode in use at the start that no request touches
   has at the end the same size and pointers, and the same bytes in every block.
   */
  lemma {:induction false} ContentsSurvive(trace: seq<Moment>, ops: seq<Request>, replies: seq<Reply>, j: nat)
    requires History(trace, ops, replies) && Owns(trace[0].fs, trace[0].own) && InUse(trace[0].fs, j)
    requires forall k :: 0 <= k < |ops| ==> j !in Touched(trace[k].fs, ops[k])
    ensures SameData(trace[0].fs, trace[|ops|].fs, j)
    decreases |ops|
  {
    hide Owns, InUse, Ino, Ptr, Abs, Touched, Answered, StraySame;
    UntouchedSelf(trace[0].fs, trace[0].own);
    if |ops| > 0 {
      var n := |ops| - 1;
      ContentsSurvive(trace[..n + 1], ops[..n], replies[..n], j);
      assert Follows(trace[n], trace[n + 1], ops[n], replies[n]);
      assert j !in Touched(trace[n].fs, ops[n]);
      assert SameData(trace[0].fs, trace[n].fs, j);
      assert InUse(trace[n].fs, j);
      UntouchedAt(trace[n].fs, trace[n + 1].fs, Touched(trace[n].fs, ops[n]), j);
    }
  }

  /** A block that a run has stranded was stranded by a request with a failed read. */
  lemma {:induction false} StrandedByFailure(trace: seq<Moment>, ops: seq<Request>, replies: seq<Reply>, b: nat)
    returns (k: nat)
    requires History(trace, ops, replies)
    requires !Stray(trace[0].fs, trace[0].own, b) && Stray(trace[|ops|].fs, trace[|ops|].own, b)
    ensures k < |ops| && trace[k + 1].faults > trace[k].faults
    ensures !Stray(trace[k].fs, trace[k].own, b) && Stray(trace[k + 1].fs, trace[k + 1].own, b)
    decreases |ops|
  {
    hide Answered, Untouched, Touched, Stray, Abs;
    var n := |ops| - 1;
    assert Follows(trace[n], trace[n + 1], ops[n], replies[n]);
    if Stray(trace[n].fs, trace[n].own, b) {
      k := StrandedByFailure(trace[..n + 1], ops[..n], replies[..n], b);
    } else {
      k := n;
    }
  }
}
