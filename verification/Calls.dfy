/** Writes to one file and cuts of its size, in sequence: which blocks they leave it with. */
module Calls {
  import opened Bytes
  import opened Codec
  import opened Results
  import opened State
  import opened Ownership
  import opened BlockMap
  import opened Truncate
  import Directory
  import Counting
  import opened Files
  import Inodes
  import Theorems
  import Run

  datatype FileCall = Put(l: nat, data: Block, size: nat) | Cut(size: nat)

  ghost predicate SameMap(s: Fs, s': Fs, i: nat) { forall k: nat :: k < MAXFILE ==> LMap(s', i, k) == LMap(s, i, k) }

  ghost predicate Stored(s: Fs, s': Fs, i: nat, l: nat, data: Block, size: nat) {
    && i in s.cache && i in s'.cache && Raised(s.cache[i], s'.cache[i], size)
    && l < MAXFILE && 0 < LMap(s', i, l) < |s'.disk| && s'.disk[LMap(s', i, l)] == data
    && (forall k: nat :: k < MAXFILE && k != l ==> LMap(s', i, k) == LMap(s, i, k))
    && (l < NDIRECT && Ptr(s', i, INDIRECT) != 0 ==> Ptr(s, i, INDIRECT) != 0)
  }

  /** If no read failed, only the blocks that hold a byte below the size are left, and what leads to them. */
  ghost predicate Shortened(s: Fs, s': Fs, i: nat, size: nat, quiet: bool) {
    && i in s.cache && i in s'.cache
    && s'.cache[i] == s.cache[i].(addrs := s'.cache[i].addrs, size := size, dirty := true)
    && (forall k: nat :: k < MAXFILE && k * BSIZE < size ==> LMap(s', i, k) == LMap(s, i, k))
    && (quiet ==>
         && (forall k: nat :: k < MAXFILE && k * BSIZE >= size ==> LMap(s', i, k) == 0)
         && (Ptr(s', i, INDIRECT) != 0 ==> EntryLeft(s', i, MAXFILE)))
  }

  /** One call on inode `i`. */
  ghost predicate Called(m: Run.Moment, m': Run.Moment, i: nat, call: FileCall, reply: Result<()>) {
    && m.faults <= m'.faults
    && match call
       case Put(l, data, size) =>
         if reply.Ok? then Stored(m.fs, m'.fs, i, l, data, size)
         else
           && SameMap(m.fs, m'.fs, i)
           && Run.Cause(m.fs, Run.WriteFile(i, l, data, size), reply.error, m'.faults > m.faults, false)
       case Cut(size) => reply.Ok? && Shortened(m.fs, m'.fs, i, size, m'.faults == m.faults)
  }

  /** The moments of a sequence of calls. */
  ghost predicate CalledAll(trace: seq<Run.Moment>, i: nat, calls: seq<FileCall>, replies: seq<Result<()>>) {
    && |trace| == |calls| + 1 && |replies| == |calls|
    && forall k :: 0 <= k < |calls| ==> Called(trace[k], trace[k + 1], i, calls[k], replies[k])
  }

  ghost predicate AllOk(replies: seq<Result<()>>) { forall k :: 0 <= k < |replies| ==> replies[k].Ok? }

  /** A write adds its block, a cut drops those beyond the size. */
  ghost function After(held: set<nat>, call: FileCall, reply: Result<()>): set<nat> {
    match call
    case Put(l, _, _) => if reply.Ok? then held + {l} else held
    case Cut(size) => set l | l in held && l * BSIZE < size
  }

  /** The blocks a file without blocks ends up with. */
  ghost function Held(calls: seq<FileCall>, replies: seq<Result<()>>): set<nat>
    requires |replies| == |calls|
  {
    if calls == [] then {}
    else
      var n := |calls| - 1;
      After(Held(calls[..n], replies[..n]), calls[n], replies[n])
  }

  /** Inode `i` has the blocks in `held`; no others if `quiet`, and an indirect block only for them if `exact`. */
  ghost predicate Holds(s: Fs, i: nat, held: set<nat>, quiet: bool, exact: bool) {
    && (forall l :: l in held ==> l < MAXFILE && LMap(s, i, l) != 0)
    && (quiet ==> forall l: nat :: l < MAXFILE && LMap(s, i, l) != 0 ==> l in held)
    && (quiet && exact && Ptr(s, i, INDIRECT) != 0 ==> EntryLeft(s, i, MAXFILE))
  }

  lemma HoldsStep(m: Run.Moment, m': Run.Moment, i: nat, call: FileCall, reply: Result<()>, held: set<nat>, quiet: bool,
                  exact: bool)
    requires Called(m, m', i, call, reply) && Holds(m.fs, i, held, quiet, exact)
    ensures m.faults <= m'.faults
    ensures Holds(m'.fs, i, After(held, call, reply), quiet && m'.faults == m.faults, exact && reply.Ok?)
  {
    hide Ptr, LMap, Run.Cause;
    if call.Put? && reply.Ok? && quiet && exact && Ptr(m'.fs, i, INDIRECT) != 0 && call.l < NDIRECT {
      var l: nat :| NDIRECT <= l < MAXFILE && LMap(m.fs, i, l) != 0;
      assert LMap(m'.fs, i, l) != 0;
    }
  }

  /** A file without blocks holds nothing; and one that holds nothing exactly has none. */
  lemma NothingHeld(s: Fs, i: nat, held: set<nat>)
    ensures Theorems.NoBlocks(s, i) ==> Holds(s, i, {}, true, true)
    ensures Holds(s, i, held, true, false) && held != {} ==> !Theorems.NoBlocks(s, i)
    ensures Holds(s, i, held, true, true) ==> (Theorems.NoBlocks(s, i) <==> held == {})
  {
    hide Ptr;
    if held == {} && Holds(s, i, held, true, true) {
      forall k: nat | k < SLOTS ensures Ptr(s, i, k) == 0 {
        assert k != INDIRECT ==> k == SlotOf(if k < NDIRECT then k else k - 1);
        assert k != INDIRECT ==> LMap(s, i, if k < NDIRECT then k else k - 1) == 0;
      }
    }
  }

  /** After any sequence of calls on a file without blocks it has the blocks the calls say. */
  lemma {:induction false} HeldBlocks(trace: seq<Run.Moment>, i: nat, calls: seq<FileCall>, replies: seq<Result<()>>)
    requires CalledAll(trace, i, calls, replies) && Theorems.NoBlocks(trace[0].fs, i)
    ensures trace[0].faults <= trace[|calls|].faults
    ensures Holds(trace[|calls|].fs, i, Held(calls, replies), trace[|calls|].faults == trace[0].faults, AllOk(replies))
    decreases |calls|
  {
    hide Ptr, Called, Holds, Theorems.NoBlocks, After;
    if calls == [] {
      NothingHeld(trace[0].fs, i, {});
      return;
    }
    var n := |calls| - 1;
    HeldBlocks(trace[..n + 1], i, calls[..n], replies[..n]);
    var quiet, exact := trace[n].faults == trace[0].faults, AllOk(replies[..n]);
    HoldsStep(trace[n], trace[n + 1], i, calls[n], replies[n], Held(calls[..n], replies[..n]), quiet, exact);
    assert AllOk(replies) <==> exact && replies[n].Ok?;
  }

  lemma NewParts(s: Fs, own: Owners, t: Fs, own': Owners, i: nat, l: nat, m: Mapping)
    requires i in s.cache && l < NDIRECT && MapPost(s, own, t, own', i, l, true, Ok(m))
    ensures m.Mapped? && (!m.isNew ==> t == s)
    ensures m.isNew ==>
      && LMap(t, i, l) == m.block != 0 && !Used(s, m.block)
      && Owns(t, own') && i in t.cache && |own'| == |own| + 1 && forall b :: b in own ==> b in own' && own'[b] == own[b]
  {
    hide Owns, StraySame, DataKept, LMap, Used, Others, Residue;
  }

  /** A direct block takes no indirect block along. */
  lemma DirectAlone(s: Fs, own: Owners, t: Fs, own': Owners, i: nat, l: nat, m: Mapping)
    requires Owns(s, own) && i in s.cache && l < NDIRECT && MapPost(s, own, t, own', i, l, true, Ok(m))
    ensures Ptr(t, i, INDIRECT) != 0 ==> Ptr(s, i, INDIRECT) != 0
  {
    hide MapPost, Ptr, Used, Shape;
    NewParts(s, own, t, own', i, l, m);
    var b, x := m.block, Ptr(t, i, INDIRECT);
    if m.isNew && x != 0 {
      assert InUse(t, i) by { Inodes.OwnsShape(t, own'); Inodes.CachedInUse(t, i); }
      assert own'[b] == (i, l) && own'[x] == (i, INDIRECT);
      assert b !in own;
      if x !in own {
        Subset(own.Keys + {b, x}, own'.Keys);
      }
    }
  }

  lemma Subset(a: set<nat>, b: set<nat>)
    requires a <= b
    ensures |a| <= |b|
  {
    assert b == a + (b - a);
  }

  /** One call, on any volume that has owners for its blocks. */
  method Call(v: Volume, i: nat, call: FileCall) returns (reply: Result<()>)
    requires v.steady && Mapable(v, i)
    modifies v`disk, v`cache, v`faults, v`nobuf, v`owner
    ensures Called(old(Run.Now(v)), Run.Now(v), i, call, reply)
    ensures Owns(v.View(), v.owner) && Others(old(v.View()), old(v.owner), v.View(), v.owner, i)
    ensures i in v.cache && StrayGrows(old(v.View()), old(v.owner), v.View(), v.owner)
    ensures old(v.faults) <= v.faults
    ensures v.faults == old(v.faults) ==> StraySame(old(v.View()), old(v.owner), v.View(), v.owner)
  {
    hide Owns, Others, StrayGrows, StraySame, Ptr, LMap, MapPost, TruncPost, MetaMarked, Stored, Shortened, Run.Cause;
    ghost var s, own, f0 := v.View(), v.owner, v.faults;
    match call {
      case Put(l, data, size) =>
        ghost var g, t;
        var r;
        r, g, t := StoreBlock(v, i, l, data, size);
        Inodes.StraySameGrows(s, own, v.View(), v.owner);
        if r.Err? {
          PutFailed(s, own, t, v.owner, i, l, data, size, r.error, v.faults > f0);
          return Err(r.error);
        }
        PutDone(s, own, t, v.owner, i, l, data, size, g.value);
      case Cut(size) =>
        ghost var t := ResizeBlocks(v, i, size);
        CutDone(s, own, t, v.owner, i, size, v.faults == f0);
    }
    reply := Ok(());
  }

  lemma PutFailed(s: Fs, own: Owners, t: Fs, own': Owners, i: nat, l: nat, data: Block, size: nat, e: Errno,
                  unreadable: bool)
    requires Owns(s, own) && MapPost(s, own, t, own', i, l, true, Err(e)) && (e == EIO ==> unreadable)
    ensures SameMap(s, t, i) && Run.Cause(s, Run.WriteFile(i, l, data, size), e, unreadable, false)
  {
    Counting.MapSpace(s, own, t, own', i, l, Err(e));
    hide Owns, StraySame, Kept, DataKept, Spent, Residue, LMap, BlocksNeeded, Counting.FreeData, Used;
  }

  lemma PutDone(s: Fs, own: Owners, t: Fs, own': Owners, i: nat, l: nat, data: Block, size: nat, m: Mapping)
    requires Owns(s, own) && i in s.cache && MapPost(s, own, t, own', i, l, true, Ok(m)) && i in t.cache
    ensures l < MAXFILE && LMap(t, i, l) < |t.disk|
    ensures var w := Dirtied(Sized(Directory.WriteBlock(t, LMap(t, i, l), data), i, Larger(size, s.cache[i].size)), i);
      Stored(s, w, i, l, data, size)
  {
    hide MapPost, Owns, Others, StraySame, Ptr;
    MappedHere(s, own, t, own', i, l, m);
    StoreParts(s, own, t, own', i, l, data, Larger(size, s.cache[i].size), m);
    if l < NDIRECT {
      DirectAlone(s, own, t, own', i, l, m);
    }
    Directory.CreateMaps(s, own, t, own', i, l, m);
    var w := Dirtied(Sized(Directory.WriteBlock(t, LMap(t, i, l), data), i, Larger(size, s.cache[i].size)), i);
    assert forall k: nat :: k < MAXFILE ==> LMap(w, i, k) == LMap(t, i, k);
  }

  lemma MappedHere(s: Fs, own: Owners, t: Fs, own': Owners, i: nat, l: nat, m: Mapping)
    requires MapPost(s, own, t, own', i, l, true, Ok(m))
    ensures forall k: nat :: k < MAXFILE && k != l ==> LMap(t, i, k) == LMap(s, i, k)
  {
    hide Owns, StraySame, Kept, DataKept, LMap, Used, Spent;
  }

  lemma CutDone(s: Fs, own: Owners, t: Fs, own': Owners, i: nat, size: nat, quiet: bool)
    requires i in s.cache
    requires TruncPost(Sized(s, i, size), own, t, own', i, DivRoundUp(size, BSIZE), quiet)
    ensures i in t.cache && Shortened(s, Dirtied(t, i), i, size, quiet)
  {
    hide Owns, Kept, DataKept, StrayGrows, StraySame;
    TruncParts(Sized(s, i, size), own, t, own', i, DivRoundUp(size, BSIZE), quiet);
    var e, w := Sized(s, i, size), Dirtied(t, i);
    assert forall k: nat :: Ptr(w, i, k) == Ptr(t, i, k) && Ptr(e, i, k) == Ptr(s, i, k);
    hide Ptr;
    if quiet && Ptr(t, i, INDIRECT) != 0 {
      var l: nat :| NDIRECT <= l < DivRoundUp(size, BSIZE) && l < MAXFILE && LMap(e, i, l) != 0;
      assert LMap(w, i, l) != 0;
    }
    forall k: nat | k < MAXFILE
      ensures k * BSIZE < size ==> LMap(w, i, k) == LMap(s, i, k)
      ensures quiet && k * BSIZE >= size ==> LMap(w, i, k) == 0
    {
      CoveredBlocks(size, k);
      assert LMap(w, i, k) == LMap(t, i, k) && LMap(e, i, k) == LMap(s, i, k);
    }
  }
}
