/** Names, and listing a directory in chunks (`xv6fs_readdir`). */
module Listing {
  import opened Bytes
  import opened Results
  import opened State
  import opened Ownership
  import BlockMap
  import opened Cursor

  type Name = seq<byte>

  // ------------------------------------------------------------------ names

  /** The bytes of a name field before its first NUL, or all of it. */
  function CName(f: seq<byte>): Name {
    if f == [] || f[0] == 0 then [] else [f[0]] + CName(f[1..])
  }

  /** Names the VFS passes: 1 to 14 bytes, none of them NUL. */
  predicate ValidName(name: Name) {
    0 < |name| <= DIRSIZ && forall k :: 0 <= k < |name| ==> name[k] != 0
  }

  function Padded(name: Name): Field
    requires |name| <= DIRSIZ
  {
    name + seq(DIRSIZ - |name|, _ => 0)
  }

  lemma {:induction false} CNamePrefix(name: Name, rest: seq<byte>)
    requires (forall k :: 0 <= k < |name| ==> name[k] != 0) && (rest == [] || rest[0] == 0)
    ensures CName(name + rest) == name
  {
    if name == [] {
      assert name + rest == rest;
    } else {
      CNamePrefix(name[1..], rest);
      assert (name + rest)[1..] == name[1..] + rest;
    }
  }

  /** A valid name survives being stored in a name field. */
  lemma NameRoundTrip(name: Name)
    requires ValidName(name)
    ensures CName(Padded(name)) == name
  {
    CNamePrefix(name, seq(DIRSIZ - |name|, _ => 0));
  }

  lemma {:induction false} CNameShape(f: seq<byte>)
    ensures |CName(f)| <= |f| && f[..|CName(f)|] == CName(f)
    ensures forall k :: 0 <= k < |CName(f)| ==> f[k] != 0
    ensures |CName(f)| < |f| ==> f[|CName(f)|] == 0
  {
    if f != [] && f[0] != 0 {
      CNameShape(f[1..]);
      assert forall k :: 1 <= k < |f| ==> f[k] == f[1..][k - 1];
    }
  }

  /** `strnlen(field, 14)` */
  method StrNLen(f: Field) returns (n: nat)
    ensures n == |CName(f)|
  {
    CNameShape(f);
    n := 0;
    while n < DIRSIZ && f[n] != 0
      invariant n <= |CName(f)|
    {
      n := n + 1;
    }
  }

  /** The comparison in `xv6fs_find_entry`: equal lengths and equal bytes. */
  method NameMatches(f: Field, name: Name) returns (same: bool)
    ensures same <==> CName(f) == name
  {
    var n := StrNLen(f);
    CNameShape(f);
    if n != |name| {
      return false;
    }
    var k := 0;
    while k < n
      invariant k <= n && f[..k] == name[..k]
    {
      if f[k] != name[k] {
        return false;
      }
      k := k + 1;
    }
    return true;
  }

  // ------------------------------------------------------ the flat listing

  /** The live slots at or after `from`, in order. */
  function LiveFrom(ds: seq<Dirent>, from: nat): seq<nat>
    decreases |ds| - from
  {
    if from >= |ds| then []
    else if Live(ds[from]) then [from] + LiveFrom(ds, from + 1)
    else LiveFrom(ds, from + 1)
  }

  lemma {:induction false} LiveSkips(ds: seq<Dirent>, a: nat, b: nat)
    requires a <= b && AllFree(ds, a, b)
    ensures LiveFrom(ds, a) == LiveFrom(ds, b)
    decreases b - a
  {
    if a < b && a < |ds| {
      LiveSkips(ds, a + 1, b);
    }
  }

  lemma {:induction false} LiveMembers(ds: seq<Dirent>, from: nat, p: nat)
    ensures p in LiveFrom(ds, from) <==> from <= p < |ds| && Live(ds[p])
    decreases |ds| - from
  {
    hide Live;
    if from < |ds| {
      LiveMembers(ds, from + 1, p);
      var tail := LiveFrom(ds, from + 1);
      assert p in [from] + tail <==> p == from || p in tail;
    }
  }

  lemma {:induction false} LiveIncreasing(ds: seq<Dirent>, from: nat, i: nat, j: nat)
    requires i < j < |LiveFrom(ds, from)|
    ensures LiveFrom(ds, from)[i] < LiveFrom(ds, from)[j]
    decreases |ds| - from
  {
    hide Live;
    var tail := LiveFrom(ds, from + 1);
    if !Live(ds[from]) {
      LiveIncreasing(ds, from + 1, i, j);
    } else if i > 0 {
      LiveIncreasing(ds, from + 1, i - 1, j - 1);
    } else {
      LiveMembers(ds, from + 1, tail[j - 1]);
    }
  }

  /** Every live slot exactly once, in increasing position, and nothing else. */
  lemma LiveFromExact(ds: seq<Dirent>, from: nat)
    ensures forall p: nat :: p in LiveFrom(ds, from) <==> from <= p < |ds| && Live(ds[p])
    ensures forall i: nat, j: nat :: i < j < |LiveFrom(ds, from)| ==> LiveFrom(ds, from)[i] < LiveFrom(ds, from)[j]
  {
    hide Live, LiveFrom;
    forall p: nat ensures p in LiveFrom(ds, from) <==> from <= p < |ds| && Live(ds[p]) {
      LiveMembers(ds, from, p);
    }
    forall i: nat, j: nat | i < j < |LiveFrom(ds, from)| ensures LiveFrom(ds, from)[i] < LiveFrom(ds, from)[j] {
      LiveIncreasing(ds, from, i, j);
    }
  }

  /** What a scan resumed at byte offset `p` delivers. */
  function Deliver(ds: seq<Dirent>, p: nat): seq<nat> {
    LiveFrom(ds, if p % BSIZE == DIRENT_SIZE then p / DIRENT_SIZE - 1 else p / DIRENT_SIZE)
  }

  /** Offsets one entry past a block start whose preceding slot is live. */
  predicate Repeats(ds: seq<Dirent>, p: nat) {
    p % BSIZE == DIRENT_SIZE && p / DIRENT_SIZE - 1 < |ds| && Live(ds[p / DIRENT_SIZE - 1])
  }

  /**
   Resuming at `p` delivers exactly the live slots from `p` on, except that one
   entry past a block start the live slot before `p` comes first again.
   */
  lemma ResumeExactly(ds: seq<Dirent>, p: nat)
    requires p % DIRENT_SIZE == 0
    ensures Deliver(ds, p) == (if Repeats(ds, p) then [p / DIRENT_SIZE - 1] else []) + LiveFrom(ds, p / DIRENT_SIZE)
    ensures Deliver(ds, p) == LiveFrom(ds, p / DIRENT_SIZE) <==> !Repeats(ds, p)
  {
    if Repeats(ds, p) {
      assert |Deliver(ds, p)| == 1 + |LiveFrom(ds, p / DIRENT_SIZE)|;
    }
  }

  // ------------------------------------------------------- chunked listings

  /** One `getdents` call: the slots emitted and the offset for the next call. */
  datatype Chunk = Chunk(out: seq<nat>, pos: nat)

  function ReadChunk(ds: seq<Dirent>, p: nat, room: nat): Chunk {
    var all := Deliver(ds, p);
    if |all| <= room then Chunk(all, DIRENT_SIZE * |ds|)
    else if room == 0 then Chunk([], p)
    else Chunk(all[..room], DIRENT_SIZE * all[room - 1] + DIRENT_SIZE)
  }

  /** A whole schedule of calls, each resuming where the one before stopped. */
  function ReadAll(ds: seq<Dirent>, p: nat, rooms: seq<nat>): Chunk
    decreases |rooms|
  {
    if rooms == [] then Chunk([], p)
    else
      var one := ReadChunk(ds, p, rooms[0]);
      var rest := ReadAll(ds, one.pos, rooms[1..]);
      Chunk(one.out + rest.out, rest.pos)
  }

  /** Calls of a schedule that resume at a repeating offset and have room to repeat. */
  function RepeatedCalls(ds: seq<Dirent>, p: nat, rooms: seq<nat>): nat
    decreases |rooms|
  {
    if rooms == [] then 0
    else
      (if Repeats(ds, p) && rooms[0] > 0 then 1 else 0)
      + RepeatedCalls(ds, ReadChunk(ds, p, rooms[0]).pos, rooms[1..])
  }

  lemma {:induction false} LiveSuffix(ds: seq<Dirent>, from: nat, k: nat)
    requires k < |LiveFrom(ds, from)|
    ensures LiveFrom(ds, LiveFrom(ds, from)[k] + 1) == LiveFrom(ds, from)[k + 1..]
    decreases |ds| - from
  {
    if Live(ds[from]) {
      if k > 0 {
        LiveSuffix(ds, from + 1, k - 1);
      }
    } else {
      LiveSuffix(ds, from + 1, k);
    }
  }

  /** One call splits the remaining listing in two, with one repetition in front if the offset repeats. */
  lemma ChunkSplits(ds: seq<Dirent>, p: nat, room: nat)
    requires p % DIRENT_SIZE == 0
    ensures var c := ReadChunk(ds, p, room);
      && c.pos % DIRENT_SIZE == 0
      && c.out + LiveFrom(ds, c.pos / DIRENT_SIZE) ==
         (if Repeats(ds, p) && room > 0 then [p / DIRENT_SIZE - 1] else []) + LiveFrom(ds, p / DIRENT_SIZE)
  {
    ResumeExactly(ds, p);
    var all := Deliver(ds, p);
    if |all| > room > 0 {
      LiveSuffix(ds, if p % BSIZE == DIRENT_SIZE then p / DIRENT_SIZE - 1 else p / DIRENT_SIZE, room - 1);
      assert all == all[..room] + all[room..];
    }
  }

  lemma {:induction false} ChunkCount(ds: seq<Dirent>, p: nat, rooms: seq<nat>)
    requires p % DIRENT_SIZE == 0
    ensures var c := ReadAll(ds, p, rooms);
      && c.pos % DIRENT_SIZE == 0
      && |c.out| + |LiveFrom(ds, c.pos / DIRENT_SIZE)| == |LiveFrom(ds, p / DIRENT_SIZE)| + RepeatedCalls(ds, p, rooms)
      && (RepeatedCalls(ds, p, rooms) == 0 ==>
            c.out + LiveFrom(ds, c.pos / DIRENT_SIZE) == LiveFrom(ds, p / DIRENT_SIZE))
    decreases |rooms|
  {
    hide LiveFrom, Repeats, ReadChunk;
    if rooms != [] {
      ChunkSplits(ds, p, rooms[0]);
      var one := ReadChunk(ds, p, rooms[0]);
      ChunkCount(ds, one.pos, rooms[1..]);
      var rest := ReadAll(ds, one.pos, rooms[1..]);
      var left := LiveFrom(ds, rest.pos / DIRENT_SIZE);
      assert (one.out + rest.out) + left == one.out + (rest.out + left);
      assert |one.out + LiveFrom(ds, one.pos / DIRENT_SIZE)| == |one.out| + |LiveFrom(ds, one.pos / DIRENT_SIZE)|;
    }
  }

  /**
   A chunked listing, together with what is still to come, is the one-shot listing
   if and only if no call with room resumes at a repeating offset.
   */
  lemma ChunkedListing(ds: seq<Dirent>, p: nat, rooms: seq<nat>)
    requires p % DIRENT_SIZE == 0
    ensures var c := ReadAll(ds, p, rooms);
      c.out + LiveFrom(ds, c.pos / DIRENT_SIZE) == LiveFrom(ds, p / DIRENT_SIZE) <==> RepeatedCalls(ds, p, rooms) == 0
  {
    hide LiveFrom, RepeatedCalls, ReadAll;
    ChunkCount(ds, p, rooms);
    var c := ReadAll(ds, p, rooms);
    var left := LiveFrom(ds, c.pos / DIRENT_SIZE);
    assert |c.out + left| == |c.out| + |left|;
  }

  /**
   A call at the end of the directory delivers nothing, and so ends the listing, if
   and only if the last slot is not the live first slot of a block.
   */
  lemma EndOfDirectory(ds: seq<Dirent>, room: nat)
    requires room > 0
    ensures ReadChunk(ds, DIRENT_SIZE * |ds|, room).out == [] <==> !(|ds| % DPB == 1 && Live(ds[|ds| - 1]))
    ensures ReadChunk(ds, DIRENT_SIZE * |ds|, room).pos == DIRENT_SIZE * |ds|
  {
    Positions(|ds|);
    ResumeExactly(ds, DIRENT_SIZE * |ds|);
    EndMeans(ds);
    assert LiveFrom(ds, |ds|) == [];
  }

  lemma EndMeans(ds: seq<Dirent>)
    ensures Repeats(ds, DIRENT_SIZE * |ds|) <==> |ds| % DPB == 1 && Live(ds[|ds| - 1])
  {
    Positions(|ds|);
  }

  /** The other case, 33 live slots for instance: the last entry comes once more, and the offset does not move. */
  lemma EndOfDirectoryRepeats(ds: seq<Dirent>, room: nat)
    requires |ds| % DPB == 1 && Live(ds[|ds| - 1]) && room > 0
    ensures ReadChunk(ds, DIRENT_SIZE * |ds|, room) == Chunk([|ds| - 1], DIRENT_SIZE * |ds|)
  {
    Positions(|ds|);
    ResumeExactly(ds, DIRENT_SIZE * |ds|);
    EndMeans(ds);
    assert LiveFrom(ds, |ds|) == [];
  }

  /** So a reader that calls until nothing comes never stops: each of its calls gets the last entry again. */
  lemma {:induction false} ListingNeverEnds(ds: seq<Dirent>, rooms: seq<nat>)
    requires |ds| % DPB == 1 && Live(ds[|ds| - 1]) && forall k :: 0 <= k < |rooms| ==> rooms[k] > 0
    ensures ReadAll(ds, DIRENT_SIZE * |ds|, rooms) == Chunk(seq(|rooms|, _ => |ds| - 1), DIRENT_SIZE * |ds|)
  {
    hide ReadChunk;
    if rooms != [] {
      EndOfDirectoryRepeats(ds, rooms[0]);
      ListingNeverEnds(ds, rooms[1..]);
    }
  }

  // ---------------------------------------------------------------- readdir

  datatype Entry = Entry(name: Name, inum: nat)

  function EntryOf(e: Dirent): Entry { Entry(CName(e.field), e.inum) }

  function Entries(ds: seq<Dirent>, slots: seq<nat>): seq<Entry>
    requires forall k :: 0 <= k < |slots| ==> slots[k] < |ds|
  {
    seq(|slots|, k requires 0 <= k < |slots| => EntryOf(ds[slots[k]]))
  }

  lemma PastEnd(ds: seq<Dirent>, a: nat, b: nat)
    requires |ds| <= a && |ds| <= b
    ensures LiveFrom(ds, a) == LiveFrom(ds, b)
  {
  }

  /** A cursor placed at offset `p` starts where `Deliver` does. */
  lemma ResumeFrom(s: Fs, d: nat, p: nat)
    requires Walkable(s, d) && p % DIRENT_SIZE == 0
    ensures LiveFrom(Slots(s, d), From(s, d, None, p - DIRENT_SIZE)) == Deliver(Slots(s, d), p)
  {
    hide Slots, LMap, LiveFrom, AllFree;
    var pos := p - DIRENT_SIZE;
    if pos >= 0 {
      var q := AtSlot(s, d, pos);
      assert p / DIRENT_SIZE == q + 1 by { Positions(q + 1); }
      SizeSlots(s, d);
      if pos >= s.cache[d].size {
        PastEnd(Slots(s, d), q, q + 1);
      } else if LMap(s, d, pos / BSIZE) == 0 {
        HoleIsFree(s, d, q, q + 1);
        LiveSkips(Slots(s, d), q, q + 1);
      }
      assert p % BSIZE == DIRENT_SIZE <==> pos % BSIZE == 0;
    }
  }

  /** Loop state of `xv6fs_readdir`: slots emitted so far, slots to come, and the resume offset. */
  ghost predicate Listed(ds: seq<Dirent>, p: nat, got: seq<nat>, from: nat, ctx: nat, out: seq<Entry>) {
    && got + LiveFrom(ds, from) == Deliver(ds, p)
    && ctx == (if got == [] then p else DIRENT_SIZE * got[|got| - 1] + DIRENT_SIZE)
    && (forall k :: 0 <= k < |got| ==> got[k] < |ds|)
    && out == Entries(ds, got)
  }

  /** What a call returns is the chunk the flat listing prescribes. */
  ghost predicate Emits(ds: seq<Dirent>, p: nat, room: nat, pos: nat, out: seq<Entry>) {
    var c := ReadChunk(ds, p, room);
    pos == c.pos && (forall k :: 0 <= k < |c.out| ==> c.out[k] < |ds|) && out == Entries(ds, c.out)
  }

  /** What a call has emitted when a read fails: the first entries of the listing, and the offset behind them. */
  ghost predicate EmitsSome(ds: seq<Dirent>, p: nat, room: nat, pos: nat, out: seq<Entry>) {
    var all, n := Deliver(ds, p), |out|;
    && n <= |all| && n <= room && (forall k :: 0 <= k < n ==> all[k] < |ds|)
    && out == Entries(ds, all[..n])
    && pos == if n == 0 then p else DIRENT_SIZE * all[n - 1] + DIRENT_SIZE
  }

  lemma ListedSome(ds: seq<Dirent>, p: nat, got: seq<nat>, from: nat, ctx: nat, out: seq<Entry>, room: nat)
    requires Listed(ds, p, got, from, ctx, out) && |out| <= room
    ensures EmitsSome(ds, p, room, ctx, out)
  {
    hide LiveFrom, CName;
    var all := Deliver(ds, p);
    assert |out| == |got| <= |all| && got == all[..|got|];
    forall k | 0 <= k < |got| ensures all[k] < |ds| {
      assert all[k] == got[k];
    }
    assert got != [] ==> got[|got| - 1] == all[|got| - 1];
  }

  lemma ListedMore(ds: seq<Dirent>, p: nat, got: seq<nat>, from: nat, ctx: nat, out: seq<Entry>, q: nat)
    requires Listed(ds, p, got, from, ctx, out) && from <= q < |ds| && AllFree(ds, from, q) && Live(ds[q])
    ensures Listed(ds, p, got + [q], q + 1, DIRENT_SIZE * q + DIRENT_SIZE, out + [EntryOf(ds[q])])
    ensures |got| == |out|
  {
    hide CName;
    LiveSkips(ds, from, q);
    assert got + LiveFrom(ds, from) == (got + [q]) + LiveFrom(ds, q + 1);
    assert out + [EntryOf(ds[q])] == Entries(ds, got + [q]);
  }

  lemma ListedStop(ds: seq<Dirent>, p: nat, got: seq<nat>, from: nat, ctx: nat, out: seq<Entry>, q: nat)
    requires Listed(ds, p, got, from, ctx, out) && from <= q < |ds| && AllFree(ds, from, q) && Live(ds[q])
    ensures Emits(ds, p, |out|, ctx, out)
  {
    LiveSkips(ds, from, q);
    assert |Deliver(ds, p)| > |got| && got == Deliver(ds, p)[..|got|];
  }

  lemma ListedAll(ds: seq<Dirent>, p: nat, got: seq<nat>, from: nat, ctx: nat, out: seq<Entry>, room: nat)
    requires Listed(ds, p, got, from, ctx, out) && AllFree(ds, from, |ds|) && |out| <= room
    ensures Emits(ds, p, room, DIRENT_SIZE * |ds|, out)
  {
    if from <= |ds| {
      LiveSkips(ds, from, |ds|);
    }
    assert got == Deliver(ds, p);
  }

  /**
   `xv6fs_readdir` with a caller whose buffer takes `room` entries: emits the
   entries of `ReadChunk` and leaves its resume offset.  When a read fails, what has
   been emitted by then is the beginning of the listing, and the offset is behind it.
   */
  method Readdir(v: Volume, d: nat, p: nat, room: nat) returns (r: Result<()>, pos: nat, out: seq<Entry>)
    requires BlockMap.Mapable(v, d) && Walkable(v.View(), d) && p % DIRENT_SIZE == 0
    modifies v`disk, v`cache, v`faults, v`nobuf, v`owner
    ensures v.View() == old(v.View()) && v.owner == old(v.owner)
    ensures r.Err? ==> r.error == EIO && v.faults > old(v.faults)
    ensures r.Err? ==> EmitsSome(Slots(v.View(), d), p, room, pos, out)
    ensures r.Ok? ==> v.faults == old(v.faults) && Emits(Slots(v.View(), d), p, room, pos, out)
  {
    hide Owns, MetaMarked, Slot, LMap, LiveFrom, Slots, NSlots, CName, Listed, Emits, EmitsSome, Deliver, Placed, From;
    hide AllFree, Noted, Min, Ino;
    ghost var s := v.View();
    ghost var ds := Slots(s, d);
    SizeSlots(s, d);
    var c := new DirCursor(d, p);
    StartPlaced(s, d, p);
    ResumeFrom(s, d, p);
    ghost var from := From(s, d, c.bh, c.pos);
    pos, out := p, [];
    ghost var got: seq<nat> := [];
    ListedNone(ds, p, from);
    while true
      invariant v.View() == s && v.owner == old(v.owner) && v.faults == old(v.faults)
      invariant c.dir == d && Placed(s, d, c.bh, c.pos) && -DIRENT_SIZE <= c.pos && from == From(s, d, c.bh, c.pos)
      invariant Listed(ds, p, got, from, pos, out) && |out| <= room
      decreases |ds| + 1 - from
    {
      var a := Advance(v, c);
      if a.Err? {
        ListedSome(ds, p, got, from, pos, out, room);
        return Err(a.error), pos, out;
      }
      if a.value.None? {
        break;
      }
      ghost var q := c.pos / DIRENT_SIZE;
      YieldedFrom(s, d, c.bh, c.pos);
      var e := a.value.value;
      var namelen := StrNLen(e.field);
      CNameShape(e.field);
      if |out| == room {
        ListedStop(ds, p, got, from, pos, out, q);
        return Ok(()), pos, out;
      }
      ListedMore(ds, p, got, from, pos, out, q);
      out := out + [Entry(e.field[..namelen], e.inum)];
      got := got + [q];
      pos := c.pos + DIRENT_SIZE;
      from := q + 1;
    }
    ListedAll(ds, p, got, from, pos, out, room);
    return Ok(()), v.cache[d].size, out;
  }

  lemma StartPlaced(s: Fs, d: nat, p: nat)
    requires p % DIRENT_SIZE == 0
    ensures Placed(s, d, None, p - DIRENT_SIZE)
  {
  }

  lemma ListedNone(ds: seq<Dirent>, p: nat, from: nat)
    requires LiveFrom(ds, from) == Deliver(ds, p)
    ensures Listed(ds, p, [], from, p, [])
  {
  }

  lemma YieldedFrom(s: Fs, d: nat, bh: Option<nat>, pos: int)
    requires Placed(s, d, bh, pos) && bh.Some?
    ensures 0 <= pos && From(s, d, bh, pos) == pos / DIRENT_SIZE + 1 && pos == DIRENT_SIZE * (pos / DIRENT_SIZE)
  {
  }
}
