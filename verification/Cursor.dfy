/** The directory cursor (`dir.c`): a scan over the 16-byte slots of a directory with holes. */
module Cursor {
  import opened Bytes
  import opened Codec
  import opened Results
  import opened State
  import opened Ownership
  import opened OnDisk
  import BlockMap

  /** Slot `p` of directory `d`; a slot in an unmapped block reads as free. */
  ghost function Slot(s: Fs, d: nat, p: nat): Dirent {
    var b := LMap(s, d, p / DPB);
    if b == 0 || b >= |s.disk| || p / DPB >= MAXFILE then FreeDirent() else DirentAt(s.disk[b], p % DPB)
  }

  ghost function NSlots(s: Fs, d: nat): nat { Ino(s, d).size / DIRENT_SIZE }

  /** The directory as a flat array of entries. */
  ghost function Slots(s: Fs, d: nat): seq<Dirent> {
    seq(NSlots(s, d), p requires 0 <= p => Slot(s, d, p))
  }

  predicate Live(e: Dirent) { e.inum != 0 }

  /** A directory the cursor can walk: size a multiple of the entry size, within the block map. */
  ghost predicate Walkable(s: Fs, d: nat) {
    d in s.cache && s.cache[d].size % DIRENT_SIZE == 0 && s.cache[d].size <= MAXFILE * BSIZE
  }

  class DirCursor {
    const dir: nat
    /** Block whose buffer is held. */
    var bh: Option<nat>
    /** Entry within that buffer. */
    var de: nat
    var pos: int
    var lastEmpty: int
    var firstEmpty: int

    /** `INIT_DIR_CURSOR_OFFSET` */
    constructor (dir: nat, offset: int)
      ensures this.dir == dir && bh == None && pos == offset - DIRENT_SIZE && firstEmpty == lastEmpty == -1
    {
      this.dir := dir;
      bh, de := None, 0;
      pos := offset - DIRENT_SIZE;
      lastEmpty, firstEmpty := -1, -1;
    }
  }

  /** The held buffer, if any, is the one of the block the position lies in. */
  ghost predicate Placed(s: Fs, d: nat, bh: Option<nat>, pos: int) {
    && pos % DIRENT_SIZE == 0 && -DIRENT_SIZE <= pos
    && (bh.Some? ==> 0 <= pos < Ino(s, d).size && bh.value != 0 && LMap(s, d, pos / BSIZE) == bh.value)
  }

  /** First slot the next step looks at. */
  ghost function From(s: Fs, d: nat, bh: Option<nat>, pos: int): nat
    requires -DIRENT_SIZE <= pos
  {
    if pos < 0 then 0
    else if bh.None? && pos < Ino(s, d).size && (pos % BSIZE == 0 || LMap(s, d, pos / BSIZE) == 0) then
      pos / DIRENT_SIZE
    else pos / DIRENT_SIZE + 1
  }

  /** Free slots `a..b` have been noted in the two marks. */
  ghost predicate Noted(first0: int, last0: int, first: int, last: int, a: nat, b: nat) {
    && first == (if first0 == -1 && a < b then DIRENT_SIZE * a else first0)
    && last == (if a < b then DIRENT_SIZE * (b - 1) else last0)
  }

  ghost predicate AllFree(ds: seq<Dirent>, a: nat, b: nat) {
    forall k: nat :: a <= k < b && k < |ds| ==> !Live(ds[k])
  }

  // ---------------------------------------------------- arithmetic of a step

  lemma Positions(p: nat)
    ensures (16 * p) / BSIZE == p / DPB && (16 * p) % BSIZE == 16 * (p % DPB) && (16 * p) / DIRENT_SIZE == p
  {
  }

  /** A position of the scan in slots: `pos == 16 * p`. */
  lemma AtSlot(s: Fs, d: nat, pos: int) returns (p: int)
    requires pos % DIRENT_SIZE == 0 && -DIRENT_SIZE <= pos
    ensures pos == 16 * p && -1 <= p
    ensures 0 <= p ==> pos / BSIZE == p / DPB && pos % BSIZE == 16 * (p % DPB) && pos / DIRENT_SIZE == p
  {
    p := pos / 16;
    if 0 <= p {
      Positions(p);
    }
  }

  lemma SizeSlots(s: Fs, d: nat)
    requires Walkable(s, d)
    ensures s.cache[d].size == 16 * |Slots(s, d)| && |Slots(s, d)| <= MAXFILE * DPB && |Slots(s, d)| == NSlots(s, d)
    ensures forall k: nat :: k < |Slots(s, d)| ==> Slots(s, d)[k] == Slot(s, d, k)
  {
    hide Slot;
  }

  /** The slots of an unmapped block are all free. */
  lemma HoleIsFree(s: Fs, d: nat, p: nat, q: nat)
    requires LMap(s, d, p / DPB) == 0 && p <= q && q <= p / DPB * DPB + DPB
    ensures AllFree(Slots(s, d), p, q)
  {
    hide LMap;
    forall k: nat | p <= k < q && k < |Slots(s, d)| ensures !Live(Slots(s, d)[k]) {
      assert k / DPB == p / DPB;
    }
  }

  lemma MappedSlot(s: Fs, own: Owners, d: nat, p: nat)
    requires Owns(s, own) && Walkable(s, d) && p < |Slots(s, d)| && LMap(s, d, p / DPB) != 0
    ensures p / DPB < MAXFILE && LMap(s, d, p / DPB) < |s.disk|
    ensures Slots(s, d)[p] == DirentAt(s.disk[LMap(s, d, p / DPB)], p % DPB)
  {
    hide DirentAt, Ptr, Used;
    SizeSlots(s, d);
    assert p / DPB < MAXFILE;
    assert InUse(s, d) && Ptr(s, d, SlotOf(p / DPB)) in own;
  }

  /** Where the 16 bytes of slot `p` are on the device, if its block is mapped. */
  ghost function EntryAt(s: Fs, d: nat, p: nat): nat { 512 * LMap(s, d, p / 32) + 16 * (p % 32) }

  /** Slot `p` is bytes 16p..16p+15 of the directory: a number in two bytes, then 14 bytes of name. */
  lemma EntryPlace(s: Fs, own: Owners, d: nat, p: nat)
    requires Owns(s, own) && Walkable(s, d) && p < |Slots(s, d)|
    ensures 16 * |Slots(s, d)| == s.cache[d].size
    ensures LMap(s, d, p / 32) == 0 ==> Slots(s, d)[p] == FreeDirent()
    ensures LMap(s, d, p / 32) != 0 ==>
      && Slots(s, d)[p].inum == Le16(s.disk, EntryAt(s, d, p))
      && forall k: nat :: k < 14 ==> Slots(s, d)[p].field[k] == At(s.disk, EntryAt(s, d, p) + 2 + k)
    ensures Live(Slots(s, d)[p]) <==> LMap(s, d, p / 32) != 0 && Le16(s.disk, EntryAt(s, d, p)) != 0
  {
    hide Ptr, Used, HalfAt, Le16, LMap;
    SizeSlots(s, d);
    var b := LMap(s, d, p / 32);
    if b != 0 {
      MappedSlot(s, own, d, p);
      DirentPlace(s.disk, b, p % 32);
    }
  }

  lemma DirentPlace(disk: seq<Block>, b: nat, i: nat)
    requires b < |disk| && i < 32
    ensures DirentAt(disk[b], i).inum == Le16(disk, 512 * b + 16 * i)
    ensures forall k: nat :: k < 14 ==> DirentAt(disk[b], i).field[k] == At(disk, 512 * b + 16 * i + 2 + k)
  {
    HalfPlace(disk, b, 8 * i);
    forall k: nat | k < 14 ensures DirentAt(disk[b], i).field[k] == At(disk, 512 * b + 16 * i + 2 + k) {
      AtBlock(disk, b, 16 * i + 2 + k);
    }
  }

  // ------------------------------------------------------- one cursor step

  datatype Marks = Marks(first: int, last: int)

  function Note(m: Marks, lo: int, hi: int): Marks {
    Marks(if m.first == -1 then lo else m.first, hi)
  }

  /** Everything from slot `from0` up to where the cursor stands is free and noted. */
  ghost predicate Scan(s: Fs, d: nat, bh: Option<nat>, pos: int, m0: Marks, m: Marks, from0: nat) {
    var n := NSlots(s, d);
    && Placed(s, d, bh, pos)
    && from0 <= From(s, d, bh, pos)
    && AllFree(Slots(s, d), from0, From(s, d, bh, pos))
    && Noted(m0.first, m0.last, m.first, m.last, Min(from0, n), Min(From(s, d, bh, pos), n))
  }

  /** The cursor stands on the first live slot at or after `from0`, holding its block. */
  ghost predicate Yielded(s: Fs, d: nat, bh: Option<nat>, pos: int, m0: Marks, m: Marks, from0: nat, e: Dirent) {
    var ds := Slots(s, d);
    && Placed(s, d, bh, pos) && bh.Some?
    && from0 <= pos / DIRENT_SIZE < |ds|
    && AllFree(ds, from0, pos / DIRENT_SIZE)
    && Noted(m0.first, m0.last, m.first, m.last, from0, pos / DIRENT_SIZE)
    && e == ds[pos / DIRENT_SIZE] && Live(e)
  }

  /** No live slot is left; the buffer has been released. */
  ghost predicate Ended(s: Fs, d: nat, bh: Option<nat>, pos: int, m0: Marks, m: Marks, from0: nat) {
    var n := NSlots(s, d);
    && Placed(s, d, bh, pos) && bh.None? && pos >= Ino(s, d).size
    && AllFree(Slots(s, d), from0, n)
    && Noted(m0.first, m0.last, m.first, m.last, Min(from0, n), n)
  }

  /** Mid-block resume: the buffer is loaded, the position stays. */
  lemma ScanLoad(s: Fs, d: nat, pos: int, m0: Marks, m: Marks, from0: nat)
    requires Walkable(s, d) && Scan(s, d, None, pos, m0, m, from0) && 0 <= pos < s.cache[d].size
    requires LMap(s, d, pos / BSIZE) != 0 && pos % BSIZE != 0
    ensures Scan(s, d, Some(LMap(s, d, pos / BSIZE)), pos, m0, m, from0)
  {
    hide LMap, Slot;
  }

  /** The first entry of a freshly loaded block. */
  lemma ScanFirst(s: Fs, own: Owners, d: nat, pos: int, m0: Marks, m: Marks, from0: nat)
    requires Owns(s, own) && Walkable(s, d) && Scan(s, d, None, pos, m0, m, from0) && 0 <= pos < s.cache[d].size
    requires LMap(s, d, pos / BSIZE) != 0 && pos % BSIZE == 0
    ensures var b := LMap(s, d, pos / BSIZE);
      && b < |s.disk|
      && var e := DirentAt(s.disk[b], 0);
         if Live(e) then Yielded(s, d, Some(b), pos, m0, m, from0, e)
         else Scan(s, d, Some(b), pos, m0, Note(m, pos, pos), from0)
  {
    hide Ptr, Slot, DirentAt, Owns, LMap;
    var p := AtSlot(s, d, pos);
    SizeSlots(s, d);
    MappedSlot(s, own, d, p);
  }

  lemma HoleEdge(p: nat, size: nat, left: int)
    requires size % 16 == 0 && 16 * p < size
    requires left == if BSIZE - 16 * p % BSIZE < size - 16 * p then BSIZE - 16 * p % BSIZE else size - 16 * p
    ensures left % 16 == 0 && 1 <= left / 16 && left == 16 * (left / 16)
    ensures p + left / 16 <= p / DPB * DPB + DPB && 16 * (p + left / 16) <= size
    ensures 16 * (p + left / 16) < size ==> p + left / 16 == p / DPB * DPB + DPB
  {
    Positions(p);
    var n, off := size / 16, p % DPB;
    assert size == 16 * n && p == p / DPB * DPB + off;
    assert left == 16 * (if DPB - off < n - p then DPB - off else n - p);
  }

  /** An unmapped block is skipped in one go. */
  lemma ScanHole(s: Fs, d: nat, pos: int, m0: Marks, m: Marks, from0: nat)
    requires Walkable(s, d) && Scan(s, d, None, pos, m0, m, from0) && 0 <= pos < s.cache[d].size
    requires LMap(s, d, pos / BSIZE) == 0
    ensures var left :=
        if BSIZE - pos % BSIZE < s.cache[d].size - pos then BSIZE - pos % BSIZE else s.cache[d].size - pos;
      var last := pos + left / DIRENT_SIZE * DIRENT_SIZE - DIRENT_SIZE;
      pos <= last && Scan(s, d, None, last + DIRENT_SIZE, m0, Note(m, pos, last), from0)
  {
    hide LMap, Slot, Slots;
    var p := AtSlot(s, d, pos);
    SizeSlots(s, d);
    var left := if BSIZE - pos % BSIZE < s.cache[d].size - pos then BSIZE - pos % BSIZE else s.cache[d].size - pos;
    var q := p + left / 16;
    HoleEdge(p, s.cache[d].size, left);
    HoleIsFree(s, d, p, q);
    Positions(q);
    assert 16 * q == pos + left;
  }

  /** Past the end of the directory. */
  lemma StepEnds(s: Fs, d: nat, bh: Option<nat>, pos: int, m0: Marks, m: Marks, from0: nat)
    requires Walkable(s, d) && Scan(s, d, bh, pos, m0, m, from0)
    requires pos < 0 || pos >= s.cache[d].size || bh.Some?
    requires pos + DIRENT_SIZE >= s.cache[d].size
    ensures Ended(s, d, None, pos + DIRENT_SIZE, m0, m, from0)
  {
    hide LMap, Slot;
    var p := AtSlot(s, d, pos);
    SizeSlots(s, d);
  }

  /** Into the next block: the buffer is released. */
  lemma StepCrosses(s: Fs, d: nat, bh: Option<nat>, pos: int, m0: Marks, m: Marks, from0: nat)
    requires Walkable(s, d) && Scan(s, d, bh, pos, m0, m, from0)
    requires pos < 0 || pos >= s.cache[d].size || bh.Some?
    requires pos + DIRENT_SIZE < s.cache[d].size && (pos + DIRENT_SIZE) % BSIZE == 0
    ensures Scan(s, d, None, pos + DIRENT_SIZE, m0, m, from0)
  {
    hide LMap, Slot;
  }

  /** To the next entry of the same block, whose buffer is held. */
  lemma StepInside(s: Fs, own: Owners, d: nat, bh: Option<nat>, pos: int, m0: Marks, m: Marks, from0: nat)
    requires Owns(s, own) && Walkable(s, d) && Scan(s, d, bh, pos, m0, m, from0)
    requires pos < 0 || pos >= s.cache[d].size || bh.Some?
    requires pos + DIRENT_SIZE < s.cache[d].size && (pos + DIRENT_SIZE) % BSIZE != 0
    ensures bh.Some? && bh.value < |s.disk| && (pos + DIRENT_SIZE) % BSIZE / DIRENT_SIZE < DPB
    ensures var pos' := pos + DIRENT_SIZE;
      var e := DirentAt(s.disk[bh.value], pos' % BSIZE / DIRENT_SIZE);
      if Live(e) then Yielded(s, d, bh, pos', m0, m, from0, e)
      else Scan(s, d, bh, pos', m0, Note(m, pos', pos'), from0)
  {
    hide LMap, Slot, Owns, DirentAt, Ptr;
    var p := AtSlot(s, d, pos);
    SizeSlots(s, d);
    assert bh.Some?;
    var q := p + 1;
    Positions(q);
    assert 16 * q == pos + DIRENT_SIZE && q % DPB != 0 && q / DPB == p / DPB;
    MappedSlot(s, own, d, q);
  }

  lemma ReadOnly(s: Fs, own: Owners, s': Fs, own': Owners, i: nat, l: nat, r: Result<BlockMap.Mapping>)
    requires l < MAXFILE && BlockMap.MapPost(s, own, s', own', i, l, false, r)
    ensures s' == s && own' == own
    ensures match r
      case Err(e) => e == EIO
      case Ok(Hole) => LMap(s, i, l) == 0
      case Ok(Mapped(b, isNew)) => b != 0 && LMap(s, i, l) == b
  {
    hide Owns, StraySame, Kept, BlockMap.DataKept, LMap, BlockMap.Residue;
  }

  /** What a cursor needs of the volume it walks. */
  ghost predicate CanWalk(v: Volume, c: DirCursor)
    reads v, c
  {
    && BlockMap.Mapable(v, c.dir) && Walkable(v.View(), c.dir)
    && Placed(v.View(), c.dir, c.bh, c.pos)
  }

  /**
   The block resolver at the top of the loop of `advance_dir_cursor`: skips
   unmapped blocks, loads the block of the position and looks at its first entry.
   Returns an entry or an error to hand on, or `None` to let the cursor step.
   */
  method Resolve(v: Volume, c: DirCursor, ghost m0: Marks, ghost from0: nat) returns (r: Option<Result<Dirent>>)
    requires CanWalk(v, c)
    requires Scan(v.View(), c.dir, c.bh, c.pos, m0, Marks(c.firstEmpty, c.lastEmpty), from0)
    modifies c, v`disk, v`cache, v`faults, v`nobuf, v`owner
    ensures v.View() == old(v.View()) && v.owner == old(v.owner) && v.nobuf == old(v.nobuf)
    ensures c.pos >= old(c.pos)
    ensures if r.Some? && r.value.Err? then r.value.error == EIO && v.faults > old(v.faults)
            else v.faults == old(v.faults)
    ensures r.Some? && r.value.Ok? ==>
      && Yielded(v.View(), c.dir, c.bh, c.pos, m0, Marks(c.firstEmpty, c.lastEmpty), from0, r.value.value)
      && c.de == c.pos % BSIZE / DIRENT_SIZE
    ensures r.None? ==>
      && Scan(v.View(), c.dir, c.bh, c.pos, m0, Marks(c.firstEmpty, c.lastEmpty), from0)
      && (c.pos < 0 || c.pos >= v.cache[c.dir].size || c.bh.Some?)
  {
    hide Scan, Yielded, From, BlockMap.MapPost, MetaMarked, Owns, LMap, Slot, DirentAt, Placed, Slots, NSlots, AllFree;
    hide Noted, Min, Ino;
    ghost var s, own, d := v.View(), v.owner, c.dir;
    var size := v.cache[c.dir].size;
    while 0 <= c.pos < size && c.bh.None?
      invariant v.View() == s && v.owner == own && v.faults == old(v.faults) && v.nobuf == old(v.nobuf)
      invariant old(c.pos) <= c.pos && Scan(s, d, c.bh, c.pos, m0, Marks(c.firstEmpty, c.lastEmpty), from0)
      decreases size - c.pos
    {
      ghost var m := Marks(c.firstEmpty, c.lastEmpty);
      var blkIdx := c.pos / BSIZE;
      var blkOff := c.pos % BSIZE;
      var blkRemaining := BSIZE - blkOff;
      var remaining := size - c.pos;
      var g := BlockMap.GetBlock(v, c.dir, blkIdx, false);
      ReadOnly(s, own, v.View(), v.owner, d, blkIdx, g);
      if g.Err? {
        return Some(Err(g.error));
      }
      if g.value.Mapped? {
        var buf := v.BRead(g.value.block);
        if buf.None? {
          return Some(Err(EIO));
        }
        c.bh := Some(g.value.block);
        if blkOff != 0 {
          ScanLoad(s, d, c.pos, m0, m, from0);
          return None;
        }
        ScanFirst(s, own, d, c.pos, m0, m, from0);
        c.de := 0;
        var e := DirentAt(buf.value, 0);
        if e.inum == 0 {
          if c.firstEmpty == -1 {
            c.firstEmpty := c.pos;
          }
          c.lastEmpty := c.pos;
          return None;
        }
        return Some(Ok(e));
      }
      ScanHole(s, d, c.pos, m0, m, from0);
      if c.firstEmpty == -1 {
        c.firstEmpty := c.pos;
      }
      c.lastEmpty := c.pos
        + (if blkRemaining < remaining then blkRemaining else remaining) / DIRENT_SIZE * DIRENT_SIZE
        - DIRENT_SIZE;
      c.pos := c.lastEmpty + DIRENT_SIZE;
    }
    return None;
  }

  /**
   `advance_dir_cursor`: the next live slot, with every free slot on the way noted
   in the marks; `None` at the end.  A failed read is the only error.
   */
  method Advance(v: Volume, c: DirCursor) returns (r: Result<Option<Dirent>>)
    requires CanWalk(v, c)
    modifies c, v`disk, v`cache, v`faults, v`nobuf, v`owner
    ensures v.View() == old(v.View()) && v.owner == old(v.owner) && v.nobuf == old(v.nobuf)
    ensures r.Err? ==> r.error == EIO && v.faults > old(v.faults)
    ensures r.Ok? ==> v.faults == old(v.faults)
    ensures r.Ok? && r.value.Some? ==>
      && Yielded(v.View(), c.dir, c.bh, c.pos, old(Marks(c.firstEmpty, c.lastEmpty)), Marks(c.firstEmpty, c.lastEmpty),
                 old(From(v.View(), c.dir, c.bh, c.pos)), r.value.value)
      && c.de == c.pos % BSIZE / DIRENT_SIZE
    ensures r.Ok? && r.value.None? ==>
      Ended(v.View(), c.dir, c.bh, c.pos, old(Marks(c.firstEmpty, c.lastEmpty)), Marks(c.firstEmpty, c.lastEmpty),
            old(From(v.View(), c.dir, c.bh, c.pos)))
  {
    hide Scan, Yielded, Ended, From, MetaMarked, Owns, LMap, Slot, DirentAt, Placed, Slots, NSlots, AllFree;
    hide Noted, Min, Ino;
    ghost var s, own, d := v.View(), v.owner, c.dir;
    ghost var m0 := Marks(c.firstEmpty, c.lastEmpty);
    PlacedPos(s, d, c.bh, c.pos);
    ghost var from0 := From(s, d, c.bh, c.pos);
    ScanStart(s, d, c.bh, c.pos, m0);
    var size := v.cache[c.dir].size;
    while true
      invariant v.View() == s && v.owner == own && v.faults == old(v.faults) && v.nobuf == old(v.nobuf)
      invariant Scan(s, d, c.bh, c.pos, m0, Marks(c.firstEmpty, c.lastEmpty), from0)
      decreases size - c.pos
    {
      ScanPlaced(s, d, c.bh, c.pos, m0, Marks(c.firstEmpty, c.lastEmpty), from0);
      var found := Resolve(v, c, m0, from0);
      if found.Some? {
        return if found.value.Ok? then Ok(Some(found.value.value)) else Err(found.value.error);
      }
      ghost var m := Marks(c.firstEmpty, c.lastEmpty);
      ghost var at := c.pos;
      c.pos := c.pos + DIRENT_SIZE;
      if c.pos >= size {
        StepEnds(s, d, c.bh, at, m0, m, from0);
        break;
      }
      var blkOff := c.pos % BSIZE;
      if blkOff == 0 {
        StepCrosses(s, d, c.bh, at, m0, m, from0);
        c.bh := None;
        continue;
      }
      StepInside(s, own, d, c.bh, at, m0, m, from0);
      c.de := blkOff / DIRENT_SIZE;
      var e := DirentAt(v.disk[c.bh.value], c.de);
      if e.inum == 0 {
        if c.firstEmpty == -1 {
          c.firstEmpty := c.pos;
        }
        c.lastEmpty := c.pos;
      } else {
        return Ok(Some(e));
      }
    }
    c.bh := None;
    return Ok(None);
  }

  lemma ScanPlaced(s: Fs, d: nat, bh: Option<nat>, pos: int, m0: Marks, m: Marks, from0: nat)
    requires Scan(s, d, bh, pos, m0, m, from0)
    ensures Placed(s, d, bh, pos)
  {
  }

  lemma PlacedPos(s: Fs, d: nat, bh: Option<nat>, pos: int)
    requires Placed(s, d, bh, pos)
    ensures -DIRENT_SIZE <= pos
  {
  }

  lemma ScanStart(s: Fs, d: nat, bh: Option<nat>, pos: int, m: Marks)
    requires Placed(s, d, bh, pos)
    ensures Scan(s, d, bh, pos, m, m, From(s, d, bh, pos))
  {
    hide LMap, Slot;
  }
}
