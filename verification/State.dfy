/** The mutable state of one mounted volume and the abstract value it stands for. */
module State {
  import opened Bytes
  import opened Layout
  import opened Codec
  import opened Results

  /**
   The volume as a value: the flat disk, the in-memory dinode table, the free
   inode list with its counter, and the in-core inodes.
   */
  datatype Fs = Fs(
    sb: Super,
    disk: seq<Block>,
    table: seq<Raw>,
    free: seq<nat>,
    freeCount: nat,
    cache: map<nat, Inode>)

  ghost predicate Shape(s: Fs) {
    && WellFormed(s.sb)
    && |s.disk| == s.sb.size
    && |s.table| == s.sb.ninodes
    && forall i :: i in s.cache ==> i < s.sb.ninodes
  }

  /** Owner of an allocated block: an inode and one of its 141 pointer slots. */
  type Owners = map<nat, (nat, nat)>

  class Volume {
    const sb: Super
    /** Whether `sb_getblk` always finds a buffer on this device. */
    const steady: bool
    var disk: seq<Block>
    var table: seq<Raw>
    var free: seq<nat>
    var freeCount: nat
    var cache: map<nat, Inode>

    /** Number of buffer reads that have failed since the mount. */
    ghost var faults: nat
    /** Number of times `sb_getblk` has found no buffer since the mount. */
    ghost var nobuf: nat
    /** Number of in-core inodes the VFS has failed to allocate since the mount. */
    ghost var oom: nat
    ghost var owner: Owners

    ghost function View(): Fs
      reads this
    {
      Fs(sb, disk, table, free, freeCount, cache)
    }

    constructor (image: Fs, own: Owners, steady: bool)
      ensures View() == image && owner == own && this.steady == steady && faults == nobuf == oom == 0
    {
      sb, disk, table := image.sb, image.disk, image.table;
      free, freeCount, cache := image.free, image.freeCount, image.cache;
      this.steady := steady;
      faults, nobuf, oom, owner := 0, 0, 0, own;
    }

    /** `sb_bread`: any call may fail; reading outside the device always does. */
    method BRead(b: nat) returns (bh: Option<Block>)
      modifies this`faults
      ensures bh.Some? ==> b < |disk| && bh.value == disk[b] && faults == old(faults)
      ensures bh.None? ==> faults == old(faults) + 1
    {
      var fails: bool := *;
      if fails || b >= |disk| {
        faults := faults + 1;
        bh := None;
      } else {
        bh := Some(disk[b]);
      }
    }

    /** `sb_getblk`: a buffer for a block that is about to be overwritten, without reading it. */
    method GetBlk(b: nat) returns (ok: bool)
      modifies this`nobuf
      ensures nobuf == old(nobuf) + if ok then 0 else 1
      ensures steady ==> ok
    {
      var fails: bool := *;
      ok := steady || !fails;
      if !ok {
        nobuf := nobuf + 1;
      }
    }
  }
}
