/** Errors and results shared by every operation of the driver. */
module Results {
  datatype Errno =
    | ENOSPC | EIO | EFBIG | ENAMETOOLONG | ENOENT | ENOTEMPTY | EPERM | EMLINK | EINVAL | ENOMEM

  datatype Result<T> = Ok(value: T) | Err(error: Errno)

  datatype Option<T> = None | Some(value: T)
}

/** The div/mod addressing of `xv6fs.h` over the superblock fields it reads. */
module Layout {
  import opened Bytes

  datatype Super = Super(size: nat, ninodes: nat, inodestart: nat, bmapstart: nat)

  const IPB := 8

  function IBlock(sb: Super, ino: nat): nat { ino / IPB + sb.inodestart }

  function IOffset(ino: nat): nat { ino % IPB }

  function BBlock(sb: Super, b: nat): nat { b / BPB + sb.bmapstart }

  function BOffset(b: nat): nat { b % BPB }

  function DStart(sb: Super): nat { sb.bmapstart + sb.size / BPB + 1 }

  /** The regions are in order and the volume is small enough for 32-bit block numbers. */
  predicate WellFormed(sb: Super) {
    && 2 <= sb.inodestart
    && 2 <= sb.ninodes <= U16
    && sb.inodestart + (sb.ninodes + IPB - 1) / IPB <= sb.bmapstart
    && DStart(sb) <= sb.size < U32
  }

  /**
   Dinodes of 64 bytes and bitmap bits follow one another without a gap from the start
   of their regions, and the data region starts behind the block that holds bit `size`.
   */
  lemma Places(sb: Super, ino: nat, b: nat, x: nat)
    ensures 512 * IBlock(sb, ino) + 64 * IOffset(ino) == 512 * sb.inodestart + 64 * ino && IOffset(ino) < 8
    ensures 4096 * BBlock(sb, b) + BOffset(b) == 4096 * sb.bmapstart + b && BOffset(b) < 4096
    ensures DStart(sb) == sb.bmapstart + sb.size / 4096 + 1 == BBlock(sb, sb.size) + 1
    ensures sb.bmapstart <= x < DStart(sb) <==> exists c: nat :: c <= sb.size && BBlock(sb, c) == x
  {
    if sb.bmapstart <= x < DStart(sb) {
      var c := (x - sb.bmapstart) * 4096;
      assert c / 4096 == x - sb.bmapstart && x - sb.bmapstart <= sb.size / 4096;
      assert c <= sb.size / 4096 * 4096 <= sb.size;
      assert BBlock(sb, c) == x;
    }
    if c: nat :| c <= sb.size && BBlock(sb, c) == x {
      assert c / 4096 <= sb.size / 4096;
    }
  }

  /** In bytes: the inode table ends before the bitmap begins, and the data region begins on the device. */
  lemma TableFits(sb: Super)
    ensures WellFormed(sb) <==>
      && 2 <= sb.inodestart && 2 <= sb.ninodes <= 65536 && sb.size < 0x1_0000_0000
      && 512 * sb.inodestart + 64 * sb.ninodes <= 512 * sb.bmapstart
      && sb.bmapstart + sb.size / 4096 + 1 <= sb.size
  {
  }

  /**
   Inode table, bitmap and data region never meet, and inside its region each
   index has a place of its own: (block, offset) determines the index.
   */
  lemma RegionsDisjoint(sb: Super, ino: nat, jno: nat, b: nat, c: nat)
    requires WellFormed(sb)
    requires ino < sb.ninodes && jno < sb.ninodes && b < sb.size && c < sb.size
    ensures 2 <= IBlock(sb, ino) < sb.bmapstart <= BBlock(sb, b) < DStart(sb)
    ensures IBlock(sb, ino) == IBlock(sb, jno) && IOffset(ino) == IOffset(jno) ==> ino == jno
    ensures BBlock(sb, b) == BBlock(sb, c) && BOffset(b) == BOffset(c) ==> b == c
  {
    assert ino / IPB < (sb.ninodes + IPB - 1) / IPB;
    assert ino == ino / IPB * IPB + ino % IPB && jno == jno / IPB * IPB + jno % IPB;
    assert b == b / BPB * BPB + b % BPB && c == c / BPB * BPB + c % BPB;
    assert b / BPB <= sb.size / BPB;
  }
}
