# A verified model of the xv6fs driver

The project models the mutable state of one mounted xv6 volume as the driver keeps it, and proves what
every run of the driver keeps.

* The disk is flat: a sequence of 512-byte blocks. Bitmap bits, indirect words, directory entries and
  dinodes are views of those bytes (`Bytes.dfy`), so a block freed by one owner really is reinterpreted
  by the next. `OnDisk` reads the device a second time, as one array of bytes by position; the laws
  called places (`Layout.Places`, `Codec.FieldPlaces`, `Bitmap.BitPlace`, `Inodes.SlotPlace`,
  `Ownership.PointerPlace`, `Cursor.EntryPlace`) say in numbers which bytes each view is, and the
  contracts of the operations that write say which bytes change, and to what.
* `State.Volume` holds the fields the driver updates in place: disk buffers, the in-memory dinode table,
  the free inode list and its counter, and the in-core inodes. `View()` is its value, an `Fs`. Every
  module follows one part of the source and its methods take the volume, as the C functions take the
  super block.
* `sb_bread` is `Volume.BRead`. Any call may fail, and the ghost counter `faults` counts the failures,
  so a contract can speak of failures in one call (`v.faults > old(v.faults)`) or since the mount
  (`v.faults == 0`). `oom` counts in-core inodes that the VFS could not allocate in the same way, and
  `nobuf` counts buffers that `sb_getblk` (`Volume.GetBlk`) could not find. Everything that is not
  conditioned on these counters holds whatever fails. A `steady` volume is one on which `GetBlk` always
  succeeds.
* `owner` is a ghost map from allocated block to (inode, pointer slot). An inode has 141 pointer slots:
  12 direct, the indirect block, and its 128 words.

## Main results

1. `Run.RunAll`: any sequence of requests (load the root, look up, sync, forget, create, mkdir, link,
   unlink, rmdir, resize, write, list) on a steady volume, with reads and allocations failing at any
   point, keeps `Ops.Valid` in every state it passes through. That is: no two pointers share a block,
   every pointer is a marked data block, metadata stays marked, the free list and the inodes in use
   partition 1..ninodes-1, clean in-core inodes decode from the table, fields fit their widths, and link
   counts match the entries. As long as no read has failed, nothing leaks and the table equals the disk.
   Every request is answered (`Run.Answered`): refused only if the VFS must refuse it, failed only with a
   cause that fits the error and an unchanged name space, and otherwise carried out. A block is stranded
   only by a request that had a failed read itself (`Run.StrandedByFailure`), and an inode no request
   touches keeps kind, size, pointers and bytes (`Run.ContentsSurvive`). What "carried out" means is
   said down to the fields of the inode, the bytes of the entry and the slot it is in
   (`Ops.NameWritten`, `Ops.NewFile`, `DirOps.NewDir`, `Files.Raised`).
2. `Boot.MountAndRun` starts the runs from a disk image, with a precondition on its bytes alone.
   `Boot.UnmountedImage` is the way back, and `Format.FormattedImage` shows an image for every well-formed
   layout with a data block.
3. Every failure has its cause: `Ops.Create`, `Ops.Link`, `DirOps.Mkdir`, `Ops.Unlink`, `DirOps.Rmdir`,
   `Files.WriteFileBlock` and `Run.LookupName` succeed only when no lasting cause of failure holds, and
   return each error only with its cause. Running out of space is exact: a call fails for want of blocks
   only if fewer are free than it needs, and succeeds only if that many are.
4. `Theorems` says what the invariant means without ghost state: `OwnershipMeaning`, `Conservation`,
   `SafeUnderFaults`, `FileLinkCount`, `DirLinkCount`, `EntriesAreLive`, `EntryIsFound`, `DotsLead`, and the
   non-interference lemmas.
5. The cursor (`Cursor.Advance`) refines a flat scan over slots with holes, `Listing.Readdir` refines one
   chunk of the flat listing, and a directory refines a map from names to inode numbers (`DirMap`).
6. Round trips: allocate/free, encode/decode, grow/shrink, add/find/unlink, write/evict/load,
   unmount/mount; and a mapped block is what every later call returns (`Theorems.MapIsStable`).

## Where the code does not meet its intent

* A scan resumed one entry past a block start repeats that block's first entry. `Listing.ResumeExactly`
  gives the exact condition, and `Listing.ChunkedListing` shows that a chunked listing is exact if and
  only if no call with room resumes there. `Listing.EndOfDirectory` says exactly which directories have a
  listing that ends; for the others, 33 live entries for instance, `Listing.EndOfDirectoryRepeats` and
  `Listing.ListingNeverEnds` show that every further call delivers the last entry again.
* When slot 0 of the inode table is free on disk, as on the volume that mkfs.xv6fs.c plans, mounting puts
  inode 0 at the head of the free list, and the file created with it cannot be found.
  `Boot.MountAndCreate` proves that every number handed out after a mount is found under the name it was
  entered by if and only if slot 0 is not free; `Mount.MountedLists` proves the same condition for the
  inode partition; `Inodes.EvictInode` proves that inode 0 never returns to the list and that its blocks
  stay marked and belong to nobody. `Boot.LoseFirstFile` lets that first file be created, written and cut
  at will, and evicted: the name space is then that of the image, everything but leakage is in order, and,
  if no read has failed, the volume is valid if and only if the file had no blocks when it went. If all
  the calls on it succeeded, that is if and only if everything written was cut off again
  (`Calls.Held`). From a valid volume on, the runs apply. `Boot.LoseFirstDir` is the same for a first
  `mkdir`: when it succeeds its block is leaked and its parent keeps one link too many, which no tree
  allows (`Tree.ExtraLink`) unless the parent is the root, whose base count then includes it.
* An inode number whose slot has no known type is refused by `xv6fs_iget` through `iget_failed`, whose
  last `iput` evicts the inode just read. `Inodes.Iget` proves that EINVAL leaves the volume as it was if
  and only if the number is 0, out of range, or the slot has links, and that the invariant survives if and
  only if the number was not on the free list. Every free slot is such a case (`Inodes.FreeIsReaped`), and
  its number is then listed twice (`Inodes.ListedTwice`). Runs load inodes as the VFS does, by name or as
  the root, and never ask for a free one.
* The free count accumulates in a 32-bit `int`. `Bitmap.CountFree` states the result for every bitmap:
  exact while the counted bits stay below 2^31, and 2^32 too large from there on.
  `Format.FullVolumeMiscounts` is the full volume that reports 2^32 free blocks.
* `xv6fs_rmdir` takes two links from the removed directory, on a counter that wraps. `DirOps.Rmdir`
  proves, from `Sound` and emptiness alone, that the directory ends with no links if and only if it had
  exactly two, and that the volume stays sound if and only if it had at least two;
  `DirOps.RmdirThenEvict` proves that eviction then frees the inode if and only if it had exactly two.
  `DirOps.OneLinkWraps` is the directory with one link, as xv6 itself makes them. Directories made by this
  driver have two; the root keeps whatever base count it was formatted with (the parameter `base`).
* When `sb_getblk` finds no buffer, a new indirect block stays attached with the words it held before, and
  a new directory block is freed while still mapped. `BlockMap.GetBlock` and `Directory.AddEntry` state
  both outcomes. `BlockMap.StaleIndirect` proves that the first leaves the block map alone if and only if
  those words are all zero, and `BlockMap.StaleHarmless` that the call has then failed like any other;
  `Directory.FreedWhileMapped` proves that the second leaves a volume without single ownership if and only
  if the bitmap could be read.
* The comment before `xv6fs_readdir` promises that listing starts at the entry at the given offset; the
  model follows the code.

## Assumptions on the caller and the image

Regions are in order and disjoint (`Layout.WellFormed`), directory sizes and scan offsets are multiples
of 16, names have no NUL byte. The VFS calls in sequence, checks that a name is absent before an entry is
made, passes the inode an entry names, does not enter names in removed directories, writes a linked inode
back before evicting it, and bounds file sizes by `s_maxbytes`. `Run` performs these checks itself.

## Model

| member | source | states |
|---|---|---|
| Bytes.SetBlockBit | bmap.c:61-63 | setting or clearing one bit of a bitmap block leaves the other 4095 as they were |
| Bytes.SetWord | inode.c:574-575 | a stored little-endian word reads back, and every other word and byte of the block is untouched |
| Bytes.SetDirent | dir.c:361-364 | a stored entry reads back, and the other 31 entries of the block are untouched |
| Bytes.SetRaw | super.c:164-165 | a stored dinode reads back, and the other dinodes of the block are untouched |
| Layout.Places | xv6fs.h:191-200 | dinodes of 64 bytes and bitmap bits follow one another without a gap from the start of their regions; the data region starts right behind the block that holds bit `size`, and the blocks below it are exactly those of bits 0..size |
| Layout.RegionsDisjoint | xv6fs.h:191-200 | inode table, bitmap and data region never meet, and block with offset determines the inode or bit number |
| Layout.TableFits | xv6fs.h:191-200 | a well-formed layout, in bytes: the inode table ends before the bitmap begins and the data region begins on the device |
| Codec.DecodeEncode | xv6fs.h:236-273 | encoding then decoding an inode is the identity if and only if its fields fit the 16/32-bit widths |
| Codec.EncodeDecode | xv6fs.h:236-273 | decoding then encoding gives back all 64 bytes |
| Codec.FieldPlaces | xv6fs.h:236-250 | which of the 64 bytes each field is: type, major and minor signed in bytes 0..5, nlink in 6..7, size in 8..11, addresses from 12 on |
| Codec.Numbers | xv6fs.h:44-58 | the kinds are 1, 2 and 3, and a block map has 12 direct and 512 / 4 indirect blocks |
| Codec.DinodeToDisk | xv6fs.h:259-273 | the field-by-field fill gives the same bytes over any old slot contents |
| Codec.DinodeToCpu | xv6fs.h:236-250 | the field-by-field read with its loop over addresses is the decoded inode |
| State.Volume.BRead | bmap.c:49-53 | a read gives the block's contents or fails, and exactly the failures are counted |
| State.Volume.GetBlk | inode.c:547-549 | a buffer for a block to be overwritten is found, or the call fails and is counted; on a steady volume it is found |
| Bitmap.BitPlace | xv6fs.h:195-197 | the bit of block b is bit b % 8 of byte b / 8 from the start of block bmapstart |
| Bitmap.BitWritten | bmap.c:61-63 | writing it changes that bit and no other bit of the device |
| Bitmap.SetBitLaw | xv6fs.h:195-197 | on the whole device, writing one bit changes that block's bit and nothing outside the bitmap |
| Bitmap.FreeCount | bmap.c:8-42 | the free count is the number of clear bits from block bmapstart + size / 4096 + 1 on, read from the bytes |
| Bitmap.CountFree | bmap.c:8-42 | the number of zero bits in DSTART..size for every bitmap and any position of DSTART, plus 2^32 exactly when the int counter wrapped; modulo 2^32 it is the number of clear bits in the bytes; EIO only on a failed read |
| Bitmap.FindNextZeroBit | bmap.c:56-61 | the first clear bit at or after the offset, or the bit count when there is none or the offset is past it |
| Bitmap.BAlloc | bmap.c:44-74 | takes the lowest searched clear bit: on the bytes, every data block below it is marked, its bit is set and no other bit changes; ENOSPC only when every data block is marked; an error leaves the disk as it was |
| Bitmap.BFree | bmap.c:76-100 | unless its own read fails, clears exactly the bit of a data block, on the bytes; refuses metadata and out-of-range numbers; a failed read frees nothing |
| Bitmap.AllocMeaning | bmap.c:44-67 | with metadata marked, the block returned is the lowest free data block, the free count drops by one, and freeing it restores the disk byte for byte |
| Bitmap.NoSpaceMeaning | bmap.c:44-74 | allocation finds nothing if and only if the free count is zero |
| Bitmap.AllocFreeRun | bmap.c:44-100 | over any run of requests metadata stays marked, every allocation gets the lowest free data block or fails with its cause, and every free of a data block clears its bit |
| Ownership.PointerPlace | inode.c:513-586 | blocks 0..11 are the first twelve addresses, blocks 12..139 the 32-bit numbers in the bytes of the block the thirteenth names |
| Ownership.OthersMaps | inode.c:506-592 | a step confined to one inode leaves the pointers and block contents of every other inode |
| Ownership.AttachOwns | inode.c:513-586 | attaching a fresh block to an empty slot keeps single ownership and strands nothing |
| Ownership.DetachOwns | inode.c:253-295 | dropping a pointer keeps single ownership; its block is free, or stranded when the bitmap could not be read |
| BlockMap.AttachIndirectLaw | inode.c:533-552 | a fresh zeroed indirect block attaches with no entries |
| BlockMap.GetBlock | inode.c:506-592 | the block map is a partial map over 0..139 that only create extends, one block at a time; a hit changes nothing; a new block is the lowest free one; a failure changes no mapping and leaves at most one all-zero owned indirect block; EFBIG iff the block number is 140 or more; EIO iff a read failed; ENOSPC only with no free block left; a success owns exactly the blocks it needed, ENOSPC fewer; all other inodes and data kept; without a buffer for a new indirect block, EIO and that block attached with its old words |
| BlockMap.GetIndirect | inode.c:530-586 | the same for the indirect half, including failure of the second allocation and of the buffer |
| BlockMap.MapPostMeta | inode.c:506-592 | mapping keeps every metadata bit set |
| Truncate.TruncateBlocks | inode.c:247-296 | below n the map and the data are unchanged even under faults, and direct pointers from n on are always gone; if no read fails in the call, the map is empty from n on, the indirect block survives iff an entry below n is non-zero, and only the dropped blocks become free |
| Truncate.TruncateEntries | inode.c:265-295 | the loop over the indirect block, with its any-left flag, reaches the same result |
| Cursor.EntryPlace | xv6fs.h:129-132 | slot p is bytes 16p..16p+15 of the directory: the number in two bytes and 14 bytes of name; a slot in a hole is free |
| Cursor.Resolve | dir.c:68-107 | skips unmapped blocks noting their slots as free, never holds a buffer of another block |
| Cursor.Advance | dir.c:57-143 | returns the first live slot at or after the scan start, having noted every free slot before it; ends with no live slot left; the buffer used is always the one of the position |
| Listing.NameRoundTrip | dir.c:362-364 | a valid name stored in the 14-byte field reads back as itself |
| Listing.NameMatches | dir.c:273-277 | the length and byte comparison holds iff the stored name is the one looked for |
| Listing.LiveFromExact | dir.c:57-143 | the flat listing has every live slot exactly once, in increasing position, and nothing else |
| Listing.ResumeExactly | dir.c:83-97 | a scan resumed at p delivers the live slots from p on, preceded by the slot before p iff p is one entry past a block start and that slot is live |
| Listing.ChunkedListing | dir.c:191-219 | for every schedule of buffer sizes the chunked listing is the one-shot listing iff no call with room resumes at a repeating offset |
| Listing.EndOfDirectory | dir.c:191-219 | a call at the end of the directory delivers nothing iff the last slot is not the live first slot of a block |
| Listing.EndOfDirectoryRepeats | dir.c:199-216 | otherwise it delivers the last entry again and does not move |
| Listing.ListingNeverEnds | dir.c:199-216 | and so does every further call, for any schedule of buffer sizes |
| Listing.Readdir | dir.c:191-219 | emits exactly the chunk of the flat listing the buffer has room for and leaves its resume offset; on a failed read it has emitted a prefix of the listing and the offset is behind it |
| Directory.WriteBlockLaw | dir.c:361-366 | writing a data block of an inode moves no pointer, no bit and nothing of another inode |
| Directory.ScanDirectory | dir.c:323-332 | a full scan ends with the lowest and highest free slot, or -1 when every slot is live |
| Directory.FindEntry | dir.c:259-281 | finds the first live slot of the name with the cursor on it, or there is none |
| Directory.DirIsEmpty | dir.c:376-395 | true only with at most two live entries; false only with more, or when a read failed in the call |
| Directory.AddEntry | dir.c:309-374 | on success exactly the lowest free slot (a hole included) or one past the end became the entry, its 16 bytes being the number, the name and zeros; on failure the listing is unchanged; ENAMETOOLONG iff the name is too long; EFBIG only for a full directory; EIO iff a read failed; nothing of another inode moves; without a buffer, EIO with either a stale indirect block or a block freed while mapped |
| Directory.EntryCleared | dir.c:468-470 | clearing an entry frees exactly that slot, whose 16 bytes are zero |
| DirMap.LookupMeaning | dir.c:259-281 | the search result is the lookup in the map |
| DirMap.AddThenLookup | dir.c:309-374 | after adding an absent name it resolves to inum iff 0 < inum < 65536, and every other name resolves as before |
| DirMap.ClearThenLookup | dir.c:452-475 | after unlink the name is absent and every other name resolves as before |
| DirMap.AddClearRoundTrip | dir.c:309-475 | add then unlink restores the map |
| Inodes.Lossless | xv6fs.h:236-273 | on every state of a run the codec loses nothing for an inode in use |
| Inodes.SlotPlace | xv6fs.h:191-193 | the inode table is one array of 64-byte dinodes from block inodestart on |
| Inodes.SlotHeld | xv6fs.h:236-250 | the bytes at place 64 * i of the table are the fields of the inode the slot decodes to |
| Inodes.SoundKept | inode.c:506-592 | a confined step on one dirty inode keeps the whole-volume invariant |
| Inodes.ElsewhereSlots | dir.c:309-374 | the listing of every other directory is unchanged |
| Inodes.NewInode | inode.c:691-756 | for every list of unused slots, slot 0 included: ENOSPC iff the list is empty; ENOMEM undoes itself exactly; otherwise the inode at the head is in use with no blocks, of kind 1 with two links or kind 2 with one, and nothing else in its fields; ownership and the whole invariant are kept where they held |
| Inodes.NewInodeLaw | inode.c:706-754 | taking the first free inode keeps the whole invariant and touches no other inode |
| Inodes.Iget | inode.c:385-453 | EINVAL only for a number out of range or an uncached slot of no known type; ENOMEM only for an uncached inode; otherwise the inode the table or cache holds; EINVAL leaves the volume as it was iff the number is 0, out of range or has links, and frees the slot otherwise; the invariant is kept iff the number refused was not on the free list |
| Inodes.FreeIsReaped | inode.c:443-448 | in a sound volume every number on the free list is refused and evicted |
| Inodes.ListedTwice | super.c:226-231 | a free number evicted is on the list twice, and the partition no longer holds |
| Inodes.WriteInode | super.c:144-178 | for any inode in core: the table slot is its encoding; unless the block was unreadable its fields stand, cut to their widths, in bytes 64 * i.. of the table on disk and no other byte of the device changes; no pointer moves; within the invariant the slot decodes to the inode |
| Inodes.EvictInode | super.c:203-234 | a linked inode only leaves the cache; an unlinked one rejoins the free list, and if no read fails in the call every block it pointed at is free, its 64 bytes on disk are zero and nothing is stranded; inode 0 never rejoins, and its blocks stay marked and belong to nobody; the invariant is kept under any fault |
| Inodes.ReleaseInode | super.c:210-231 | the release itself, for any owned volume: the slot is freed, and if no read fails in the call so is every block, and the slot is zero on disk |
| Inodes.GivesBack | super.c:210-231 | an inode that goes with nothing stranded has given all its blocks back |
| Inodes.DropLaw | super.c:210-231 | freeing an inode keeps ownership; what it still pointed at is stranded, never shared |
| Mount.LoadDinodes | inode.c:117-175 | table slot i holds bytes 64 * i..64 * i + 63 of the inode table on disk, or zeros if the first two are; the free list is exactly the latter in increasing order; a failed read leaves all empty |
| Mount.FreeBelowExact | inode.c:134-152 | the loaded list holds exactly the free slots, without duplicates |
| Mount.ZeroLeads | inode.c:134-152 | inode 0 heads the loaded list iff its slot is free on disk |
| Mount.Remount | inode.c:117-175 | a clean, fully evicted volume mounts again with the same inodes and free set, plus 0 iff slot 0 is free; with slot 0 taken the invariant holds again |
| Mount.MountedLists | inode.c:117-175 | after a mount the free list and the inodes in use partition 1..ninodes-1 iff slot 0 is not free on disk |
| Boot.MountAndCreate | inode.c:691-756 | after a mount, creating a file per name and looking all up finds every number handed out under its name iff slot 0 is not free on disk; number 0 is never found |
| Boot.CreateZero | dir.c:397-416 | a create that is handed inode 0, any writes and cuts of the file, write-back and eviction: the name space is as it was, the rest of the volume sound, its blocks stranded; nothing leaks iff it had none; a failed create has its cause and no blocks |
| Boot.LoseFirstFile | dir.c:397-416 | on any consistent image with slot 0 free: after the first file has come and gone the name space is that of the image, and the volume is valid iff a read has failed or the file had no blocks; when its calls succeed, iff they cut off everything they wrote |
| Boot.LoseZero | super.c:203-234 | write-back and eviction of inode 0 keep ownership and strand exactly its blocks; with no failed read nothing leaks iff it had none |
| Boot.ZeroGone | super.c:210-231 | as states: without inode 0 the volume is sound but for leaks, and without leaks iff inode 0 had no blocks |
| Boot.UseZero | inode.c:657-678 | any writes and cuts of inode 0 keep the rest of the volume sound and its name space, each call with its own effect or cause |
| Boot.MakeZero | dir.c:418-450 | a mkdir that is handed inode 0: on success the parent has one link more and the block of the dots is stranded; a failure has its cause and leaves the name space |
| Boot.LoseFirstDir | dir.c:418-450 | on any consistent image with slot 0 free: after a first mkdir the volume is not valid unless a read failed; the tree is well linked for the root's base plus one if the parent is the root, and for no base otherwise |
| Boot.ConsistentMounts | inode.c:117-175 | an image consistent in its bytes mounts to a state with all of the invariant but the inode partition |
| Boot.MountAndRun | inode.c:117-175 | an image with consistent bytes and slot 0 not free mounts, unless a read fails, to a state every run from which is valid throughout and answers every request |
| Boot.UnmountedImage | super.c:144-234 | a clean volume with everything evicted leaves a consistent image with the same name space and the same free inodes |
| Tree.PutFileLinks | dir.c:397-416 | one more entry and one more link keep all link counts and the tree shape |
| Tree.DropFileLinks | dir.c:452-475 | one entry and one link fewer keep them, and no entry names a file that lost its last link |
| Tree.PutDirLinks | dir.c:418-450 | a new directory with its dots and the parent's extra link keep them |
| Tree.DropDirLinks | dir.c:477-492 | removing an empty directory keeps them, and nothing names it any more |
| Tree.ExtraLink | dir.c:442-442 | one link more on a directory of a well-linked tree is a well-linked tree for the base plus one if it is the root, and for no base otherwise |
| Namespace.Added | dir.c:361-371 | the bytes written by an add are one new entry of the name space |
| Namespace.Cleared | dir.c:468-470 | the bytes cleared by unlink are one entry fewer |
| Namespace.Relink | dir.c:473-490 | a changed link count changes one node; an unlinked directory takes its entries along |
| Namespace.ChildBound | dir.c:438-442 | a directory has at most 4478 child directories |
| Namespace.ChildBoundFree | dir.c:438-442 | a directory with a slot that holds no entry has at most 4477, so that the link it is given fits its width |
| Ops.Abandon | dir.c:408-412 | the undo of create and mkdir removes the node, its entries and its slot; if no read fails in the call, all its blocks become free and nothing is stranded |
| Ops.Create | dir.c:397-416 | succeeds only with a free inode, enough free blocks, room in the directory and a short name, giving one entry in the lowest free slot and one new inode of kind 2, size 0, one link and no pointers; each error comes with its cause, ENOSPC with an empty list or too few free blocks; on failure the name space and the directory are as before; all other files keep their data |
| DirOps.Mkdir | dir.c:418-450 | the same with one block more, for the dots; on success a new inode of kind 1, two links and size 32 whose two slots are "." naming it and ".." naming the parent, which has one link more; failure at any of the three adds has its cause and leaves the name space and the parent as before |
| DirOps.DotsListed | dir.c:422-436 | in such a directory the byte 46 leads to itself and two of them to the parent |
| Ops.Link | dir.c:494-514 | EPERM iff a directory, EMLINK iff 65535 links; every other error comes with its cause; on success one entry, in the lowest free slot, and one link more, and no other field changes |
| Ops.Unlink | dir.c:452-475 | the slot found is free and its inode has one link less; ENOENT iff the name is absent; EIO iff a read failed; failures change nothing; all other files keep their data |
| Ops.UnlinkFileLinks | dir.c:452-475 | unlinking a file keeps all link counts |
| DirOps.EmptyMeans | dir.c:376-395 | at most two live entries in a well-linked directory are its dots |
| DirOps.Rmdir | dir.c:477-492 | without any assumption on link counts: each error with its cause; on success the entry is gone, the count is 0 iff it was 2 and the volume sound iff it was at least 2 (3 if it is its own parent); in a well-linked tree the directory and its dots go and both counts come out right |
| DirOps.RmdirThenEvict | dir.c:477-492 | after rmdir and eviction the inode is on the free list iff it had exactly two links; with one it stays a directory with 65535 |
| DirOps.OneLinkWraps | dir.c:473-489 | a sound volume with a directory of one link exists whenever it has one in core, and two decrements take it to 2^32 - 1 |
| Files.SetSize | inode.c:308-315 | the size is the one asked for and no other field but addresses changes; every block covering a byte below it keeps its place and its bytes; direct blocks beyond it go in any case; if no read fails in the call all of them go and are free, and nothing is stranded; the name space and all other files are unchanged |
| Files.WriteFileBlock | inode.c:657-678 | the block holds the data, the size is the larger of the old one and the one asked for, never less, every other block of the file keeps its place and its bytes; each error comes with its cause and keeps all of them; the invariant and all other files are kept |
| Files.StoreBlock | inode.c:657-678 | the write on any owned volume: the block mapped as xv6fs_get_block maps it, the data in it and the size raised if it was smaller, never lowered; all other inodes kept |
| Files.ResizeBlocks | inode.c:308-315 | the resize on any owned volume: exactly the truncation, with the new size; all other inodes kept |
| Calls.Call | inode.c:308-315 | on any owned volume: a write stores its block and moves no other, or fails with its cause and moves none; a cut keeps the blocks below the size and, without a failed read, no others and no needless indirect block |
| Calls.HeldBlocks | inode.c:506-592 | after any writes and cuts on an empty file it has every block written and not cut off, exactly those if no read failed, and an indirect block only for them if all succeeded |
| Run.LookupName | dir.c:283-303 | returns the inode the directory maps the name to, nothing for an absent name, ENAMETOOLONG iff too long; EIO only with a failed read, ENOMEM only for a present name without memory, EINVAL only for a present name whose inode is not in core and of no known kind; the inode found is in core and linked; a failure changes nothing |
| Run.Load | inode.c:385-453 | loading a linked inode brings it into core as the table has it, or fails for want of memory or of a known kind and changes nothing; the invariant is kept |
| Run.AllowedMeans | super.c:352-352 | exactly which requests are allowed, in numbers: sizes up to 140 blocks of 512 bytes, directories of kind 1, names without NUL that are neither "." nor "..", present or absent as the request needs |
| Run.Step | dir.c:397-523 | every request keeps the invariant whatever fails and is answered: refused only if not allowed, failed only with its cause and the name space unchanged, otherwise done as asked; the data of every inode it does not touch is kept, and without a failed read nothing is stranded |
| Run.RunAll | dir.c:397-523 | every state of every run is valid, and each follows from the one before by its request and reply |
| Run.ContentsSurvive | dir.c:397-523 | over a whole run, an inode no request touches keeps its size, its pointers and every byte of its blocks |
| Run.StrandedByFailure | bmap.c:76-100 | over a whole run, a block that ends up stranded was stranded by a request that had a failed read |
| Theorems.OwnershipMeaning | inode.c:506-592 | the owner map exists iff all pointers are distinct, marked data blocks |
| Theorems.Conservation | bmap.c:8-42 | free plus owned blocks equal size minus DSTART in every state of a fault-free run |
| Theorems.BlocksAddUp | bmap.c:8-42 | free, owned and stranded blocks add up to the data region in every state |
| Theorems.TruncationFrees | inode.c:247-296 | truncation raises the free count by exactly the number of pointers dropped |
| Theorems.MapIsStable | inode.c:513-586 | in any run of calls on any inodes and blocks with any outcomes, a call for a block that an earlier create mapped returns the same block, as not new, or could not read the indirect block, and changes nothing |
| Theorems.Map | inode.c:506-592 | any calls for inodes in core are such a run, whatever reads fail |
| Theorems.AskedAgain | inode.c:513-586 | asking for a mapped block changes nothing and returns it, unless the indirect block could not be read |
| Counting.AddSpace | dir.c:309-374 | an add succeeds only with the free blocks it needs, takes exactly those, and runs out of space only with fewer |
| BlockMap.StaleIndirect | inode.c:533-549 | an indirect block left with its old words maps exactly those words, and the failed call leaves the block map alone iff they are all zero |
| BlockMap.StaleHarmless | inode.c:533-549 | with all words zero the state is that of any failed call, ownership included |
| Directory.FreedWhileMapped | dir.c:347-352 | without a buffer for a new directory block the mapping stays, and ownership holds under no owner map iff the free went through |
| Theorems.GrowShrink | inode.c:247-592 | any run of creates, failing ones included, then truncation to 0 without a failed read restores the bitmap bit for bit |
| Theorems.AddThenFind | dir.c:259-374 | on the bytes, a name added where it was absent is found with its number; a failed add has its cause and the name is not found |
| Theorems.UnlinkThenFind | dir.c:259-475 | on the bytes, after unlink the name is not found and every other name of the directory leads where it led; a failed unlink has its cause |
| Theorems.ListedOnce | dir.c:397-514 | in a well-linked tree no directory lists a name twice |
| Theorems.EntryIsFound | dir.c:259-303 | in a well-linked tree looking a name up gives the number its one live slot holds |
| Theorems.DotsLead | dir.c:418-450 | in every directory of a well-linked tree the byte 46 leads to the directory itself, and two of them to the directory that holds its entry, or from the root to the root |
| Theorems.Recycle | super.c:144-234 | write, evict, load returns every field of the inode, even if the disk write failed, or ENOMEM; the table has them, and the bytes on disk if no read failed |
| Theorems.DataWriteKeepsMetadata | xv6fs.h:191-200 | a write in the data region leaves every bitmap bit and dinode on disk |
| Theorems.MappingKeepsOthers | inode.c:506-592 | mapping a block for one inode leaves every other inode's map and listing |
| Theorems.AddingKeepsOthers | dir.c:309-374 | adding an entry to one directory leaves every other inode's map and listing |
| Theorems.FileLinkCount | dir.c:397-514 | a linked file's nlink is the number of live entries naming it |
| Theorems.DirLinkCount | dir.c:418-492 | a directory's nlink is 2 (the base, for the root) plus its child directories, at most 4480 below the root |
| Theorems.EntriesAreLive | dir.c:397-514 | no live entry names a free or unlinked inode, and names in a directory are distinct |
| Theorems.SafeUnderFaults | bmap.c:49-94 | whatever reads failed, no two pointers share a block and none names a free block |
| Format.FormattedImage | mkfs.xv6fs.c:259-351 | every well-formed layout with a data block has a consistent image of a lone root, for any contents of slot 0; it can be run on at once if slot 0 is not free |
| Format.FullVolumeMiscounts | bmap.c:8-42 | a full volume of 2^31 counted bits or more has no free block and a wrapped counter |

## Left out

- Runs in which `sb_getblk` fails: the runs and the theorems on whole operations are about steady volumes; what the failure does is stated of BlockMap.GetBlock and Directory.AddEntry, and neither outcome keeps the invariant in general.
- Crashes and the log: a write reaches the disk value at once, so nothing is said about lost buffers.
- Concurrency, locks, reference counts, RCU and the slab cache: operations run in sequence.
- Page-cache contents of files: Files.WriteFileBlock stores a whole block; partial pages, readahead and zeroing of the tail after truncation are kernel code.
- `sync_dirty_buffer` in `xv6fs_write_inode`: its result does not change the state.
- The list pointers that overlay a free table slot: a free slot of the table is modelled as zero bytes beside a separate list, so what `xv6fs_iget` would read from the pointers of a free slot, and what a node linked twice does to the chain, is not captured.
- Mount and unmount plumbing apart from loading the inode table; `statfs` beyond the free count; mode bits, owners and timestamps.
- Directories with sizes or offsets that are not multiples of 16, and images whose entries name free inodes.
- mkfs.xv6fs.c: its routines are stubs; only its layout and its root link count are used.
- Format.FormattedImage: shows that such an image exists, not that mkfs.xv6fs.c writes it.
- Run.RunAll: the requests are the ones listed in Run.Request; rename, symbolic links and device nodes are not offered by the driver.
