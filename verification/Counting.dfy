/** Counting blocks: free, owned and stray ones add up to the data region. */
module Counting {
  import opened Layout
  import opened Results
  import opened State
  import Bitmap
  import opened Ownership
  import BlockMap
  import Cursor
  import Listing
  import Directory

  /** Free data blocks of a volume. */
  ghost function FreeData(s: Fs): nat {
    if Shape(s) then Bitmap.FreeBlocks(s.sb, s.disk) else 0
  }

  ghost function OwnedIn(own: Owners, lo: nat, hi: nat): set<nat> { set b | b in own && lo <= b < hi }

  ghost function StrayIn(s: Fs, own: Owners, lo: nat, hi: nat): set<nat> {
    set b: nat | lo <= b < hi && Stray(s, own, b)
  }

  lemma OwnedInStep(own: Owners, lo: nat, b: nat)
    requires lo <= b
    ensures |OwnedIn(own, lo, b + 1)| == |OwnedIn(own, lo, b)| + if b in own then 1 else 0
  {
    if b in own {
      assert OwnedIn(own, lo, b + 1) == OwnedIn(own, lo, b) + {b};
    } else {
      assert OwnedIn(own, lo, b + 1) == OwnedIn(own, lo, b);
    }
  }

  lemma StrayInStep(s: Fs, own: Owners, lo: nat, b: nat)
    requires lo <= b
    ensures |StrayIn(s, own, lo, b + 1)| == |StrayIn(s, own, lo, b)| + if Stray(s, own, b) then 1 else 0
  {
    hide Stray;
    if Stray(s, own, b) {
      assert StrayIn(s, own, lo, b + 1) == StrayIn(s, own, lo, b) + {b};
    } else {
      assert StrayIn(s, own, lo, b + 1) == StrayIn(s, own, lo, b);
    }
  }

  /** A marked block is owned or stray, never both. */
  lemma {:induction false} OnesSplitByOwner(s: Fs, own: Owners, lo: nat, hi: nat)
    requires Shape(s) && forall b :: b in own ==> Used(s, b)
    ensures Bitmap.Ones(s.sb, s.disk, lo, hi) == |OwnedIn(own, lo, hi)| + |StrayIn(s, own, lo, hi)|
    decreases hi
  {
    hide Bitmap.IsSet;
    if hi <= lo {
      assert OwnedIn(own, lo, hi) == {} && StrayIn(s, own, lo, hi) == {};
    } else {
      hide StrayIn, OwnedIn;
      OnesSplitByOwner(s, own, lo, hi - 1);
      OwnedInStep(own, lo, hi - 1);
      StrayInStep(s, own, lo, hi - 1);
    }
  }

  lemma OwnersAddUp(s: Fs, own: Owners)
    requires Owns(s, own)
    ensures FreeData(s) + |own| + |StrayIn(s, own, DStart(s.sb), s.sb.size)| == s.sb.size - DStart(s.sb)
  {
    hide Bitmap.IsSet, Ptr, InUse, Bitmap.Ones, Bitmap.Zeros;
    OnesSplitByOwner(s, own, DStart(s.sb), s.sb.size);
    Bitmap.OnesPlusZeros(s.sb, s.disk, DStart(s.sb), s.sb.size);
    assert OwnedIn(own, DStart(s.sb), s.sb.size) == own.Keys;
    assert |own| == |own.Keys|;
  }

  /** Any step that strands and releases no stray block moves the free count by exactly what it owns more or less. */
  lemma FreeCountMoves(s: Fs, own: Owners, s': Fs, own': Owners)
    requires Owns(s, own) && Owns(s', own') && StraySame(s, own, s', own')
    ensures FreeData(s') + |own'| == FreeData(s) + |own|
  {
    hide PointersOwned, OwnersPoint, Stray, FreeData;
    OwnersAddUp(s, own);
    OwnersAddUp(s', own');
    assert StrayIn(s', own', DStart(s.sb), s.sb.size) == StrayIn(s, own, DStart(s.sb), s.sb.size);
  }

  lemma AllUsed(s: Fs)
    requires Shape(s) && forall b: nat :: DStart(s.sb) <= b < s.sb.size ==> Used(s, b)
    ensures FreeData(s) == 0
  {
    hide Bitmap.IsSet;
    forall c: nat | DStart(s.sb) <= c < s.sb.size ensures Bitmap.IsSet(s.sb, s.disk, c) {
      assert Used(s, c);
    }
    Bitmap.NoZeros(s.sb, s.disk, DStart(s.sb), s.sb.size);
  }

  /** An add that succeeds found the blocks it needs free; one that runs out of space found fewer. */
  lemma AddSpace(s: Fs, own: Owners, s': Fs, own': Owners, d: nat, name: Listing.Name, inum: nat, r: Result<nat>)
    requires Owns(s, own) && Directory.AddPost(s, own, s', own', d, name, inum, r)
    ensures r.Ok? ==> FreeData(s) == FreeData(s') + Directory.AddNeed(s, d)
    ensures r == Err(ENOSPC) ==> FreeData(s) < Directory.AddNeed(s, d)
  {
    hide PointersOwned, OwnersPoint, Others, Cursor.Slots, Directory.AddNeed, Directory.FreeSlot, FreeData,
      Used, StraySame;
    FreeCountMoves(s, own, s', own');
    if r == Err(ENOSPC) {
      assert s'.sb == s.sb by { SameSuper(s, own, s', own'); }
      AllUsed(s');
    }
  }

  /** The same for mapping one block. */
  lemma MapSpace(s: Fs, own: Owners, s': Fs, own': Owners, i: nat, l: nat, r: Result<BlockMap.Mapping>)
    requires Owns(s, own) && BlockMap.MapPost(s, own, s', own', i, l, true, r)
    ensures r.Ok? ==> FreeData(s) == FreeData(s') + BlockMap.BlocksNeeded(s, i, l)
    ensures r == Err(ENOSPC) ==> FreeData(s) < BlockMap.BlocksNeeded(s, i, l)
  {
    hide PointersOwned, OwnersPoint, Kept, BlockMap.DataKept, BlockMap.BlocksNeeded, FreeData, Used, StraySame,
      BlockMap.Residue, LMap;
    FreeCountMoves(s, own, s', own');
    if r == Err(ENOSPC) {
      assert s'.sb == s.sb by { SameSuper(s, own, s', own'); }
      AllUsed(s');
    }
  }

  lemma SameSuper(s: Fs, own: Owners, s': Fs, own': Owners)
    requires StraySame(s, own, s', own')
    ensures s'.sb == s.sb
  {
  }
}
