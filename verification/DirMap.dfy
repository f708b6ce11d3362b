/** A directory as a map from names to inode numbers. */
module DirMap {
  import opened Bytes
  import opened Results
  import Cursor
  import opened Listing
  import opened Directory

  /** What looking up `name` yields: the inode number of the first live slot of that name. */
  ghost function Lookup(ds: seq<Dirent>, name: Name): Option<nat> {
    LookupFrom(ds, name, 0)
  }

  ghost function LookupFrom(ds: seq<Dirent>, name: Name, k: nat): Option<nat>
    decreases |ds| - k
  {
    if k >= |ds| then None
    else if Names(ds[k], name) then Some(ds[k].inum)
    else LookupFrom(ds, name, k + 1)
  }

  lemma {:induction false} LookupSkips(ds: seq<Dirent>, name: Name, a: nat, b: nat)
    requires a <= b <= |ds| && forall k: nat :: a <= k < b ==> !Names(ds[k], name)
    ensures LookupFrom(ds, name, a) == LookupFrom(ds, name, b)
    decreases b - a
  {
    if a < b {
      LookupSkips(ds, name, a + 1, b);
    }
  }

  /** What `xv6fs_find_entry` returns is the lookup. */
  lemma LookupMeaning(ds: seq<Dirent>, name: Name)
    ensures Lookup(ds, name) == None <==> Absent(ds, name)
    ensures forall q: nat :: FoundAt(ds, name, q) ==> Lookup(ds, name) == Some(ds[q].inum)
    ensures Lookup(ds, name).Some? ==> exists q: nat :: FoundAt(ds, name, q)
  {
    if Absent(ds, name) {
      LookupSkips(ds, name, 0, |ds|);
    } else {
      var q := FirstNamed(ds, name, 0);
      LookupSkips(ds, name, 0, q);
    }
    forall q: nat | FoundAt(ds, name, q) ensures Lookup(ds, name) == Some(ds[q].inum) {
      LookupSkips(ds, name, 0, q);
    }
  }

  lemma {:induction false} FirstNamed(ds: seq<Dirent>, name: Name, a: nat) returns (q: nat)
    requires (forall k: nat :: k < a && k < |ds| ==> !Names(ds[k], name)) && !Absent(ds, name)
    ensures FoundAt(ds, name, q)
    decreases |ds| - a
  {
    if a < |ds| && !Names(ds[a], name) {
      q := FirstNamed(ds, name, a + 1);
    } else {
      q := a;
    }
  }

  lemma {:induction false} LookupAgrees(ds: seq<Dirent>, ds': seq<Dirent>, name: Name, p: nat, k: nat)
    requires |ds| <= |ds'| <= |ds| + 1 && p < |ds'|
    requires forall q: nat :: q < |ds| && q != p ==> ds'[q] == ds[q]
    requires |ds'| > |ds| ==> p == |ds|
    requires !Names(ds'[p], name) && (p < |ds| ==> !Names(ds[p], name))
    ensures LookupFrom(ds', name, k) == LookupFrom(ds, name, k)
    decreases |ds'| - k
  {
    if k < |ds'| {
      LookupAgrees(ds, ds', name, p, k + 1);
    }
  }

  /**
   Adding `name` where it was absent makes it resolve to `inum` exactly when `inum`
   is a number from 1 to 65535 modulo the 16-bit field; every other name resolves
   as before.  With a number that reads back as 0 the new entry cannot be found.
   */
  lemma AddThenLookup(ds: seq<Dirent>, p: nat, name: Name, inum: nat)
    requires FreeSlot(ds, p) && Absent(ds, name) && ValidName(name)
    ensures var ds' := PutSlot(ds, p, NewDirent(name, inum));
      && Lookup(ds', name) == (if inum % U16 == 0 then None else Some(inum % U16))
      && (Lookup(ds', name) == Some(inum) <==> 0 < inum < U16)
      && (inum % U16 == 0 ==> forall other: Name :: Lookup(ds', other) == Lookup(ds, other))
      && forall other: Name :: other != name ==> Lookup(ds', other) == Lookup(ds, other)
  {
    hide CName;
    var e := NewDirent(name, inum);
    var ds' := PutSlot(ds, p, e);
    NameRoundTrip(name);
    LookupMeaning(ds', name);
    if Cursor.Live(e) {
      assert FoundAt(ds', name, p);
    } else {
      assert Absent(ds', name);
    }
    forall other: Name | other != name || !Cursor.Live(e) ensures Lookup(ds', other) == Lookup(ds, other) {
      LookupAgrees(ds, ds', other, p, 0);
    }
  }

  /** No two live slots share a name. */
  ghost predicate NamesUnique(ds: seq<Dirent>) {
    forall p: nat, q: nat :: p < q < |ds| && Cursor.Live(ds[p]) && Cursor.Live(ds[q]) ==>
      CName(ds[p].field) != CName(ds[q].field)
  }

  /** Clearing the slot a name was found in makes the name absent; every other name resolves as before. */
  lemma ClearThenLookup(ds: seq<Dirent>, q: nat, name: Name)
    requires FoundAt(ds, name, q) && NamesUnique(ds)
    ensures var ds' := ds[q := FreeDirent()];
      && Lookup(ds', name) == None && NamesUnique(ds')
      && forall other: Name :: other != name ==> Lookup(ds', other) == Lookup(ds, other)
  {
    hide CName;
    var ds' := ds[q := FreeDirent()];
    LookupMeaning(ds', name);
    forall other: Name | other != name ensures Lookup(ds', other) == Lookup(ds, other) {
      LookupAgrees(ds, ds', other, q, 0);
    }
  }

  /** Removing an entry and adding it again, at whatever slot is free, restores the map. */
  lemma AddClearRoundTrip(ds: seq<Dirent>, p: nat, name: Name, inum: nat)
    requires FreeSlot(ds, p) && Absent(ds, name) && ValidName(name) && 0 < inum < U16 && NamesUnique(ds)
    ensures var ds' := PutSlot(ds, p, NewDirent(name, inum));
      && FoundAt(ds', name, p) && NamesUnique(ds')
      && forall any: Name :: Lookup(ds'[p := FreeDirent()], any) == Lookup(ds, any)
  {
    hide CName, LookupFrom;
    NameRoundTrip(name);
    var ds' := PutSlot(ds, p, NewDirent(name, inum));
    assert FoundAt(ds', name, p);
    AddThenLookup(ds, p, name, inum);
    ClearThenLookup(ds', p, name);
    LookupMeaning(ds, name);
  }
}
