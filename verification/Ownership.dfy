/** The rows and objects between two calls of the service: who owns which objects, what a location's archive is,
    and what finalizing an upload makes of both. */
module Ownership {
  import opened ObjectNames
  import opened Types

  // ---------- the state between two calls ----------

  datatype Rows = Rows(
    uploads: map<nat, Upload>, locations: map<nat, Location>, entries: map<nat, Entry>, objects: map<Object, Bytes>)

  /** Every entry's location is there, and no two entries share one.  ProtocolReferences.EntriesResolve shows
      this for every state that any interleaving leads to. */
  ghost predicate Linked(r: Rows) {
    && (forall e :: e in r.entries ==> r.entries[e].location in r.locations)
    && (forall d, e :: d in r.entries && e in r.entries && r.entries[d].location == r.entries[e].location ==> d == e)
  }

  /** Moreover there is one upload and one entry per key at most. */
  ghost predicate Keyed(r: Rows) {
    && Linked(r)
    && (forall u, v :: u in r.uploads && v in r.uploads && r.uploads[u].key == r.uploads[v].key ==> u == v)
    && (forall d, e :: d in r.entries && e in r.entries && r.entries[d].key == r.entries[e].key ==> d == e)
  }

  /** Moreover no two uploads or locations have the same folder. */
  ghost predicate Owned(r: Rows) {
    && Keyed(r)
    && (forall l, m ::
          l in r.locations && m in r.locations && r.locations[l].folder == r.locations[m].folder ==> l == m)
    && (forall l :: l in r.locations ==> r.locations[l].folder !in r.uploads)
  }

  function Parts(objects: map<Object, Bytes>, folder: nat): map<int, Bytes> {
    map o | o in objects && o.folder == folder && o.Part? :: o.index := objects[o]
  }

  /** All n parts, end to end. */
  function Whole(parts: map<int, Bytes>, n: nat): Option<Bytes> {
    if HasFirst(parts, n) then Some(Join(parts, n)) else None
  }

  /** The archive of a location: what a complete download of it returns. */
  function Archive(locations: map<nat, Location>, objects: map<Object, Bytes>, l: nat): Option<Bytes> {
    if l !in locations then None
    else
      var row := locations[l];
      if row.mergedAt.Some? then
        if Merged(row.folder) in objects then Some(objects[Merged(row.folder)]) else None
      else Whole(Parts(objects, row.folder), row.partCount)
  }

  predicate SameFolder(after: map<Object, Bytes>, before: map<Object, Bytes>, folder: nat) {
    && (forall o :: o in before && o.folder == folder ==> o in after && after[o] == before[o])
    && (forall o :: o in after && o.folder == folder ==> o in before)
  }

  /** Every location row that is still there still has its archive, and every upload row its objects. */
  ghost predicate Keeps(after: Rows, before: Rows) {
    && (forall l :: l in after.locations && l in before.locations
                  ==> Archive(after.locations, after.objects, l) == Archive(before.locations, before.objects, l))
    && (forall u :: u in after.uploads && u in before.uploads ==> SameFolder(after.objects, before.objects, u))
  }

  /** The same row and the same objects make the same archive. */
  lemma SameArchive(
      locations: map<nat, Location>, after: map<Object, Bytes>, locs: map<nat, Location>, before: map<Object, Bytes>,
      l: nat)
    requires l in locations && l in locs && SameFolder(after, before, locs[l].folder)
    requires locations[l].(lastDownloadedAt := None) == locs[l].(lastDownloadedAt := None)
    ensures Archive(locations, after, l) == Archive(locs, before, l)
  {
    assert Parts(after, locs[l].folder) == Parts(before, locs[l].folder);
  }

  lemma DropOther(objects: map<Object, Bytes>, folder: nat, kept: set<Object>, other: nat)
    requires other != folder
    ensures SameFolder(DropFolder(objects, folder, kept), objects, other)
    ensures SameFolder(DropParts(objects, folder, kept), objects, other)
  {
  }

  lemma {:induction false} KeepsTransitive(c: Rows, b: Rows, a: Rows)
    requires Keeps(c, b) && Keeps(b, a)
    requires forall l :: l in c.locations && l in a.locations ==> l in b.locations
    requires forall u :: u in c.uploads && u in a.uploads ==> u in b.uploads
    ensures Keeps(c, a)
  {
    forall l | l in c.locations && l in a.locations
      ensures Archive(c.locations, c.objects, l) == Archive(a.locations, a.objects, l)
    {
      assert l in b.locations;
    }
    forall u | u in c.uploads && u in a.uploads ensures SameFolder(c.objects, a.objects, u) {
      assert u in b.uploads && SameFolder(c.objects, b.objects, u) && SameFolder(b.objects, a.objects, u);
    }
  }

  /** DELETE FROM storage_locations, with the cascade. */
  function DropLocation(r: Rows, l: nat): Rows {
    r.(locations := r.locations - {l},
       entries := map e | e in r.entries && r.entries[e].location != l :: r.entries[e])
  }

  // ---------- finalizing ----------

  /** The accepted upload becomes the location; the key's entry, new or not, now points to it; the location
      it replaces is gone together with its folder. */
  function Finalized(r: Rows, u: nat, l: nat, e: nat, count: nat, now: int, replaced: Option<nat>): Rows
    requires u in r.uploads && (replaced.Some? ==> replaced.value in r.locations)
  {
    var locations := if replaced.Some? then r.locations - {replaced.value} else r.locations;
    Rows(r.uploads - {u},
         locations[l := Location(u, count, None, None, None, None)],
         r.entries[e := Entry(r.uploads[u].key, now, l)],
         if replaced.Some? then DropFolder(r.objects, r.locations[replaced.value].folder, {}) else r.objects)
  }

  /** e is the entry to use for the key: an existing one, whose location is replaced, or a new one. */
  predicate Chosen(r: Rows, key: Key, e: nat, replaced: Option<nat>) {
    if replaced.Some? then
      && e in r.entries && r.entries[e].key == key
      && r.entries[e].location == replaced.value && replaced.value in r.locations
    else e !in r.entries && forall d :: d in r.entries ==> r.entries[d].key != key
  }

  lemma {:induction false} FinalizedOwned(
    r: Rows, u: nat, l: nat, e: nat, count: nat, now: int, replaced: Option<nat>)
    requires Owned(r) && u in r.uploads && l !in r.locations && Chosen(r, r.uploads[u].key, e, replaced)
    ensures Owned(Finalized(r, u, l, e, count, now, replaced))
  {
    FinalizedKeyed(r, u, l, e, count, now, replaced);
    hide Keyed;
  }

  lemma {:induction false} FinalizedKeyed(
    r: Rows, u: nat, l: nat, e: nat, count: nat, now: int, replaced: Option<nat>)
    requires Keyed(r) && u in r.uploads && l !in r.locations && Chosen(r, r.uploads[u].key, e, replaced)
    ensures Keyed(Finalized(r, u, l, e, count, now, replaced))
  {
  }

  lemma FinalizedFolders(r: Rows, u: nat, l: nat, e: nat, count: nat, now: int, replaced: Option<nat>, f: nat)
    requires u in r.uploads
    requires replaced.Some? ==> replaced.value in r.locations && f != r.locations[replaced.value].folder
    ensures SameFolder(Finalized(r, u, l, e, count, now, replaced).objects, r.objects, f)
  {
    if replaced.Some? {
      DropOther(r.objects, r.locations[replaced.value].folder, {}, f);
    }
  }

  lemma FinalizedKeeps(r: Rows, u: nat, l: nat, e: nat, count: nat, now: int, replaced: Option<nat>)
    requires Owned(r) && u in r.uploads && l !in r.locations && Chosen(r, r.uploads[u].key, e, replaced)
    ensures Keeps(Finalized(r, u, l, e, count, now, replaced), r)
  {
    var s := Finalized(r, u, l, e, count, now, replaced);
    forall m | m in s.locations && m in r.locations
      ensures Archive(s.locations, s.objects, m) == Archive(r.locations, r.objects, m)
    {
      FinalizedFolders(r, u, l, e, count, now, replaced, r.locations[m].folder);
      hide SameFolder, Archive;
      SameArchive(s.locations, s.objects, r.locations, r.objects, m);
    }
    forall v | v in s.uploads && v in r.uploads ensures SameFolder(s.objects, r.objects, v) {
      FinalizedFolders(r, u, l, e, count, now, replaced, v);
    }
  }

  /** The key's entry points to location l. */
  ghost predicate Serves(r: Rows, key: Key, l: nat) {
    exists e :: e in r.entries && r.entries[e].key == key && r.entries[e].location == l
  }

  /** The location to be replaced has the folder of the upload itself: what a finalize that failed late leaves. */
  predicate ReplacesItself(r: Rows, u: nat, replaced: Option<nat>) {
    replaced.Some? && replaced.value in r.locations && r.locations[replaced.value].folder == u
  }

  /** The entry's new location holds what was uploaded, unless the finalize deletes its own folder. */
  lemma FinalizedArchive(r: Rows, u: nat, l: nat, e: nat, count: nat, now: int, replaced: Option<nat>)
    requires u in r.uploads && count > 0 && Chosen(r, r.uploads[u].key, e, replaced)
    ensures
      var s := Finalized(r, u, l, e, count, now, replaced);
      && Serves(s, r.uploads[u].key, l)
      && Archive(s.locations, s.objects, l)
         == if ReplacesItself(r, u, replaced) then None else Whole(Parts(r.objects, u), count)
  {
    var s := Finalized(r, u, l, e, count, now, replaced);
    assert s.entries[e] == Entry(r.uploads[u].key, now, l);
    if ReplacesItself(r, u, replaced) {
      assert 0 !in Parts(s.objects, u);
      assert !HasFirst(Parts(s.objects, u), count);
    } else {
      FinalizedFolders(r, u, l, e, count, now, replaced, u);
      assert Parts(s.objects, u) == Parts(r.objects, u);
    }
  }

  /** A retry after a finalize that failed between repointing the entry and deleting its upload: it reports
      success, and everything is owned again, but it has deleted the folder of the archive it points to. */
  lemma RetryEmptiesArchive(r: Rows, u: nat, l: nat, d: nat, k: nat, count: nat, now: int)
    requires Keyed(r) && Owned(r.(uploads := r.uploads - {u})) && u in r.uploads && k !in r.locations && count > 0
    requires d in r.entries && r.entries[d].key == r.uploads[u].key && r.entries[d].location == l
    requires l in r.locations && r.locations[l].folder == u
    ensures
      var s := Finalized(r, u, k, d, count, now, Some(l));
      Owned(s) && Serves(s, r.uploads[u].key, k) && Archive(s.locations, s.objects, k).None?
  {
    hide Archive, Serves, Keyed;
    RetryFolders(r, u, l, d, k, count, now);
    FinalizedKeyed(r, u, k, d, count, now, Some(l));
    FinalizedArchive(r, u, k, d, count, now, Some(l));
  }

  lemma RetryFolders(r: Rows, u: nat, l: nat, d: nat, k: nat, count: nat, now: int)
    requires Owned(r.(uploads := r.uploads - {u})) && u in r.uploads && k !in r.locations && d in r.entries
    requires l in r.locations && r.locations[l].folder == u
    ensures
      var s := Finalized(r, u, k, d, count, now, Some(l));
      && (forall x, y ::
            x in s.locations && y in s.locations && s.locations[x].folder == s.locations[y].folder ==> x == y)
      && (forall x :: x in s.locations ==> s.locations[x].folder !in s.uploads)
  {
    hide Keyed;
    var v := r.(uploads := r.uploads - {u});
    assert forall x :: x in v.locations && v.locations[x].folder == u ==> x == l;
  }

  /** After a finalize that failed before its entry pointed to the new location l, a second one leaves two
      locations with the folder of the archive, one of them without an entry. */
  lemma RetrySharesFolder(r: Rows, u: nat, l: nat, e: nat, k: nat, count: nat, now: int, replaced: Option<nat>)
    requires u in r.uploads && k !in r.locations && l in r.locations && r.locations[l].folder == u && count > 0
    requires Chosen(r, r.uploads[u].key, e, replaced) && replaced != Some(l)
    ensures
      var s := Finalized(r, u, k, e, count, now, replaced);
      !Owned(s) && l in s.locations && s.locations[l].folder == s.locations[k].folder && l != k
  {
    var s := Finalized(r, u, k, e, count, now, replaced);
    assert s.locations[l].folder == s.locations[k].folder;
  }

  /** The cascade removes no entry: the old location's only entry has been repointed. */
  lemma NothingCascades(r: Rows, d: nat, l: nat, now: int)
    requires Linked(r) && d in r.entries && l !in r.locations
    ensures
      var was, entries := r.entries[d].location, r.entries[d := Entry(r.entries[d].key, now, l)];
      (map e | e in entries && entries[e].location != was :: entries[e]) == entries
  {
  }

  /** No entry of the key with a location means no entry of the key at all. */
  lemma NoneChosen(r: Rows, locations: map<nat, Location>, key: Key, e: nat, l: nat)
    requires Linked(r) && e !in r.entries && l in locations && locations == r.locations[l := locations[l]]
    requires forall d :: d in r.entries && r.entries[d].location in locations ==> r.entries[d].key != key
    ensures Chosen(r, key, e, None) && !HasEntry(r, key)
  {
  }

  lemma SomeChosen(r: Rows, key: Key, d: nat, l: nat)
    requires Linked(r) && d in r.entries && r.entries[d].key == key && l !in r.locations
    ensures Chosen(r, key, d, Some(r.entries[d].location)) && r.entries[d].location != l && HasEntry(r, key)
  {
  }

  ghost predicate HasEntry(r: Rows, key: Key) {
    exists e :: e in r.entries && r.entries[e].key == key
  }

  lemma KeepsItself(r: Rows)
    ensures Keeps(r, r)
  {
  }

  lemma RejectedOwned(r: Rows, u: nat)
    ensures Owned(r) ==> Owned(r.(uploads := r.uploads - {u}))
    ensures Keeps(r.(uploads := r.uploads - {u}), r)
  {
  }

  lemma FolderShared(r: Rows, l: nat)
    requires l in r.locations && r.locations[l].folder in r.uploads
    ensures !Owned(r)
  {
  }

  // ---------- a finalize that stops half-way ----------

  /** Whatever a finalize has done when it fails: every entry is still there under its key and has a location,
      and that location has the archive it had, or the uploaded one. */
  ghost predicate Standing(after: Rows, before: Rows, l: nat, u: nat, count: nat) {
    && (forall d :: d in before.entries ==> (
          && d in after.entries && after.entries[d].key == before.entries[d].key
          && after.entries[d].location in after.locations))
    && (forall m :: m in after.locations ==> (
          Archive(after.locations, after.objects, m)
          == if m == l then Whole(Parts(before.objects, u), count) else Archive(before.locations, before.objects, m)))
  }

  /** Upload u, whose folder a location shares already, is all that keeps everything from being owned. */
  ghost predicate HalfOwned(r: Rows, u: nat) {
    u in r.uploads && Keyed(r) && Owned(r.(uploads := r.uploads - {u}))
  }

  function Inserted(r: Rows, u: nat, l: nat, count: nat): Rows {
    r.(locations := r.locations[l := Location(u, count, None, None, None, None)])
  }

  lemma InsertedStands(r: Rows, u: nat, l: nat, count: nat)
    requires Linked(r) && l !in r.locations
    ensures Standing(Inserted(r, u, l, count), r, l, u, count)
  {
  }

  lemma InsertedHalf(r: Rows, u: nat, l: nat, count: nat)
    requires Linked(r) && u in r.uploads && l !in r.locations
    ensures Owned(r) ==> HalfOwned(Inserted(r, u, l, count), u)
    ensures forall key :: !Serves(Inserted(r, u, l, count), key, l)
  {
  }

  function Repointed(r: Rows, u: nat, l: nat, count: nat, now: int, d: nat): Rows
    requires d in r.entries
  {
    Inserted(r, u, l, count).(entries := r.entries[d := Entry(r.entries[d].key, now, l)])
  }

  lemma RepointedStands(r: Rows, u: nat, l: nat, count: nat, now: int, d: nat)
    requires Linked(r) && l !in r.locations && d in r.entries
    ensures Standing(Repointed(r, u, l, count, now, d), r, l, u, count)
  {
  }

  lemma RepointedHalf(r: Rows, u: nat, l: nat, count: nat, now: int, d: nat)
    requires Linked(r) && u in r.uploads && l !in r.locations && d in r.entries
    ensures Serves(Repointed(r, u, l, count, now, d), r.entries[d].key, l)
    ensures Owned(r) ==> HalfOwned(Repointed(r, u, l, count, now, d), u)
  {
    assert Repointed(r, u, l, count, now, d).entries[d].location == l;
  }

  function Dropped(r: Rows, u: nat, l: nat, count: nat, now: int, d: nat, kept: set<Object>): Rows
    requires d in r.entries && r.entries[d].location in r.locations
  {
    var s, was := Repointed(r, u, l, count, now, d), r.entries[d].location;
    s.(locations := s.locations - {was}, objects := DropFolder(r.objects, r.locations[was].folder, kept))
  }

  lemma DroppedStands(r: Rows, u: nat, l: nat, count: nat, now: int, d: nat, kept: set<Object>)
    requires Owned(r) && u in r.uploads && l !in r.locations && d in r.entries
    ensures r.entries[d].location in r.locations && Standing(Dropped(r, u, l, count, now, d, kept), r, l, u, count)
  {
    hide Archive, Parts, SameFolder, DropFolder, Whole;
    var s, was := Dropped(r, u, l, count, now, d, kept), r.entries[d].location;
    var folder := r.locations[was].folder;
    DropOther(r.objects, folder, kept, u);
    NewArchive(s, r, u, l, count);
    forall m | m in s.locations && m != l
      ensures Archive(s.locations, s.objects, m) == Archive(r.locations, r.objects, m)
    {
      DropOther(r.objects, folder, kept, r.locations[m].folder);
      SameArchive(s.locations, s.objects, r.locations, r.objects, m);
    }
  }

  lemma DroppedHalf(r: Rows, u: nat, l: nat, count: nat, now: int, d: nat, kept: set<Object>)
    requires Linked(r) && u in r.uploads && l !in r.locations && d in r.entries
    ensures r.entries[d].location in r.locations
    ensures Serves(Dropped(r, u, l, count, now, d, kept), r.entries[d].key, l)
    ensures Owned(r) ==> HalfOwned(Dropped(r, u, l, count, now, d, kept), u)
  {
    hide DropFolder, HalfOwned, Owned;
    RepointedHalf(r, u, l, count, now, d);
    var s, was := Repointed(r, u, l, count, now, d), r.entries[d].location;
    assert Dropped(r, u, l, count, now, d, kept).entries[d].location == l;
    assert forall e :: e in s.entries ==> s.entries[e].location != was;
    if Owned(r) {
      HalfWithout(s, was, DropFolder(r.objects, r.locations[was].folder, kept), u);
    }
  }

  lemma HalfWithout(s: Rows, was: nat, objects: map<Object, Bytes>, u: nat)
    requires HalfOwned(s, u) && forall e :: e in s.entries ==> s.entries[e].location != was
    ensures HalfOwned(s.(locations := s.locations - {was}, objects := objects), u)
  {
  }

  lemma NewArchive(s: Rows, r: Rows, u: nat, l: nat, count: nat)
    requires l in s.locations && s.locations[l] == Location(u, count, None, None, None, None)
    requires SameFolder(s.objects, r.objects, u)
    ensures Archive(s.locations, s.objects, l) == Whole(Parts(r.objects, u), count)
  {
    assert Parts(s.objects, u) == Parts(r.objects, u);
  }

  lemma AddedStands(r: Rows, u: nat, l: nat, count: nat, now: int, e: nat)
    requires Linked(r) && u in r.uploads && l !in r.locations && e !in r.entries
    ensures
      var s := Inserted(r, u, l, count).(entries := r.entries[e := Entry(r.uploads[u].key, now, l)]);
      Standing(s, r, l, u, count)
  {
  }

  lemma AddedHalf(r: Rows, u: nat, l: nat, count: nat, now: int, e: nat)
    requires Linked(r) && u in r.uploads && l !in r.locations && Chosen(r, r.uploads[u].key, e, None)
    ensures
      var s := Inserted(r, u, l, count).(entries := r.entries[e := Entry(r.uploads[u].key, now, l)]);
      Serves(s, r.uploads[u].key, l) && (Owned(r) ==> HalfOwned(s, u))
  {
    var s := Inserted(r, u, l, count).(entries := r.entries[e := Entry(r.uploads[u].key, now, l)]);
    assert s.entries[e].location == l;
  }

  // ---------- one row changes ----------

  /** A change of one location's timestamps and of its own folder's objects that leaves its archive alone. */
  lemma OneLocationKeeps(before: Rows, after: Rows, l: nat)
    requires Owned(before) && l in before.locations && l in after.locations
    requires after.uploads == before.uploads && after.entries == before.entries
    requires after.locations == before.locations[l := after.locations[l]]
    requires after.locations[l].folder == before.locations[l].folder
    requires forall f :: f != before.locations[l].folder ==> SameFolder(after.objects, before.objects, f)
    requires Archive(after.locations, after.objects, l) == Archive(before.locations, before.objects, l)
    ensures Owned(after) && Keeps(after, before)
  {
    forall m | m in after.locations && m in before.locations
      ensures Archive(after.locations, after.objects, m) == Archive(before.locations, before.objects, m)
    {
      if m != l {
        SameArchive(after.locations, after.objects, before.locations, before.objects, m);
      }
    }
  }

  lemma PutObject(after: map<Object, Bytes>, objects: map<Object, Bytes>, o: Object, x: Bytes)
    requires after == objects || after == objects[o := x]
    ensures forall f :: f != o.folder ==> SameFolder(after, objects, f)
  {
  }

  /** A change of an upload's own row and objects is nobody else's concern. */
  lemma PutOwned(was: Rows, now: Rows, u: nat)
    requires u in was.uploads && now.locations == was.locations && now.entries == was.entries
    requires u in now.uploads && now.uploads == was.uploads[u := now.uploads[u]]
    requires now.uploads[u].key == was.uploads[u].key
    requires forall f :: f != u ==> SameFolder(now.objects, was.objects, f)
    ensures Owned(was) ==> Owned(now)
    ensures Owned(was) ==> forall l :: l in now.locations ==>
      Archive(now.locations, now.objects, l) == Archive(was.locations, was.objects, l)
  {
    if Owned(was) {
      forall l | l in now.locations
        ensures Archive(now.locations, now.objects, l) == Archive(was.locations, was.objects, l)
      {
        SameArchive(now.locations, now.objects, was.locations, was.objects, l);
      }
    }
  }
}
