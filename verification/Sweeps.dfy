/** The cleanup tasks: page loops whose offset advances over a set that shrinks under them.  They run on any
    state; what they may cost a survivor is decided by whether folders are shared. */
module Sweeps {
  import opened ObjectNames
  import opened Ownership
  import opened Queries
  import opened Service
  import opened Types

  const PageSize: nat := 10

  // ---------- how many rows one run leaves ----------

  /** With n matching rows and every delete succeeding, one run handles pages 0 .. Pages(n), the last not full. */
  function Pages(n: nat): nat {
    (n + PageSize) / (2 * PageSize)
  }

  /** Page k starts after k * PageSize of the n - k * PageSize rows still there. */
  function Left(n: nat): nat {
    var skipped := Pages(n) * PageSize;
    if n < 2 * skipped then n - skipped else skipped
  }

  lemma LeftBound(n: nat)
    ensures Left(n) <= n / 2
    ensures Left(n) == 0 <==> n <= PageSize
  {
  }

  /** The rows left after `runs` runs, none matching in between. */
  function AfterRuns(n: nat, runs: nat): nat {
    if runs == 0 then n else AfterRuns(Left(n), runs - 1)
  }

  function Power2(k: nat): (p: nat)
    ensures p > 0
  {
    if k == 0 then 1 else 2 * Power2(k - 1)
  }

  /** Repeated runs drain the set in logarithmically many runs. */
  lemma {:induction false} RunsDrain(n: nat, k: nat)
    requires n <= PageSize * Power2(k)
    ensures AfterRuns(n, k + 1) == 0
  {
    LeftBound(n);
    if k == 0 {
      assert AfterRuns(n, 1) == AfterRuns(Left(n), 0);
    } else {
      RunsDrain(Left(n), k - 1);
    }
  }

  // ---------- what a sweep may change ----------

  function Matching<T>(rows: set<nat>, table: map<nat, T>): set<nat> {
    set x | x in rows && x in table
  }

  lemma MatchingSize<T>(rows: set<nat>, table: map<nat, T>)
    ensures |Matching(rows, table)| <= |rows|
  {
    SubsetSize(Matching(rows, table), rows);
  }

  /** What can go wrong in a run: listing a page, deleting a row, deleting a folder (which leaves `kept`). */
  datatype Mishaps = Mishaps(list: nat -> bool, row: nat -> bool, folder: nat -> bool, kept: set<Object>)

  predicate NoRowFails(m: Mishaps, rows: set<nat>) {
    forall x :: x in rows ==> !m.row(x)
  }

  function FailedRows(m: Mishaps, rows: set<nat>): set<nat> {
    set x | x in rows && m.row(x)
  }

  /** As Keeps, but for rows whose own delete failed. */
  ghost predicate KeepsBut(after: Rows, before: Rows, uploads: set<nat>, locations: set<nat>) {
    && (forall l :: l in after.locations && l in before.locations && l !in locations
                  ==> Archive(after.locations, after.objects, l) == Archive(before.locations, before.objects, l))
    && (forall u :: u in after.uploads && u in before.uploads && u !in uploads
                  ==> SameFolder(after.objects, before.objects, u))
  }

  /** No object is added or changed. */
  ghost predicate OnlyLess(after: map<Object, Bytes>, before: map<Object, Bytes>) {
    forall o :: o in after ==> o in before && after[o] == before[o]
  }

  /** Some of `rows` are gone from the uploads.  Objects are gone of those and of rows whose delete failed only;
      and none is left of a row that is gone, unless deleting its folder failed. */
  ghost predicate UploadsSwept(after: Rows, before: Rows, rows: set<nat>, m: Mishaps) {
    && after.locations == before.locations && after.entries == before.entries
    && (forall u :: u in after.uploads ==> u in before.uploads && after.uploads[u] == before.uploads[u])
    && (forall u :: u in before.uploads && u !in rows ==> u in after.uploads)
    && OnlyLess(after.objects, before.objects)
    && (forall o :: o in before.objects && o !in after.objects ==> LostToUpload(after, rows, m, o.folder))
    && (forall o :: o in after.objects && o.folder in before.uploads && o.folder !in after.uploads ==>
          m.folder(o.folder))
  }

  predicate LostToUpload(after: Rows, rows: set<nat>, m: Mishaps, folder: nat) {
    folder in rows && (folder in after.uploads ==> m.row(folder))
  }

  /** Some of `rows` are gone from the locations, with them exactly their entries, and their objects. */
  ghost predicate LocationsSwept(after: Rows, before: Rows, rows: set<nat>, m: Mishaps) {
    && after.uploads == before.uploads
    && (forall l :: l in after.locations ==> l in before.locations && after.locations[l] == before.locations[l])
    && (forall l :: l in before.locations && l !in rows ==> l in after.locations)
    && EntriesSwept(after, before)
    && OnlyLess(after.objects, before.objects)
    && (forall o :: o in before.objects && o !in after.objects ==> LostToLocation(after, before, rows, m, o.folder))
    && LocationsCleared(after, before, m)
  }

  ghost predicate EntriesSwept(after: Rows, before: Rows) {
    && (forall e :: e in after.entries <==> (
          && e in before.entries
          && (before.entries[e].location in after.locations || before.entries[e].location !in before.locations)))
    && (forall e :: e in after.entries ==> after.entries[e] == before.entries[e])
  }

  ghost predicate LostToLocation(after: Rows, before: Rows, rows: set<nat>, m: Mishaps, folder: nat) {
    exists l ::
      && l in rows && l in before.locations && before.locations[l].folder == folder
      && (l in after.locations ==> m.row(l))
  }

  ghost predicate LocationsCleared(after: Rows, before: Rows, m: Mishaps) {
    forall l, o ::
      (l in before.locations && l !in after.locations && o in after.objects && o.folder == before.locations[l].folder)
      ==> m.folder(l)
  }

  /** What a failed folder delete of row x leaves. */
  function Kept(m: Mishaps, x: nat): set<Object> {
    if m.folder(x) then m.kept else {}
  }

  // ---------- one row ----------

  /** One upload of a page: its row, unless that fails, and its folder. */
  function SweepUpload(r: Rows, u: nat, m: Mishaps): Rows {
    r.(uploads := if m.row(u) then r.uploads else r.uploads - {u}, objects := DropFolder(r.objects, u, Kept(m, u)))
  }

  lemma SweepUploadStep(r: Rows, before: Rows, rows: set<nat>, m: Mishaps, u: nat)
    requires UploadsSwept(r, before, rows, m) && u in rows && u in r.uploads
    ensures UploadsSwept(SweepUpload(r, u, m), before, rows, m)
    ensures !m.row(u) ==> |Matching(rows, SweepUpload(r, u, m).uploads)| == |Matching(rows, r.uploads)| - 1
  {
    assert Matching(rows, r.uploads - {u}) == Matching(rows, r.uploads) - {u};
  }

  /** One location of a page. */
  function SweepLocation(r: Rows, l: nat, m: Mishaps, folder: nat): Rows {
    (if m.row(l) then r else DropLocation(r, l)).(objects := DropFolder(r.objects, folder, Kept(m, l)))
  }

  lemma SweepLocationStep(r: Rows, before: Rows, rows: set<nat>, m: Mishaps, l: nat)
    requires LocationsSwept(r, before, rows, m) && l in rows && l in r.locations
    ensures
      var s := SweepLocation(r, l, m, r.locations[l].folder);
      && LocationsSwept(s, before, rows, m)
      && (!m.row(l) ==> |Matching(rows, s.locations)| == |Matching(rows, r.locations)| - 1)
  {
    hide LocationsCleared, LostToLocation, EntriesSwept;
    var s := SweepLocation(r, l, m, r.locations[l].folder);
    SweepLocationObjects(r, before, rows, m, l);
    SweepLocationClears(r, before, l, m);
    SweepLocationEntries(r, before, l, m);
    assert Matching(rows, r.locations - {l}) == Matching(rows, r.locations) - {l};
  }

  lemma SweepLocationEntries(r: Rows, before: Rows, l: nat, m: Mishaps)
    requires EntriesSwept(r, before) && l in r.locations && l in before.locations
    ensures EntriesSwept(SweepLocation(r, l, m, r.locations[l].folder), before)
  {
  }

  lemma SweepLocationClears(r: Rows, before: Rows, l: nat, m: Mishaps)
    requires LocationsCleared(r, before, m) && l in r.locations && l in before.locations
    requires r.locations[l] == before.locations[l]
    ensures LocationsCleared(SweepLocation(r, l, m, r.locations[l].folder), before, m)
  {
  }

  lemma SweepLocationObjects(r: Rows, before: Rows, rows: set<nat>, m: Mishaps, l: nat)
    requires l in rows && l in r.locations && l in before.locations && r.locations[l] == before.locations[l]
    requires forall o :: o in before.objects && o !in r.objects ==> LostToLocation(r, before, rows, m, o.folder)
    ensures
      var s := SweepLocation(r, l, m, r.locations[l].folder);
      forall o :: o in before.objects && o !in s.objects ==> LostToLocation(s, before, rows, m, o.folder)
  {
    var s := SweepLocation(r, l, m, r.locations[l].folder);
    forall o | o in before.objects && o !in s.objects ensures LostToLocation(s, before, rows, m, o.folder) {
      if o !in r.objects {
        var k :| k in rows && k in before.locations && before.locations[k].folder == o.folder
              && (k in r.locations ==> m.row(k));
        assert k in s.locations ==> k in r.locations;
      } else {
        assert before.locations[l].folder == o.folder;
      }
    }
  }

  // ---------- what survivors keep ----------

  lemma UnsharedUpload(after: Rows, before: Rows, rows: set<nat>, m: Mishaps, folder: nat)
    requires UploadsSwept(after, before, rows, m) && (folder in rows ==> folder in after.uploads && !m.row(folder))
    ensures SameFolder(after.objects, before.objects, folder)
  {
  }

  /** A survivor keeps its archive and its objects if folders are not shared and its own delete did not fail. */
  lemma UploadsSweptOwned(after: Rows, before: Rows, rows: set<nat>, m: Mishaps)
    requires Owned(before) && rows <= before.uploads.Keys && UploadsSwept(after, before, rows, m)
    ensures Owned(after) && KeepsBut(after, before, FailedRows(m, rows), {})
  {
    hide Archive, SameFolder, LostToUpload;
    forall l | l in after.locations && l in before.locations
      ensures Archive(after.locations, after.objects, l) == Archive(before.locations, before.objects, l)
    {
      UnsharedUpload(after, before, rows, m, before.locations[l].folder);
      SameArchive(after.locations, after.objects, before.locations, before.objects, l);
    }
    forall u | u in after.uploads && u in before.uploads && u !in FailedRows(m, rows)
      ensures SameFolder(after.objects, before.objects, u)
    {
      UnsharedUpload(after, before, rows, m, u);
    }
  }

  lemma UnsharedLocation(after: Rows, before: Rows, rows: set<nat>, m: Mishaps, folder: nat)
    requires LocationsSwept(after, before, rows, m)
    requires forall l :: l in rows && l in before.locations && before.locations[l].folder == folder
                         ==> l in after.locations && !m.row(l)
    ensures SameFolder(after.objects, before.objects, folder)
  {
    assert !LostToLocation(after, before, rows, m, folder);
  }

  lemma LocationsSweptOwned(after: Rows, before: Rows, rows: set<nat>, m: Mishaps)
    requires Owned(before) && LocationsSwept(after, before, rows, m)
    ensures Owned(after) && KeepsBut(after, before, {}, FailedRows(m, rows))
  {
    LocationsSweptTables(after, before, rows, m);
    hide Archive, SameFolder, LostToLocation, LocationsCleared, LocationsSwept, Keyed;
    forall k | k in after.locations && k in before.locations && k !in FailedRows(m, rows)
      ensures Archive(after.locations, after.objects, k) == Archive(before.locations, before.objects, k)
    {
      UnsharedLocation(after, before, rows, m, before.locations[k].folder);
      SameArchive(after.locations, after.objects, before.locations, before.objects, k);
    }
    forall u | u in after.uploads && u in before.uploads ensures SameFolder(after.objects, before.objects, u) {
      UnsharedLocation(after, before, rows, m, u);
    }
  }

  lemma LocationsSweptTables(after: Rows, before: Rows, rows: set<nat>, m: Mishaps)
    requires Owned(before) && LocationsSwept(after, before, rows, m)
    ensures Owned(after) && after.uploads == before.uploads
    ensures forall l :: l in after.locations ==> l in before.locations && after.locations[l] == before.locations[l]
  {
    hide LocationsCleared, LostToLocation, OnlyLess;
  }

  /** A sweep in which no row's delete failed leaves every surviving row all it had. */
  lemma SweptKeeps(after: Rows, before: Rows, rows: set<nat>, m: Mishaps)
    requires Owned(before) && NoRowFails(m, rows)
    requires || (rows <= before.uploads.Keys && UploadsSwept(after, before, rows, m))
             || LocationsSwept(after, before, rows, m)
    ensures Owned(after) && Keeps(after, before)
  {
    hide UploadsSwept, LocationsSwept, Owned;
    assert FailedRows(m, rows) == {};
    if LocationsSwept(after, before, rows, m) {
      LocationsSweptOwned(after, before, rows, m);
    } else {
      UploadsSweptOwned(after, before, rows, m);
    }
  }

  // ---------- what shared folders cost ----------

  lemma NothingLeft(locations: map<nat, Location>, objects: map<Object, Bytes>, l: nat)
    requires l in locations && locations[l].partCount > 0 && forall o :: o in objects ==>
      o.folder != locations[l].folder
    ensures Archive(locations, objects, l).None?
  {
    assert 0 !in Parts(objects, locations[l].folder);
    assert !HasFirst(Parts(objects, locations[l].folder), locations[l].partCount);
  }

  /** The upload row that a late failure of CompleteUpload leaves shares its folder with the new location.  Once
      CleanupUploads has removed the row, the location has lost its archive: after a run that leaves no stale
      row, whatever else happened in it, if deleting the folder did not fail. */
  lemma LateFailureLosesArchive(after: Rows, before: Rows, threshold: int, m: Mishaps, l: nat)
    requires UploadsSwept(after, before, StaleUploads(before.uploads, threshold), m)
    requires StaleUploads(after.uploads, threshold) == {}
    requires l in before.locations && before.locations[l].partCount > 0
    requires before.locations[l].folder in StaleUploads(before.uploads, threshold)
    requires !m.folder(before.locations[l].folder)
    ensures l in after.locations && Archive(after.locations, after.objects, l).None?
  {
    var u := before.locations[l].folder;
    assert u in after.uploads ==> u in StaleUploads(after.uploads, threshold);
    NothingLeft(after.locations, after.objects, l);
  }

  /** A location without an entry that shares its folder, as a retry after a late failure leaves it: sweeping it
      empties the other one's archive. */
  lemma SharedFolderLosesArchive(after: Rows, before: Rows, rows: set<nat>, m: Mishaps, l: nat, k: nat)
    requires LocationsSwept(after, before, rows, m)
    requires l in before.locations && l !in after.locations && !m.folder(l)
    requires k in after.locations && before.locations[k].folder == before.locations[l].folder
    requires before.locations[k].partCount > 0
    ensures Archive(after.locations, after.objects, k).None?
  {
    NothingLeft(after.locations, after.objects, k);
  }

  // ---------- the rows a sweep selects are those it selected at first and has not removed ----------

  lemma StaleAre(after: Rows, before: Rows, threshold: int, m: Mishaps)
    requires UploadsSwept(after, before, StaleUploads(before.uploads, threshold), m)
    ensures StaleUploads(after.uploads, threshold) == Matching(StaleUploads(before.uploads, threshold), after.uploads)
  {
  }

  lemma ExpiredAre(after: Rows, before: Rows, threshold: int, m: Mishaps)
    requires LocationsSwept(after, before, ExpiredLocations(before.locations, threshold), m)
    ensures ExpiredLocations(after.locations, threshold)
           == Matching(ExpiredLocations(before.locations, threshold), after.locations)
  {
  }

  lemma OrphanedAre(after: Rows, before: Rows, m: Mishaps)
    requires LocationsSwept(after, before, OrphanedLocations(before.locations, before.entries), m)
    ensures OrphanedLocations(after.locations, after.entries)
           == Matching(OrphanedLocations(before.locations, before.entries), after.locations)
  {
    forall l | l in after.locations
      ensures l in OrphanedLocations(after.locations, after.entries)
             <==> l in OrphanedLocations(before.locations, before.entries)
    {
      if l !in OrphanedLocations(before.locations, before.entries) {
        var e :| e in before.entries && before.entries[e].location == l;
        assert e in after.entries;
      }
    }
  }

  lemma NoUploadSwept(r: Rows, threshold: int, m: Mishaps)
    ensures
      var rows := StaleUploads(r.uploads, threshold);
      UploadsSwept(r, r, rows, m) && Matching(rows, r.uploads) == rows
  {
  }

  lemma NoLocationSwept(r: Rows, rows: set<nat>, m: Mishaps)
    requires rows <= r.locations.Keys
    ensures LocationsSwept(r, r, rows, m) && Matching(rows, r.locations) == rows
  {
  }

  lemma NoExpiredSwept(r: Rows, threshold: int, m: Mishaps)
    ensures
      var rows := ExpiredLocations(r.locations, threshold);
      LocationsSwept(r, r, rows, m) && Matching(rows, r.locations) == rows
  {
    NoLocationSwept(r, ExpiredLocations(r.locations, threshold), m);
  }

  lemma NoOrphanSwept(r: Rows, m: Mishaps)
    ensures
      var rows := OrphanedLocations(r.locations, r.entries);
      LocationsSwept(r, r, rows, m) && Matching(rows, r.locations) == rows
  {
    NoLocationSwept(r, OrphanedLocations(r.locations, r.entries), m);
  }

  lemma Listed(listed: seq<nat>, rows: set<nat>, page: nat)
    requires IsPage(listed, rows, PageSize, page * PageSize)
    ensures Distinct(listed) && |listed| == ListedSize(|rows|, page)
    ensures forall i :: 0 <= i < |listed| ==> listed[i] in rows
    ensures |listed| <= PageSize && (|listed| == PageSize ==> page * PageSize < |rows|)
  {
  }

  /** How many of the rows are on the page. */
  function ListedSize(rows: nat, page: nat): nat {
    if rows <= page * PageSize then 0
    else if rows - page * PageSize < PageSize then rows - page * PageSize
    else PageSize
  }

  lemma FirstTurn(n: nat)
    ensures Turns(0, n, n)
  {
  }

  lemma NextTurn(page: nat, n: nat, left: nat)
    requires Turns(page, n, left) && ListedSize(left, page) == PageSize
    ensures Turns(page + 1, n, left - PageSize)
  {
  }

  /** A full page was read at every turn so far. */
  predicate Turns(page: nat, n: nat, left: nat) {
    left == n - page * PageSize && (page > 0 ==> n >= (2 * page - 1) * PageSize)
  }

  lemma LastTurn(page: nat, n: nat, left: nat, listed: nat)
    requires Turns(page, n, left) && listed < PageSize
    requires listed == ListedSize(left, page)
    ensures left - listed == Left(n)
  {
    assert Pages(n) == page;
  }

  // ---------- the sweeps ----------

  method CleanupUploads(s: Service, disabled: bool, threshold: int, m: Mishaps) returns (ok: bool)
    modifies s.q, s.adapter
    ensures disabled ==> ok && s.View() == old(s.View())
    ensures UploadsSwept(s.View(), old(s.View()), StaleUploads(old(s.q.uploads), threshold), m)
    ensures !ok ==> exists page: nat :: m.list(page)
    ensures ok && !disabled && NoRowFails(m, StaleUploads(old(s.q.uploads), threshold))
            ==> |StaleUploads(s.q.uploads, threshold)| == Left(|StaleUploads(old(s.q.uploads), threshold)|)
  {
    hide UploadsSwept, Owned, StaleUploads, Left, IsPage, Turns, FailedRows, Matching, ListedSize, Distinct;
    ghost var before, rows := s.View(), StaleUploads(s.q.uploads, threshold);
    NoUploadSwept(before, threshold, m);
    FirstTurn(|rows|);
    if disabled {
      return true;
    }
    var page := 0;
    while true
      invariant UploadsSwept(s.View(), before, rows, m)
      invariant NoRowFails(m, rows) ==> Turns(page, |rows|, |Matching(rows, s.q.uploads)|)
      invariant page > 0 ==> (page - 1) * PageSize < |rows|
      decreases |rows| + PageSize - page * PageSize
    {
      if m.list(page) {
        return false;
      }
      StaleAre(s.View(), before, threshold, m);
      ghost var left := Matching(rows, s.q.uploads);
      MatchingSize(rows, s.q.uploads);
      var ups := List(StaleUploads(s.q.uploads, threshold), PageSize, page * PageSize);
      Listed(ups, left, page);
      DropUploads(s, ups, m, before, rows);
      if |ups| < PageSize {
        StaleAre(s.View(), before, threshold, m);
        if NoRowFails(m, rows) {
          LastTurn(page, |rows|, |left|, |ups|);
        }
        return true;
      }
      if NoRowFails(m, rows) {
        NextTurn(page, |rows|, |left|);
      }
      page := page + 1;
    }
  }

  /** The uploads of one page. */
  method DropUploads(s: Service, ups: seq<nat>, m: Mishaps, ghost before: Rows, ghost rows: set<nat>)
    requires UploadsSwept(s.View(), before, rows, m)
    requires Distinct(ups) && forall i :: 0 <= i < |ups| ==> ups[i] in Matching(rows, s.q.uploads)
    modifies s.q, s.adapter
    ensures UploadsSwept(s.View(), before, rows, m)
    ensures NoRowFails(m, rows) ==> |Matching(rows, s.q.uploads)| == |Matching(rows, old(s.q.uploads))| - |ups|
  {
    hide UploadsSwept, DropFolder, Owned;
    var j := 0;
    while j < |ups|
      invariant 0 <= j <= |ups|
      invariant UploadsSwept(s.View(), before, rows, m)
      invariant forall i :: j <= i < |ups| ==> ups[i] in rows && ups[i] in s.q.uploads
      invariant NoRowFails(m, rows) ==> |Matching(rows, s.q.uploads)| == |Matching(rows, old(s.q.uploads))| - j
    {
      ghost var was := s.View();
      if !m.row(ups[j]) {
        s.q.DeleteUpload(ups[j]);
      }
      var done := s.adapter.DeleteFolder(ups[j], m.folder(ups[j]), m.kept);
      SweepUploadStep(was, before, rows, m, ups[j]);
      j := j + 1;
    }
  }

  /** Expired locations go, and by cascade the entries they serve. */
  method CleanupCacheEntries(s: Service, disabled: bool, threshold: int, m: Mishaps) returns (ok: bool)
    modifies s.q, s.adapter
    ensures disabled ==> ok && s.View() == old(s.View())
    ensures LocationsSwept(s.View(), old(s.View()), ExpiredLocations(old(s.q.locations), threshold), m)
    ensures !ok ==> exists page: nat :: m.list(page)
    ensures ok && !disabled && NoRowFails(m, ExpiredLocations(old(s.q.locations), threshold))
            ==> |ExpiredLocations(s.q.locations, threshold)| == Left(|ExpiredLocations(old(s.q.locations), threshold)|)
  {
    hide LocationsSwept, Owned, ExpiredLocations, OrphanedLocations, Left, IsPage, Turns, FailedRows, Matching;
    hide ListedSize, Distinct;
    ghost var before, rows := s.View(), ExpiredLocations(s.q.locations, threshold);
    NoExpiredSwept(before, threshold, m);
    FirstTurn(|rows|);
    if disabled {
      return true;
    }
    var page := 0;
    while true
      invariant LocationsSwept(s.View(), before, rows, m)
      invariant NoRowFails(m, rows) ==> Turns(page, |rows|, |Matching(rows, s.q.locations)|)
      invariant page > 0 ==> (page - 1) * PageSize < |rows|
      decreases |rows| + PageSize - page * PageSize
    {
      if m.list(page) {
        return false;
      }
      ExpiredAre(s.View(), before, threshold, m);
      ghost var left := Matching(rows, s.q.locations);
      MatchingSize(rows, s.q.locations);
      var locs := List(ExpiredLocations(s.q.locations, threshold), PageSize, page * PageSize);
      Listed(locs, left, page);
      DropLocations(s, locs, m, before, rows);
      if |locs| < PageSize {
        ExpiredAre(s.View(), before, threshold, m);
        if NoRowFails(m, rows) {
          LastTurn(page, |rows|, |left|, |locs|);
        }
        return true;
      }
      if NoRowFails(m, rows) {
        NextTurn(page, |rows|, |left|);
      }
      page := page + 1;
    }
  }

  /** Locations that serve no entry go; no entry goes with them. */
  method CleanupStorageLocations(s: Service, disabled: bool, m: Mishaps) returns (ok: bool)
    modifies s.q, s.adapter
    ensures disabled ==> ok && s.View() == old(s.View())
    ensures LocationsSwept(s.View(), old(s.View()), OrphanedLocations(old(s.q.locations), old(s.q.entries)), m)
    ensures !ok ==> exists page: nat :: m.list(page)
    ensures ok && !disabled && NoRowFails(m, OrphanedLocations(old(s.q.locations), old(s.q.entries)))
            ==> |OrphanedLocations(s.q.locations, s.q.entries)|
                == Left(|OrphanedLocations(old(s.q.locations), old(s.q.entries))|)
  {
    hide LocationsSwept, Owned, ExpiredLocations, OrphanedLocations, Left, IsPage, Turns, FailedRows, Matching;
    hide ListedSize, Distinct;
    ghost var before, rows := s.View(), OrphanedLocations(s.q.locations, s.q.entries);
    NoOrphanSwept(before, m);
    FirstTurn(|rows|);
    if disabled {
      return true;
    }
    var page := 0;
    while true
      invariant LocationsSwept(s.View(), before, rows, m)
      invariant NoRowFails(m, rows) ==> Turns(page, |rows|, |Matching(rows, s.q.locations)|)
      invariant page > 0 ==> (page - 1) * PageSize < |rows|
      decreases |rows| + PageSize - page * PageSize
    {
      if m.list(page) {
        return false;
      }
      OrphanedAre(s.View(), before, m);
      ghost var left := Matching(rows, s.q.locations);
      MatchingSize(rows, s.q.locations);
      var locs := List(OrphanedLocations(s.q.locations, s.q.entries), PageSize, page * PageSize);
      Listed(locs, left, page);
      DropLocations(s, locs, m, before, rows);
      if |locs| < PageSize {
        OrphanedAre(s.View(), before, m);
        if NoRowFails(m, rows) {
          LastTurn(page, |rows|, |left|, |locs|);
        }
        return true;
      }
      if NoRowFails(m, rows) {
        NextTurn(page, |rows|, |left|);
      }
      page := page + 1;
    }
  }

  /** The locations of one page. */
  method DropLocations(s: Service, locs: seq<nat>, m: Mishaps, ghost before: Rows, ghost rows: set<nat>)
    requires LocationsSwept(s.View(), before, rows, m)
    requires Distinct(locs) && forall i :: 0 <= i < |locs| ==> locs[i] in Matching(rows, s.q.locations)
    modifies s.q, s.adapter
    ensures LocationsSwept(s.View(), before, rows, m)
    ensures NoRowFails(m, rows) ==> |Matching(rows, s.q.locations)| == |Matching(rows, old(s.q.locations))| - |locs|
  {
    hide LocationsSwept, DropFolder, Owned;
    var j := 0;
    while j < |locs|
      invariant 0 <= j <= |locs|
      invariant LocationsSwept(s.View(), before, rows, m)
      invariant forall i :: j <= i < |locs| ==> locs[i] in rows && locs[i] in s.q.locations
      invariant NoRowFails(m, rows) ==> |Matching(rows, s.q.locations)| == |Matching(rows, old(s.q.locations))| - j
    {
      ghost var was := s.View();
      var folder := s.q.locations[locs[j]].folder;
      if !m.row(locs[j]) {
        s.q.DeleteStorageLocation(locs[j]);
      }
      var done := s.adapter.DeleteFolder(folder, m.folder(locs[j]), m.kept);
      assert s.View() == SweepLocation(was, locs[j], m, folder);
      SweepLocationStep(was, before, rows, m, locs[j]);
      j := j + 1;
    }
  }

  /** A sweep of orphaned locations removes no entry. */
  lemma OrphansHaveNoEntries(after: Rows, before: Rows, m: Mishaps)
    requires LocationsSwept(after, before, OrphanedLocations(before.locations, before.entries), m)
    ensures after.entries == before.entries
  {
    hide LocationsCleared, LostToLocation, OnlyLess;
    forall e | e in before.entries ensures e in after.entries {
      assert before.entries[e].location !in OrphanedLocations(before.locations, before.entries);
    }
  }

  // ---------- CleanupParts and CleanupMerges ----------

  /** Some of `rows` are marked, and their parts are gone, unless deleting them failed; nothing else is. */
  ghost predicate PartsSwept(after: Rows, before: Rows, rows: set<nat>, now: int, m: Mishaps) {
    && after.uploads == before.uploads && after.entries == before.entries
    && after.locations.Keys == before.locations.Keys
    && (forall l :: l in before.locations && l in after.locations && after.locations[l] != before.locations[l]
                  ==> l in rows && after.locations[l] == before.locations[l].(partsDeletedAt := Some(now)))
    && OnlyLess(after.objects, before.objects)
    && (forall o :: o in before.objects && o !in after.objects ==> o.Part? && LostToMerge(before, rows, o.folder))
    && PartsCleared(after, before, m)
  }

  ghost predicate LostToMerge(before: Rows, rows: set<nat>, folder: nat) {
    exists l :: l in rows && l in before.locations && before.locations[l].folder == folder
  }

  ghost predicate PartsCleared(after: Rows, before: Rows, m: Mishaps) {
    forall l, o ::
      (l in before.locations && l in after.locations && after.locations[l] != before.locations[l]
       && o in after.objects && o.Part? && o.folder == before.locations[l].folder)
      ==> m.folder(l)
  }

  /** Nobody can tell from the archives, if folders are not shared: a merged archive is not made of its parts. */
  lemma PartsSweptOwned(after: Rows, before: Rows, now: int, m: Mishaps)
    requires Owned(before) && PartsSwept(after, before, MergedNotCleaned(before.locations), now, m)
    ensures Owned(after) && Keeps(after, before)
  {
    hide PartsCleared, Archive, LostToMerge;
    forall k | k in after.locations && k in before.locations
      ensures Archive(after.locations, after.objects, k) == Archive(before.locations, before.objects, k)
    {
      if k in MergedNotCleaned(before.locations) {
        SameMerged(after, before, now, m, k);
      } else {
        PartsUnshared(after, before, now, m, before.locations[k].folder);
        SameArchive(after.locations, after.objects, before.locations, before.objects, k);
      }
    }
    forall u | u in after.uploads && u in before.uploads ensures SameFolder(after.objects, before.objects, u) {
      PartsUnshared(after, before, now, m, u);
    }
  }

  lemma SameMerged(after: Rows, before: Rows, now: int, m: Mishaps, k: nat)
    requires PartsSwept(after, before, MergedNotCleaned(before.locations), now, m)
    requires k in MergedNotCleaned(before.locations) && k in after.locations
    ensures Archive(after.locations, after.objects, k) == Archive(before.locations, before.objects, k)
  {
    MergedArchive(before, k);
    MergedArchive(after, k);
  }

  lemma PartsUnshared(after: Rows, before: Rows, now: int, m: Mishaps, folder: nat)
    requires PartsSwept(after, before, MergedNotCleaned(before.locations), now, m)
    requires forall l :: l in MergedNotCleaned(before.locations) ==> before.locations[l].folder != folder
    ensures SameFolder(after.objects, before.objects, folder)
  {
    assert !LostToMerge(before, MergedNotCleaned(before.locations), folder);
  }

  function CleanParts(r: Rows, l: nat, now: int, kept: set<Object>): Rows
    requires l in r.locations
  {
    r.(locations := r.locations[l := r.locations[l].(partsDeletedAt := Some(now))],
       objects := DropParts(r.objects, r.locations[l].folder, kept))
  }

  lemma CleanPartsSet(r: Rows, l: nat, now: int, kept: set<Object>)
    requires l in MergedNotCleaned(r.locations)
    ensures MergedNotCleaned(CleanParts(r, l, now, kept).locations) == MergedNotCleaned(r.locations) - {l}
    ensures CleanParts(r, l, now, kept).locations.Keys == r.locations.Keys
  {
  }

  lemma CleanPartsObjects(r: Rows, before: Rows, rows: set<nat>, l: nat, now: int, m: Mishaps)
    requires OnlyLess(r.objects, before.objects) && PartsCleared(r, before, m)
    requires forall o :: o in before.objects && o !in r.objects ==> o.Part? && LostToMerge(before, rows, o.folder)
    requires l in rows && l in r.locations && l in before.locations
    requires r.locations[l].folder == before.locations[l].folder
    ensures
      var s := CleanParts(r, l, now, Kept(m, l));
      && OnlyLess(s.objects, before.objects) && PartsCleared(s, before, m)
      && forall o :: o in before.objects && o !in s.objects ==> o.Part? && LostToMerge(before, rows, o.folder)
  {
  }

  lemma CleanPartsStep(r: Rows, before: Rows, rows: set<nat>, l: nat, now: int, m: Mishaps)
    requires PartsSwept(r, before, rows, now, m) && l in rows && l in MergedNotCleaned(r.locations)
    ensures PartsSwept(CleanParts(r, l, now, Kept(m, l)), before, rows, now, m)
    ensures MergedNotCleaned(CleanParts(r, l, now, Kept(m, l)).locations) == MergedNotCleaned(r.locations) - {l}
  {
    hide PartsCleared, OnlyLess, LostToMerge, DropParts, Kept;
    CleanPartsSet(r, l, now, Kept(m, l));
    assert l in before.locations.Keys && r.locations[l].folder == before.locations[l].folder;
    CleanPartsObjects(r, before, rows, l, now, m);
  }

  lemma MergedAre(r: Rows, before: Rows, now: int, m: Mishaps)
    requires PartsSwept(r, before, MergedNotCleaned(before.locations), now, m)
    ensures MergedNotCleaned(r.locations) <= MergedNotCleaned(before.locations)
    ensures |MergedNotCleaned(r.locations)| <= |MergedNotCleaned(before.locations)|
  {
    forall l | l in MergedNotCleaned(r.locations) ensures l in MergedNotCleaned(before.locations) {
      assert l in r.locations.Keys;
    }
    SubsetSize(MergedNotCleaned(r.locations), MergedNotCleaned(before.locations));
  }

  lemma NothingCleaned(r: Rows, rows: set<nat>, now: int, m: Mishaps)
    ensures PartsSwept(r, r, rows, now, m)
  {
  }

  /** Unlike the other sweeps, this one stops at the first failure. */
  method CleanupParts(s: Service, disabled: bool, now: int, m: Mishaps) returns (ok: bool)
    modifies s.q, s.adapter
    ensures disabled ==> ok && s.View() == old(s.View())
    ensures PartsSwept(s.View(), old(s.View()), MergedNotCleaned(old(s.q.locations)), now, m)
    ensures !ok ==>
      || (exists page: nat :: m.list(page))
      || exists l :: l in MergedNotCleaned(old(s.q.locations)) && (m.row(l) || m.folder(l))
    ensures ok && !disabled ==> |MergedNotCleaned(s.q.locations)| == Left(|MergedNotCleaned(old(s.q.locations))|)
  {
    hide PartsSwept, Owned, Keeps, MergedNotCleaned, Left, IsPage, Turns, ListedSize, Distinct;
    ghost var before, rows := s.View(), MergedNotCleaned(s.q.locations);
    NothingCleaned(before, rows, now, m);
    FirstTurn(|rows|);
    if disabled {
      return true;
    }
    var page := 0;
    while true
      invariant PartsSwept(s.View(), before, rows, now, m)
      invariant Turns(page, |rows|, |MergedNotCleaned(s.q.locations)|)
      invariant page > 0 ==> (page - 1) * PageSize < |rows|
      decreases |rows| + PageSize - page * PageSize
    {
      if m.list(page) {
        return false;
      }
      MergedAre(s.View(), before, now, m);
      ghost var left := MergedNotCleaned(s.q.locations);
      var locs := List(MergedNotCleaned(s.q.locations), PageSize, page * PageSize);
      Listed(locs, left, page);
      assert forall i :: 0 <= i < |locs| ==> locs[i] in rows;
      var done := CleanPage(s, locs, now, m, before, rows);
      if !done {
        return false;
      }
      if |locs| < PageSize {
        LastTurn(page, |rows|, |left|, |locs|);
        return true;
      }
      NextTurn(page, |rows|, |left|);
      page := page + 1;
    }
  }

  method CleanPage(s: Service, locs: seq<nat>, now: int, m: Mishaps, ghost before: Rows, ghost rows: set<nat>)
    returns (ok: bool)
    requires PartsSwept(s.View(), before, rows, now, m)
    requires Distinct(locs) && forall i :: 0 <= i < |locs| ==>
      locs[i] in MergedNotCleaned(s.q.locations) && locs[i] in rows
    modifies s.q, s.adapter
    ensures PartsSwept(s.View(), before, rows, now, m)
    ensures !ok ==> exists l :: l in rows && (m.row(l) || m.folder(l))
    ensures ok ==> |MergedNotCleaned(s.q.locations)| == |MergedNotCleaned(old(s.q.locations))| - |locs|
  {
    hide PartsSwept, DropParts;
    var j := 0;
    while j < |locs|
      invariant 0 <= j <= |locs|
      invariant PartsSwept(s.View(), before, rows, now, m)
      invariant forall i :: j <= i < |locs| ==> locs[i] in rows && locs[i] in MergedNotCleaned(s.q.locations)
      invariant |MergedNotCleaned(s.q.locations)| == |MergedNotCleaned(old(s.q.locations))| - j
    {
      ghost var was := s.View();
      if m.row(locs[j]) {
        return false;
      }
      var folder := s.q.locations[locs[j]].folder;
      s.q.UpdateStoragePartsDeleted(locs[j], now);
      ok := s.adapter.DeleteParts(folder, m.folder(locs[j]), m.kept);
      CleanPartsStep(was, before, rows, locs[j], now, m);
      if !ok {
        return;
      }
      j := j + 1;
    }
    ok := true;
  }

  /** The only step that takes a location back from started to none; archives do not depend on it. */
  method CleanupMerges(s: Service, disabled: bool, threshold: int)
    modifies s.q
    ensures disabled ==> s.View() == old(s.View())
    ensures Owned(old(s.View())) ==> Owned(s.View())
    ensures Keeps(s.View(), old(s.View()))
    ensures s.q.locations.Keys == old(s.q.locations.Keys)
    ensures !disabled ==> StalledMerges(s.q.locations, threshold) == {}
    ensures forall l :: l in s.q.locations && (disabled || l !in StalledMerges(old(s.q.locations), threshold))
              ==> (s.q.locations[l] == old(s.q.locations)[l])
    ensures forall l :: l in s.q.locations ==> s.q.locations[l].mergedAt == old(s.q.locations)[l].mergedAt
  {
    ghost var before := s.View();
    if !disabled {
      var affected := s.q.ResetStalledMerges(threshold);
    }
    ResetKeeps(before, s.View());
  }

  lemma ResetKeeps(before: Rows, after: Rows)
    requires after == before.(locations := after.locations) && after.locations.Keys == before.locations.Keys
    requires forall l :: l in before.locations && l in after.locations ==>
      after.locations[l] == before.locations[l].(mergeStartedAt := after.locations[l].mergeStartedAt)
    ensures Keeps(after, before) && (Owned(before) ==> Owned(after))
  {
  }
}
