/** The database: three tables and the statements the service runs against them, each taken as atomic. */
module Queries {
  import opened Like
  import opened Types

  // ---------- what queries select ----------

  /** The rows that FindExactCacheEntry chooses from. */
  function Exact(entries: map<nat, Entry>, key: Key): set<nat> {
    set e | e in entries && entries[e].key == key
  }

  /** The rows whose key matches the pattern built from key.key, the rest of key being equal. */
  function Prefixed(entries: map<nat, Entry>, fold: char -> char, key: Key): set<nat> {
    set e | e in entries && Matches(fold, EscapeLike(key.key) + "%", entries[e].key.key)
            && entries[e].key == key.(key := entries[e].key.key)
  }

  /** ORDER BY updatedAt DESC LIMIT 1 over the candidates. */
  ghost predicate IsNewest(entries: map<nat, Entry>, candidates: set<nat>, r: Option<nat>) {
    match r
    case None => candidates == {}
    case Some(e) =>
      && e in candidates && e in entries
      && forall d :: d in candidates && d in entries ==> entries[d].updatedAt <= entries[e].updatedAt
  }

  /** One page of a query without ORDER BY: some `limit` rows that remain after some `offset` rows, whatever
      order the database returns them in. */
  ghost predicate IsPage(page: seq<nat>, rows: set<nat>, limit: nat, offset: nat) {
    && Distinct(page) && (forall x :: x in page ==> x in rows)
    && |page| == if |rows| <= offset then 0 else if |rows| - offset < limit then |rows| - offset else limit
  }

  function StaleUploads(uploads: map<nat, Upload>, before: int): set<nat> {
    set u | u in uploads && (uploads[u].lastPartUploadedAt.Some? ==> uploads[u].lastPartUploadedAt.value < before)
            && uploads[u].createdAt < before
  }

  function ExpiredLocations(locations: map<nat, Location>, before: int): set<nat> {
    set l | l in locations && locations[l].lastDownloadedAt.Some? && locations[l].lastDownloadedAt.value < before
  }

  function OrphanedLocations(locations: map<nat, Location>, entries: map<nat, Entry>): set<nat> {
    set l | l in locations && forall e | e in entries :: entries[e].location != l
  }

  function MergedNotCleaned(locations: map<nat, Location>): set<nat> {
    set l | l in locations && locations[l].mergedAt.Some? && locations[l].partsDeletedAt.None?
  }

  function StalledMerges(locations: map<nat, Location>, before: int): set<nat> {
    set l | l in locations && locations[l].mergedAt.None?
            && locations[l].mergeStartedAt.Some? && locations[l].mergeStartedAt.value < before
  }

  /** Entries that may be evicted: no merge of their location is in flight. */
  function Evictable(entries: map<nat, Entry>, locations: map<nat, Location>): set<nat> {
    set e | e in entries && entries[e].location in locations
            && !(locations[entries[e].location].mergeStartedAt.Some? && locations[entries[e].location].mergedAt.None?)
  }

  /** COALESCE(lastDownloadedAt, updatedAt), for the rows of the join. */
  function LastUse(entries: map<nat, Entry>, locations: map<nat, Location>, e: nat): int {
    if e in entries && entries[e].location in locations then
      var r := locations[entries[e].location];
      if r.lastDownloadedAt.Some? then r.lastDownloadedAt.value else entries[e].updatedAt
    else 0
  }

  /** The `limit` least recently used rows, oldest first. */
  ghost predicate IsLRU(q: seq<nat>, entries: map<nat, Entry>, locations: map<nat, Location>, limit: nat) {
    var rows := Evictable(entries, locations);
    && Distinct(q) && (forall x :: x in q ==> x in rows)
    && |q| == (if |rows| < limit then |rows| else limit)
    && (forall i, j :: 0 <= i < j < |q| ==> LastUse(entries, locations, q[i]) <= LastUse(entries, locations, q[j]))
    && (forall i, e :: 0 <= i < |q| && e in rows && e !in q ==>
          LastUse(entries, locations, q[i]) <= LastUse(entries, locations, e))
  }

  // ---------- the tables ----------

  class Queries {
    var uploads: map<nat, Upload>
    var locations: map<nat, Location>
    var entries: map<nat, Entry>
    /** How the database compares characters in LIKE. */
    const fold: char -> char

    constructor (fold: char -> char)
      ensures uploads == map[] && locations == map[] && entries == map[] && this.fold == fold
    {
      uploads, locations, entries := map[], map[], map[];
      this.fold := fold;
    }

    // ----- uploads -----

    /** Fails when the id is taken: it is the primary key. */
    method InsertUpload(id: nat, row: Upload) returns (ok: bool)
      modifies this`uploads
      ensures ok <==> id !in old(uploads)
      ensures uploads == if ok then old(uploads)[id := row] else old(uploads)
    {
      ok := id !in uploads;
      if ok {
        uploads := uploads[id := row];
      }
    }

    method FindUploadByKey(key: Key) returns (r: Option<nat>)
      ensures r.Some? ==> r.value in uploads && uploads[r.value].key == key
      ensures r.None? ==> forall u :: u in uploads ==> uploads[u].key != key
    {
      if exists u :: u in uploads && uploads[u].key == key {
        var u :| u in uploads && uploads[u].key == key;
        r := Some(u);
      } else {
        r := None;
      }
    }

    method IncStartedPartCount(id: nat)
      modifies this`uploads
      ensures uploads == if id in old(uploads)
             then old(uploads)[id := old(uploads)[id].(started := old(uploads)[id].started + 1)]
             else old(uploads)
    {
      if id in uploads {
        uploads := uploads[id := uploads[id].(started := uploads[id].started + 1)];
      }
    }

    method IncFinishedPartCount(id: nat, now: int)
      modifies this`uploads
      ensures uploads == if id in old(uploads)
        then old(uploads)[id := old(uploads)[id].(
               finished := old(uploads)[id].finished + 1, lastPartUploadedAt := Some(now))]
        else old(uploads)
    {
      if id in uploads {
        uploads := uploads[id := uploads[id].(finished := uploads[id].finished + 1, lastPartUploadedAt := Some(now))];
      }
    }

    method DeleteUpload(id: nat)
      modifies this`uploads
      ensures uploads == old(uploads) - {id}
    {
      uploads := uploads - {id};
    }

    // ----- storage locations -----

    method InsertStorageLocation(id: nat, row: Location)
      requires id !in locations
      modifies this`locations
      ensures locations == old(locations)[id := row]
    {
      locations := locations[id := row];
    }

    /** ON DELETE CASCADE takes the entries of the location with it. */
    method DeleteStorageLocation(id: nat)
      modifies this`locations, this`entries
      ensures locations == old(locations) - {id}
      ensures entries == map e | e in old(entries) && old(entries)[e].location != id :: old(entries)[e]
    {
      locations := locations - {id};
      entries := map e | e in entries && entries[e].location != id :: entries[e];
    }

    method UpdateStoragePartsDeleted(id: nat, now: int)
      modifies this`locations
      ensures locations == if id in old(locations)
             then old(locations)[id := old(locations)[id].(partsDeletedAt := Some(now))]
             else old(locations)
    {
      if id in locations {
        locations := locations[id := locations[id].(partsDeletedAt := Some(now))];
      }
    }

    method UpdateStorageLastDownloaded(id: nat, now: int)
      modifies this`locations
      ensures locations == if id in old(locations)
             then old(locations)[id := old(locations)[id].(lastDownloadedAt := Some(now))]
             else old(locations)
    {
      if id in locations {
        locations := locations[id := locations[id].(lastDownloadedAt := Some(now))];
      }
    }

    method UpdateStorageMergeStarted(id: nat, now: int)
      modifies this`locations
      ensures locations == if id in old(locations)
             then old(locations)[id := old(locations)[id].(mergeStartedAt := Some(now))]
             else old(locations)
    {
      if id in locations {
        locations := locations[id := locations[id].(mergeStartedAt := Some(now))];
      }
    }

    method UpdateStorageMerged(id: nat, now: int)
      modifies this`locations
      ensures locations == if id in old(locations)
             then old(locations)[id := old(locations)[id].(mergedAt := Some(now))]
             else old(locations)
    {
      if id in locations {
        locations := locations[id := locations[id].(mergedAt := Some(now))];
      }
    }

    method ResetStorageMerge(id: nat)
      modifies this`locations
      ensures locations == if id in old(locations)
             then old(locations)[id := old(locations)[id].(mergeStartedAt := None, mergedAt := None)]
             else old(locations)
    {
      if id in locations {
        locations := locations[id := locations[id].(mergeStartedAt := None, mergedAt := None)];
      }
    }

    method ResetStalledMerges(before: int) returns (affected: nat)
      modifies this`locations
      ensures locations == map l | l in old(locations) ::
                  if l in StalledMerges(old(locations), before)
                  then old(locations)[l].(mergeStartedAt := None, mergedAt := None) else old(locations)[l]
      ensures affected == |StalledMerges(old(locations), before)|
    {
      var stalled := StalledMerges(locations, before);
      affected := |stalled|;
      locations := map l | l in locations ::
        if l in stalled then locations[l].(mergeStartedAt := None, mergedAt := None) else locations[l];
    }

    // ----- cache entries -----

    /** Fails when the foreign key does not resolve. */
    method InsertCacheEntry(id: nat, row: Entry) returns (ok: bool)
      requires id !in entries
      modifies this`entries
      ensures ok <==> row.location in locations
      ensures entries == if ok then old(entries)[id := row] else old(entries)
    {
      ok := row.location in locations;
      if ok {
        entries := entries[id := row];
      }
    }

    method UpdateCacheEntryLocation(id: nat, location: nat, now: int) returns (ok: bool)
      modifies this`entries
      ensures ok <==> id !in old(entries) || location in locations
      ensures entries == if ok && id in old(entries)
        then old(entries)[id := Entry(old(entries)[id].key, now, location)]
        else old(entries)
    {
      ok := id !in entries || location in locations;
      if ok && id in entries {
        entries := entries[id := Entry(entries[id].key, now, location)];
      }
    }

    method DeleteCacheEntry(id: nat)
      modifies this`entries
      ensures entries == old(entries) - {id}
    {
      entries := entries - {id};
    }

    /** An entry of the key together with its location, if any entry of the key has one. */
    method FindExistingCacheEntryWithLocation(key: Key) returns (r: Option<nat>)
      ensures r.Some? ==> r.value in entries && entries[r.value].key == key && entries[r.value].location in locations
      ensures r.None? ==> forall e :: e in entries && entries[e].location in locations ==> entries[e].key != key
    {
      if exists e :: e in entries && entries[e].key == key && entries[e].location in locations {
        var e :| e in entries && entries[e].key == key && entries[e].location in locations;
        r := Some(e);
      } else {
        r := None;
      }
    }

    method FindExactCacheEntry(key: Key) returns (r: Option<nat>)
      ensures IsNewest(entries, Exact(entries, key), r)
    {
      r := Newest(Exact(entries, key));
    }

    method FindPrefixedCacheEntry(key: Key) returns (r: Option<nat>)
      ensures IsNewest(entries, Prefixed(entries, fold, key), r)
    {
      r := Newest(Prefixed(entries, fold, key));
    }

    method Newest(candidates: set<nat>) returns (r: Option<nat>)
      requires candidates <= entries.Keys
      ensures IsNewest(entries, candidates, r)
    {
      r := None;
      var left := candidates;
      while left != {}
        invariant left <= candidates
        invariant IsNewest(entries, candidates - left, r)
        decreases |left|
      {
        var e :| e in left;
        if r.None? || entries[r.value].updatedAt < entries[e].updatedAt {
          r := Some(e);
        }
        left := left - {e};
      }
    }

    method ListLRUCacheEntries(limit: nat) returns (q: seq<nat>)
      ensures IsLRU(q, entries, locations, limit)
    {
      q := [];
      var left := Evictable(entries, locations);
      ghost var rows := left;
      while left != {} && |q| < limit
        invariant left <= rows && |q| <= limit && |q| + |left| == |rows|
        invariant Distinct(q) && (forall x :: x in q <==> x in rows && x !in left)
        invariant forall i, j :: 0 <= i < j < |q| ==>
          LastUse(entries, locations, q[i]) <= LastUse(entries, locations, q[j])
        invariant forall i, e :: 0 <= i < |q| && e in left ==>
          LastUse(entries, locations, q[i]) <= LastUse(entries, locations, e)
        decreases |left|
      {
        var e := Oldest(left);
        q := q + [e];
        left := left - {e};
      }
    }

    method Oldest(rows: set<nat>) returns (e: nat)
      requires rows != {} && rows <= Evictable(entries, locations)
      ensures e in rows
      ensures forall d :: d in rows ==> LastUse(entries, locations, e) <= LastUse(entries, locations, d)
    {
      e :| e in rows;
      var left := rows - {e};
      while left != {}
        invariant left <= rows && e in rows
        invariant forall d :: d in rows && d !in left ==>
          LastUse(entries, locations, e) <= LastUse(entries, locations, d)
        decreases |left|
      {
        var d :| d in left;
        if LastUse(entries, locations, d) < LastUse(entries, locations, e) {
          e := d;
        }
        left := left - {d};
      }
    }
  }

  /** Returns rows in an arbitrary order, skips `offset` of them and cuts the rest at `limit`. */
  method List(rows: set<nat>, limit: nat, offset: nat) returns (page: seq<nat>)
    ensures IsPage(page, rows, limit, offset)
  {
    var all: seq<nat> := [];
    var left := rows;
    while left != {}
      invariant left <= rows && |all| + |left| == |rows|
      invariant Distinct(all) && forall x :: x in all <==> x in rows && x !in left
      decreases |left|
    {
      var x :| x in left;
      all := all + [x];
      left := left - {x};
    }
    if |all| <= offset {
      page := [];
    } else if |all| - offset < limit {
      page := all[offset..];
    } else {
      page := all[offset..offset + limit];
    }
  }
}
