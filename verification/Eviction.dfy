/** CleanupDiskPressure: batched eviction of the least recently used entries, with hysteresis and a cap. */
module Eviction {
  import opened ObjectNames
  import opened Ownership
  import opened Queries
  import opened Service
  import opened Sweeps
  import opened Types

  const BatchSize: nat := 10
  const MaxEvictions: nat := 1000

  /** Which deletes fail (an entry's may fail in one round and succeed in another; a failed folder delete
      leaves `kept`), and after how many listings the context of the run has expired. */
  datatype Trouble = Trouble(
    entry: (nat, nat) -> bool, location: nat -> bool, folder: nat -> bool, kept: set<Object>, deadline: nat)

  datatype Ending = NotStarted | NothingToEvict | TargetReached | CapReached | ProbeFailed | Expired

  // ---------- one eviction ----------

  function EvictOne(r: Rows, e: nat, fails: bool, kept: set<Object>): Rows
    requires e in r.entries && r.entries[e].location in r.locations
  {
    var l := r.entries[e].location;
    var s := r.(entries := r.entries - {e});
    (if fails then s else DropLocation(s, l)).(objects := DropFolder(r.objects, r.locations[l].folder, kept))
  }

  /** The entries of `gone` are gone, each with its location unless deleting that failed; all other rows are there. */
  ghost predicate EvictedRows(after: Rows, before: Rows, gone: set<nat>, t: Trouble) {
    && after.uploads == before.uploads
    && gone <= before.entries.Keys
    && (forall e :: e in after.entries <==> e in before.entries && e !in gone)
    && (forall e :: e in after.entries ==> after.entries[e] == before.entries[e])
    && (forall l :: l in after.locations ==> l in before.locations && after.locations[l] == before.locations[l])
    && (forall l :: l in before.locations ==> (l in after.locations <==> t.location(l) || l !in Served(before, gone)))
  }

  /** Objects are gone of evicted entries' folders only, and none is left there, unless deleting it failed. */
  ghost predicate EvictedObjects(after: Rows, before: Rows, gone: set<nat>, t: Trouble) {
    && OnlyLess(after.objects, before.objects)
    && (forall o :: o in before.objects && o !in after.objects ==> LostToEviction(before, gone, o.folder))
    && (forall e, o :: e in gone && o in after.objects
                  ==> Folder(before, e) != Some(o.folder) || t.folder(before.entries[e].location))
  }

  ghost predicate LostToEviction(before: Rows, gone: set<nat>, folder: nat) {
    exists e :: e in gone && Folder(before, e) == Some(folder)
  }

  ghost predicate Evicted(after: Rows, before: Rows, gone: set<nat>, t: Trouble) {
    Linked(after) && EvictedRows(after, before, gone, t) && EvictedObjects(after, before, gone, t)
  }

  /** The folder an entry's archive is in. */
  function Folder(r: Rows, e: nat): (f: Option<nat>)
    ensures f.Some? ==> e in r.entries
  {
    if e in r.entries && r.entries[e].location in r.locations then Some(r.locations[r.entries[e].location].folder)
    else None
  }

  function FailedLocations(r: Rows, t: Trouble): set<nat> {
    set l | l in r.locations && t.location(l)
  }

  function Served(r: Rows, entries: set<nat>): set<nat> {
    set e | e in entries && e in r.entries :: r.entries[e].location
  }

  lemma NoneEvicted(r: Rows, t: Trouble)
    requires Linked(r)
    ensures Evicted(r, r, {}, t) && LeastRecent(r, {})
  {
    assert Served(r, {}) == {};
  }

  lemma EvictOneRows(r: Rows, e: nat, fails: bool, kept: set<Object>)
    requires Linked(r) && e in r.entries
    ensures Linked(EvictOne(r, e, fails, kept))
    ensures EvictOne(r, e, fails, kept).entries == r.entries - {e}
    ensures EvictOne(r, e, fails, kept).locations
         == if fails then r.locations else r.locations - {r.entries[e].location}
  {
    var l := r.entries[e].location;
    assert DropLocation(r.(entries := r.entries - {e}), l).entries == r.entries - {e};
  }

  lemma EvictRows(r: Rows, s: Rows, before: Rows, gone: set<nat>, t: Trouble, e: nat)
    requires EvictedRows(r, before, gone, t) && e in r.entries
    requires s.uploads == r.uploads && s.entries == r.entries - {e}
    requires s.locations
           == if t.location(r.entries[e].location) then r.locations else r.locations - {r.entries[e].location}
    ensures EvictedRows(s, before, gone + {e}, t)
  {
    assert Served(before, gone + {e}) == Served(before, gone) + {r.entries[e].location};
  }

  lemma EvictObjects(r: Rows, before: Rows, gone: set<nat>, t: Trouble, e: nat)
    requires EvictedObjects(r, before, gone, t)
    requires e in r.entries && r.entries[e].location in r.locations && Folder(r, e) == Folder(before, e)
    requires before.entries[e] == r.entries[e]
    ensures
      var s := EvictOne(r, e, t.location(r.entries[e].location), Kept(t, r.entries[e].location));
      EvictedObjects(s, before, gone + {e}, t)
  {
    var s := EvictOne(r, e, t.location(r.entries[e].location), Kept(t, r.entries[e].location));
    forall o | o in before.objects && o !in s.objects ensures LostToEviction(before, gone + {e}, o.folder) {
      if o !in r.objects {
        var d :| d in gone && Folder(before, d) == Some(o.folder);
        assert d in gone + {e};
      } else {
        assert Folder(before, e) == Some(o.folder);
      }
    }
  }

  lemma EvictStep(r: Rows, before: Rows, gone: set<nat>, t: Trouble, e: nat)
    requires Evicted(r, before, gone, t) && e in r.entries
    ensures r.entries[e].location in r.locations
    ensures
      var l := r.entries[e].location;
      var s := EvictOne(r, e, t.location(l), Kept(t, l));
      s.entries == r.entries - {e} && Evicted(s, before, gone + {e}, t)
  {
    hide Linked, EvictedRows, EvictedObjects, EvictOne;
    EvictFacts(r, before, gone, t, e);
    var l := r.entries[e].location;
    var s := EvictOne(r, e, t.location(l), Kept(t, l));
    EvictOneRows(r, e, t.location(l), Kept(t, l));
    EvictOneUploads(r, e, t.location(l), Kept(t, l));
    EvictRows(r, s, before, gone, t, e);
    EvictObjects(r, before, gone, t, e);
  }

  lemma EvictOneUploads(r: Rows, e: nat, fails: bool, kept: set<Object>)
    requires e in r.entries && r.entries[e].location in r.locations
    ensures EvictOne(r, e, fails, kept).uploads == r.uploads
  {
  }

  lemma EvictFacts(r: Rows, before: Rows, gone: set<nat>, t: Trouble, e: nat)
    requires Evicted(r, before, gone, t) && e in r.entries
    ensures r.entries[e].location in r.locations && r.entries[e].location in before.locations
    ensures e in before.entries && before.entries[e] == r.entries[e] && Folder(r, e) == Folder(before, e)
  {
  }

  function Kept(t: Trouble, l: nat): set<Object> {
    if t.folder(l) then t.kept else {}
  }

  /** If folders are not shared, a survivor keeps its archive, unless deleting its own row failed. */
  lemma EvictedOwned(after: Rows, before: Rows, gone: set<nat>, t: Trouble)
    requires Owned(before) && Evicted(after, before, gone, t)
    ensures Owned(after) && KeepsBut(after, before, {}, FailedLocations(before, t))
  {
    EvictedTables(after, before, gone, t);
    forall k | k in after.locations && k in before.locations && k !in FailedLocations(before, t)
      ensures Archive(after.locations, after.objects, k) == Archive(before.locations, before.objects, k)
    {
      NotServed(after, before, gone, t, k);
      hide Archive, SameFolder, Owned, Evicted;
      Unevicted(after, before, gone, t, before.locations[k].folder);
      SameArchive(after.locations, after.objects, before.locations, before.objects, k);
    }
    forall u | u in after.uploads && u in before.uploads ensures SameFolder(after.objects, before.objects, u) {
      Unevicted(after, before, gone, t, u);
    }
  }

  lemma EvictedTables(after: Rows, before: Rows, gone: set<nat>, t: Trouble)
    requires Owned(before) && Evicted(after, before, gone, t)
    ensures Owned(after) && after.uploads == before.uploads
  {
    hide EvictedObjects;
  }

  lemma NotServed(after: Rows, before: Rows, gone: set<nat>, t: Trouble, k: nat)
    requires Owned(before) && EvictedRows(after, before, gone, t) && k in after.locations && !t.location(k)
    ensures k in before.locations && after.locations[k] == before.locations[k]
    ensures forall e :: e in gone ==> Folder(before, e) != Some(before.locations[k].folder)
  {
    forall e | e in gone ensures Folder(before, e) != Some(before.locations[k].folder) {
      assert e in before.entries && before.entries[e].location in Served(before, gone);
    }
  }

  lemma Unevicted(after: Rows, before: Rows, gone: set<nat>, t: Trouble, folder: nat)
    requires EvictedObjects(after, before, gone, t)
    requires forall e :: e in gone ==> Folder(before, e) != Some(folder)
    ensures SameFolder(after.objects, before.objects, folder)
  {
    assert !LostToEviction(before, gone, folder);
  }

  // ---------- what is left to evict, in what order ----------

  lemma EvictableAre(r: Rows, before: Rows, gone: set<nat>, t: Trouble)
    requires Evicted(r, before, gone, t)
    ensures Evictable(r.entries, r.locations) == Evictable(before.entries, before.locations) - gone
    ensures forall e :: e in r.entries ==>
      LastUse(r.entries, r.locations, e) == LastUse(before.entries, before.locations, e)
  {
  }

  /** No entry of `gone` was used more recently than one that could have been evicted instead. */
  ghost predicate LeastRecent(before: Rows, gone: set<nat>) {
    && gone <= Evictable(before.entries, before.locations)
    && (forall g, e :: g in gone && e in Evictable(before.entries, before.locations) && e !in gone
                     ==> LastUse(before.entries, before.locations, g) <= LastUse(before.entries, before.locations, e))
  }

  /** Evicted before, or listed now: neither was used more recently than what stays. */
  lemma ListedFirst(r: Rows, before: Rows, gone: set<nat>, batch: seq<nat>, g: nat, e: nat)
    requires LeastRecent(before, gone) && IsLRU(batch, r.entries, r.locations, BatchSize)
    requires Evictable(r.entries, r.locations) == Evictable(before.entries, before.locations) - gone
    requires forall x :: x in r.entries ==>
      LastUse(r.entries, r.locations, x) == LastUse(before.entries, before.locations, x)
    requires g in gone || g in batch
    requires e in Evictable(before.entries, before.locations) && e !in gone && e !in batch
    ensures LastUse(before.entries, before.locations, g) <= LastUse(before.entries, before.locations, e)
  {
    hide LastUse;
    if g !in gone {
      var i :| 0 <= i < |batch| && batch[i] == g;
      assert g in Evictable(r.entries, r.locations) && e in Evictable(r.entries, r.locations);
      assert LastUse(r.entries, r.locations, batch[i]) <= LastUse(r.entries, r.locations, e);
    }
  }

  lemma BatchLeastRecent(r: Rows, before: Rows, gone: set<nat>, t: Trouble, batch: seq<nat>)
    requires Evicted(r, before, gone, t) && LeastRecent(before, gone)
    requires IsLRU(batch, r.entries, r.locations, BatchSize)
    ensures LeastRecent(before, gone + set x | x in batch)
  {
    hide Evicted, LastUse, Evictable;
    EvictableAre(r, before, gone, t);
    var rows := Evictable(before.entries, before.locations);
    forall g, e | g in gone + (set x | x in batch) && e in rows && e !in gone + set x | x in batch
      ensures LastUse(before.entries, before.locations, g) <= LastUse(before.entries, before.locations, e)
    {
      ListedFirst(r, before, gone, batch, g, e);
    }
  }

  ghost predicate AllSucceed(t: Trouble) {
    forall r, e :: !t.entry(r, e)
  }

  ghost predicate AllFail(t: Trouble) {
    forall r, e :: t.entry(r, e)
  }

  ghost predicate NeverEnough(probe: nat -> Option<int>, target: int) {
    forall k :: probe(k).Some? && probe(k).value < target
  }

  function Succeeded(batch: seq<nat>, round: nat, t: Trouble): set<nat> {
    set x | x in batch && !t.entry(round, x)
  }

  // ---------- CleanupDiskPressure ----------

  /** The entry, then its location, then its folder. */
  method EvictEntry(s: Service, e: nat, t: Trouble)
    requires e in s.q.entries && s.q.entries[e].location in s.q.locations
    modifies s.q, s.adapter
    ensures
      var l := old(s.q.entries)[e].location;
      s.View() == EvictOne(old(s.View()), e, t.location(l), Kept(t, l))
  {
    var l := s.q.entries[e].location;
    var folder := s.q.locations[l].folder;
    s.q.DeleteCacheEntry(e);
    if !t.location(l) {
      s.q.DeleteStorageLocation(l);
    }
    var done := s.adapter.DeleteFolder(folder, t.folder(l), t.kept);
  }

  /** i entries of the batch have been tried, n of them evicted. */
  ghost predicate BatchAt(
      r: Rows, before: Rows, gone: set<nat>, batch: seq<nat>, i: nat, n: nat, round: nat, t: Trouble) {
    && i <= |batch| && Distinct(batch)
    && n == |Succeeded(batch[..i], round, t)|
    && Evicted(r, before, gone + Succeeded(batch[..i], round, t), t)
    && (forall k :: i <= k < |batch| ==> batch[k] in r.entries)
  }

  lemma BatchStart(r: Rows, before: Rows, gone: set<nat>, batch: seq<nat>, round: nat, t: Trouble)
    requires Evicted(r, before, gone, t) && Distinct(batch) && forall k :: 0 <= k < |batch| ==> batch[k] in r.entries
    ensures BatchAt(r, before, gone, batch, 0, 0, round, t)
  {
    assert Succeeded(batch[..0], round, t) == {};
    assert gone + {} == gone;
  }

  lemma BatchEnd(r: Rows, before: Rows, gone: set<nat>, batch: seq<nat>, n: nat, round: nat, t: Trouble)
    requires BatchAt(r, before, gone, batch, |batch|, n, round, t)
    ensures Evicted(r, before, gone + Succeeded(batch, round, t), t) && n == |Succeeded(batch, round, t)|
  {
    assert batch[..|batch|] == batch;
  }

  lemma BatchFails(r: Rows, before: Rows, gone: set<nat>, batch: seq<nat>, i: nat, n: nat, round: nat, t: Trouble)
    requires BatchAt(r, before, gone, batch, i, n, round, t) && i < |batch| && t.entry(round, batch[i])
    ensures BatchAt(r, before, gone, batch, i + 1, n, round, t)
  {
    hide Evicted;
    SucceededNext(batch, i, round, t);
  }

  lemma BatchSucceeds(r: Rows, before: Rows, gone: set<nat>, batch: seq<nat>, i: nat, n: nat, round: nat, t: Trouble)
    requires BatchAt(r, before, gone, batch, i, n, round, t) && i < |batch| && !t.entry(round, batch[i])
    ensures batch[i] in r.entries && r.entries[batch[i]].location in r.locations
    ensures
      var l := r.entries[batch[i]].location;
      BatchAt(EvictOne(r, batch[i], t.location(l), Kept(t, l)), before, gone, batch, i + 1, n + 1, round, t)
  {
    hide Evicted, EvictOne, Succeeded, Distinct;
    var so := Succeeded(batch[..i], round, t);
    EvictStep(r, before, gone + so, t, batch[i]);
    SucceededNext(batch, i, round, t);
    Others(batch, i);
    assert gone + so + {batch[i]} == gone + (so + {batch[i]});
  }

  method EvictBatch(s: Service, batch: seq<nat>, round: nat, t: Trouble, ghost before: Rows, ghost gone: set<nat>)
    returns (n: nat)
    requires Evicted(s.View(), before, gone, t)
    requires Distinct(batch) && forall i :: 0 <= i < |batch| ==> batch[i] in s.q.entries
    modifies s.q, s.adapter
    ensures Evicted(s.View(), before, gone + Succeeded(batch, round, t), t)
    ensures n == |Succeeded(batch, round, t)|
  {
    hide Evicted, EvictedRows, EvictOne, Distinct, BatchAt, Succeeded, Kept, Linked, KeepsBut;
    BatchStart(s.View(), before, gone, batch, round, t);
    n := 0;
    var i := 0;
    while i < |batch|
      invariant 0 <= i <= |batch|
      invariant BatchAt(s.View(), before, gone, batch, i, n, round, t)
    {
      if t.entry(round, batch[i]) {
        BatchFails(s.View(), before, gone, batch, i, n, round, t);
      } else {
        BatchSucceeds(s.View(), before, gone, batch, i, n, round, t);
        EvictEntry(s, batch[i], t);
        n := n + 1;
      }
      i := i + 1;
    }
    BatchEnd(s.View(), before, gone, batch, n, round, t);
  }

  lemma Others(batch: seq<nat>, i: nat)
    requires i < |batch| && Distinct(batch)
    ensures forall k :: i < k < |batch| ==> batch[k] != batch[i]
  {
  }

  lemma SucceededNext(batch: seq<nat>, i: nat, round: nat, t: Trouble)
    requires i < |batch| && Distinct(batch)
    ensures
      var s := Succeeded(batch[..i], round, t);
      && Succeeded(batch[..i + 1], round, t) == (if t.entry(round, batch[i]) then s else s + {batch[i]})
      && batch[i] !in s
  {
    assert batch[..i + 1] == batch[..i] + [batch[i]];
  }

  lemma ListedEntries(entries: map<nat, Entry>, locations: map<nat, Location>, batch: seq<nat>)
    requires IsLRU(batch, entries, locations, BatchSize)
    ensures Distinct(batch) && |batch| <= BatchSize && forall x :: x in batch ==>
      x in entries && x in Evictable(entries, locations)
    ensures batch == [] <==> Evictable(entries, locations) == {}
  {
  }

  /** What is listed has not been evicted yet. */
  lemma EvictedAgain(r: Rows, before: Rows, gone: set<nat>, t: Trouble, done: set<nat>)
    requires Evicted(r, before, gone, t) && done <= Evictable(r.entries, r.locations)
    ensures |gone + done| == |gone| + |done|
    ensures gone <= Evictable(before.entries, before.locations)
           ==> gone + done <= Evictable(before.entries, before.locations)
  {
    EvictableAre(r, before, gone, t);
    assert gone !! done;
  }

  lemma {:induction false} SucceededSize(batch: seq<nat>, round: nat, t: Trouble)
    ensures |Succeeded(batch, round, t)| <= |batch|
  {
    if batch != [] {
      var init := batch[..|batch| - 1];
      SucceededSize(init, round, t);
      assert batch == init + [batch[|batch| - 1]];
      SubsetSize(Succeeded(batch, round, t), Succeeded(init, round, t) + {batch[|batch| - 1]});
    }
  }

  lemma SucceededSome(batch: seq<nat>, round: nat, t: Trouble)
    ensures AllSucceed(t) ==> Succeeded(batch, round, t) == set x | x in batch
    ensures AllSucceed(t) && batch != [] ==> Succeeded(batch, round, t) != {}
    ensures AllFail(t) ==> Succeeded(batch, round, t) == {}
    ensures Succeeded(batch, round, t) <= set x | x in batch
    ensures |Succeeded(batch, round, t)| <= |batch|
  {
    SucceededSize(batch, round, t);
    if AllSucceed(t) && batch != [] {
      assert batch[0] in Succeeded(batch, round, t);
    }
  }

  /** What holds of a run at every turn and at its end: `gone` are the `evicted` entries, none of them with a
      merge in flight, at most a batch less one above the cap; if no delete fails they are the least recently
      used ones, and every round evicts something.  `stalls` counts the rounds that evicted nothing. */
  ghost predicate Progress(r: Rows, before: Rows, gone: set<nat>, evicted: nat, rounds: nat, stalls: nat, t: Trouble) {
    && Evicted(r, before, gone, t) && evicted == |gone| < MaxEvictions + BatchSize
    && gone <= Evictable(before.entries, before.locations)
    && (AllSucceed(t) ==> LeastRecent(before, gone) && stalls == 0)
    && (AllFail(t) ==> gone == {})
    && stalls <= rounds <= evicted + stalls
  }

  lemma ProgressStarts(r: Rows, t: Trouble)
    requires Linked(r)
    ensures Progress(r, r, {}, 0, 0, 0, t)
  {
    NoneEvicted(r, t);
  }

  lemma ProgressContinues(
      r: Rows, next: Rows, before: Rows, gone: set<nat>, evicted: nat, rounds: nat, stalls: nat, t: Trouble,
                          batch: seq<nat>, n: nat)
    requires Progress(r, before, gone, evicted, rounds, stalls, t) && evicted < MaxEvictions
    requires IsLRU(batch, r.entries, r.locations, BatchSize) && batch != []
    requires n == |Succeeded(batch, rounds, t)| && Evicted(next, before, gone + Succeeded(batch, rounds, t), t)
    ensures
      var more := if n == 0 then stalls + 1 else stalls;
      Progress(next, before, gone + Succeeded(batch, rounds, t), evicted + n, rounds + 1, more, t)
  {
    ListedEntries(r.entries, r.locations, batch);
    SucceededSome(batch, rounds, t);
    EvictedAgain(r, before, gone, t, Succeeded(batch, rounds, t));
    if AllSucceed(t) {
      BatchLeastRecent(r, before, gone, t, batch);
    }
  }

  lemma NothingLeft(r: Rows, before: Rows, gone: set<nat>, evicted: nat, rounds: nat, stalls: nat, t: Trouble)
    requires Progress(r, before, gone, evicted, rounds, stalls, t)
    requires Evictable(r.entries, r.locations) == {}
    ensures gone == Evictable(before.entries, before.locations)
  {
    EvictableAre(r, before, gone, t);
    forall e | e in Evictable(before.entries, before.locations) ensures e in gone {
      assert e !in Evictable(before.entries, before.locations) - gone;
    }
  }

  // ---------- when the loop ends ----------

  /** A run whose every round evicts something ends before its context expires, if that allows MaxEvictions
      rounds. */
  lemma EndsWithinCap(r: Rows, before: Rows, gone: set<nat>, evicted: nat, rounds: nat, stalls: nat, t: Trouble)
    requires Progress(r, before, gone, evicted, rounds, stalls, t) && evicted < MaxEvictions
    ensures stalls == 0 || AllSucceed(t) ==> rounds < MaxEvictions
  {
  }

  /** If every delete fails and the space stays short, nothing is evicted, so that neither the cap nor an empty
      list ends the loop: only the context does. */
  lemma StallsUntilExpired(r: Rows, before: Rows, gone: set<nat>, evicted: nat, rounds: nat, stalls: nat, t: Trouble)
    requires Progress(r, before, gone, evicted, rounds, stalls, t)
    ensures AllFail(t) ==> evicted == 0 && stalls == rounds
    ensures AllFail(t) && Evictable(before.entries, before.locations) != {} ==> Evictable(r.entries, r.locations) != {}
  {
    EvictableAre(r, before, gone, t);
  }

  /** `probe(k)` is what the k-th question for the free space returns; `rounds` batches have been handled. */
  method CleanupDiskPressure(
      s: Service, disabled: bool, minFree: int, targetFree: int, reporter: bool, probe: nat -> Option<int>,
      t: Trouble)
    returns (ending: Ending, evicted: nat, rounds: nat, ghost gone: set<nat>, ghost stalls: nat)
    requires Linked(s.View())
    modifies s.q, s.adapter
    ensures Progress(s.View(), old(s.View()), gone, evicted, rounds, stalls, t)
    ensures ending.NotStarted? <==> disabled || minFree <= 0 || !reporter || probe(0).None? || probe(0).value >= minFree
    ensures ending.NotStarted? ==> s.View() == old(s.View()) && rounds == 0
    ensures !ending.NotStarted? ==>
      Ended(old(s.View()), ending, evicted, rounds, gone, stalls, Target(minFree, targetFree), probe, t)
    ensures ending.TargetReached? ==> probe(rounds).Some? && probe(rounds).value >= minFree
  {
    hide Progress, Linked, Ended;
    if disabled || minFree <= 0 || !reporter || probe(0).None? || probe(0).value >= minFree {
      ProgressStarts(s.View(), t);
      return NotStarted, 0, 0, {}, 0;
    }
    var target := if targetFree < minFree then minFree else targetFree;
    ghost var before := s.View();
    ending, evicted, rounds, gone, stalls := EvictUntil(s, target, probe, t);
    EndedOnTarget(before, ending, evicted, rounds, gone, stalls, target, probe, t);
  }

  /** Every delete fails while the space stays short and there is something to evict. */
  ghost predicate EndsOnlyByExpiry(before: Rows, target: int, probe: nat -> Option<int>, t: Trouble) {
    AllFail(t) && NeverEnough(probe, target) && Evictable(before.entries, before.locations) != {}
  }

  /** How a started run ends.  No batch is evicted after the target was reached; a run without a round that
      evicted nothing ends before its context expires, if that allows MaxEvictions rounds; a run in which every
      delete fails while the space stays short does not end otherwise. */
  ghost predicate Ended(
      before: Rows, ending: Ending, evicted: nat, rounds: nat, gone: set<nat>, stalls: nat, target: int,
                        probe: nat -> Option<int>, t: Trouble) {
    && (forall k :: 0 < k < rounds ==> probe(k).Some? && probe(k).value < target)
    && (match ending
        case NotStarted => false
        case NothingToEvict => gone == Evictable(before.entries, before.locations)
        case TargetReached => rounds > 0 && probe(rounds).Some? && probe(rounds).value >= target
        case CapReached => evicted >= MaxEvictions
        case ProbeFailed => rounds > 0 && probe(rounds).None?
        case Expired => rounds == t.deadline && (stalls == 0 || AllSucceed(t) ==> t.deadline < MaxEvictions))
    && (EndsOnlyByExpiry(before, target, probe, t) ==> ending.Expired? && evicted == 0)
  }

  lemma EndedOnTarget(before: Rows, ending: Ending, evicted: nat, rounds: nat, gone: set<nat>, stalls: nat, target: int,
                      probe: nat -> Option<int>, t: Trouble)
    requires Ended(before, ending, evicted, rounds, gone, stalls, target, probe, t)
    ensures !ending.NotStarted?
    ensures ending.TargetReached? ==> probe(rounds).Some? && probe(rounds).value >= target
  {
  }

  predicate Short(probe: nat -> Option<int>, k: nat, target: int) {
    probe(k).Some? && probe(k).value < target
  }

  lemma EndedExpired(r: Rows, before: Rows, evicted: nat, rounds: nat, gone: set<nat>, stalls: nat, target: int,
                     probe: nat -> Option<int>, t: Trouble)
    requires Progress(r, before, gone, evicted, rounds, stalls, t) && rounds == t.deadline && evicted < MaxEvictions
    requires forall k :: 0 < k <= rounds ==> Short(probe, k, target)
    ensures Ended(before, Expired, evicted, rounds, gone, stalls, target, probe, t)
  {
    StallsUntilExpired(r, before, gone, evicted, rounds, stalls, t);
    EndsWithinCap(r, before, gone, evicted, rounds, stalls, t);
    forall k | 0 < k < rounds ensures probe(k).Some? && probe(k).value < target {
      assert Short(probe, k, target);
    }
  }

  lemma EndedEmpty(r: Rows, before: Rows, evicted: nat, rounds: nat, gone: set<nat>, stalls: nat, target: int,
                   probe: nat -> Option<int>, t: Trouble)
    requires Progress(r, before, gone, evicted, rounds, stalls, t) && Evictable(r.entries, r.locations) == {}
    requires forall k :: 0 < k <= rounds ==> Short(probe, k, target)
    ensures Ended(before, NothingToEvict, evicted, rounds, gone, stalls, target, probe, t)
  {
    StallsUntilExpired(r, before, gone, evicted, rounds, stalls, t);
    NothingLeft(r, before, gone, evicted, rounds, stalls, t);
    forall k | 0 < k < rounds ensures probe(k).Some? && probe(k).value < target {
      assert Short(probe, k, target);
    }
  }

  lemma EndedByCap(r: Rows, before: Rows, evicted: nat, rounds: nat, gone: set<nat>, stalls: nat, target: int,
                   probe: nat -> Option<int>, t: Trouble)
    requires Progress(r, before, gone, evicted, rounds, stalls, t) && evicted >= MaxEvictions
    requires forall k :: 0 < k <= rounds ==> Short(probe, k, target)
    ensures Ended(before, CapReached, evicted, rounds, gone, stalls, target, probe, t)
  {
    StallsUntilExpired(r, before, gone, evicted, rounds, stalls, t);
    forall k | 0 < k < rounds ensures probe(k).Some? && probe(k).value < target {
      assert Short(probe, k, target);
    }
  }

  lemma EndedByProbe(before: Rows, ending: Ending, evicted: nat, rounds: nat, gone: set<nat>, stalls: nat, target: int,
                     probe: nat -> Option<int>, t: Trouble)
    requires rounds > 0 && forall k :: 0 < k < rounds ==> Short(probe, k, target)
    requires || (ending.ProbeFailed? && probe(rounds).None?)
             || (ending.TargetReached? && probe(rounds).Some? && probe(rounds).value >= target)
    ensures Ended(before, ending, evicted, rounds, gone, stalls, target, probe, t)
  {
    forall k | 0 < k < rounds ensures probe(k).Some? && probe(k).value < target {
      assert Short(probe, k, target);
    }
  }

  /** Evicts batch after batch until there is enough space. */
  method EvictUntil(s: Service, target: int, probe: nat -> Option<int>, t: Trouble)
    returns (ending: Ending, evicted: nat, rounds: nat, ghost gone: set<nat>, ghost stalls: nat)
    requires Linked(s.View())
    modifies s.q, s.adapter
    ensures Progress(s.View(), old(s.View()), gone, evicted, rounds, stalls, t)
    ensures Ended(old(s.View()), ending, evicted, rounds, gone, stalls, target, probe, t)
  {
    hide Progress, Evicted, Evictable, IsLRU, Succeeded, Linked, Distinct, AllSucceed, AllFail, NeverEnough, Ended;
    ghost var before := s.View();
    evicted, rounds, gone, stalls := 0, 0, {}, 0;
    ProgressStarts(before, t);
    while evicted < MaxEvictions
      invariant Progress(s.View(), before, gone, evicted, rounds, stalls, t)
      invariant forall k :: 0 < k <= rounds ==> Short(probe, k, target)
      invariant rounds <= t.deadline
      decreases t.deadline - rounds
    {
      if rounds == t.deadline {
        EndedExpired(s.View(), before, evicted, rounds, gone, stalls, target, probe, t);
        return Expired, evicted, rounds, gone, stalls;
      }
      var batch := s.q.ListLRUCacheEntries(BatchSize);
      ListedEntries(s.q.entries, s.q.locations, batch);
      if batch == [] {
        EndedEmpty(s.View(), before, evicted, rounds, gone, stalls, target, probe, t);
        return NothingToEvict, evicted, rounds, gone, stalls;
      }
      ghost var was := s.View();
      SoFar(was, before, gone, evicted, rounds, stalls, t);
      var n := EvictBatch(s, batch, rounds, t, before, gone);
      ProgressContinues(was, s.View(), before, gone, evicted, rounds, stalls, t, batch, n);
      gone := gone + Succeeded(batch, rounds, t);
      evicted, rounds, stalls := evicted + n, rounds + 1, if n == 0 then stalls + 1 else stalls;
      if probe(rounds).None? {
        EndedByProbe(before, ProbeFailed, evicted, rounds, gone, stalls, target, probe, t);
        return ProbeFailed, evicted, rounds, gone, stalls;
      }
      if probe(rounds).value >= target {
        EndedByProbe(before, TargetReached, evicted, rounds, gone, stalls, target, probe, t);
        return TargetReached, evicted, rounds, gone, stalls;
      }
    }
    EndedByCap(s.View(), before, evicted, rounds, gone, stalls, target, probe, t);
    return CapReached, evicted, rounds, gone, stalls;
  }

  lemma SoFar(r: Rows, before: Rows, gone: set<nat>, evicted: nat, rounds: nat, stalls: nat, t: Trouble)
    requires Progress(r, before, gone, evicted, rounds, stalls, t)
    ensures Evicted(r, before, gone, t)
  {
  }

  /** The target is raised to the minimum if it is below. */
  function Target(minFree: int, targetFree: int): (t: int)
    ensures t >= minFree && t >= targetFree && (t == minFree || t == targetFree)
  {
    if targetFree < minFree then minFree else targetFree
  }
}
