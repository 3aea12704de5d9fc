/** The storage service run one call at a time, on any state.  Any statement or adapter call may fail. */
module Service {
  import opened ObjectNames
  import opened Ownership
  import opened Queries
  import opened Types

  // ---------- the adapter ----------

  /** The adapter as the service sees it.  On a bucket that represents the objects S3.S3Adapter keeps these
      contracts: PutObject, OpenObject and CountParts always, DeleteFolder and DeleteParts if no delete request
      that is answered spares a key. */
  class Adapter {
    var objects: map<Object, Bytes>

    constructor ()
      ensures objects == map[]
    {
      objects := map[];
    }

    /** All or nothing; a failed call may still have stored the object. */
    method UploadStream(o: Object, body: Option<Bytes>, fails: bool, stored: bool) returns (ok: bool)
      modifies this
      ensures ok <==> body.Some? && !fails
      ensures objects == if body.Some? && (!fails || stored) then old(objects)[o := body.value] else old(objects)
    {
      if body.Some? && (!fails || stored) {
        objects := objects[o := body.value];
      }
      ok := body.Some? && !fails;
    }

    method CreateDownloadStream(o: Object, fails: bool) returns (r: Opened)
      ensures r == if fails then OpenFailed else if o in objects then Stream(objects[o]) else Missing
    {
      if fails {
        r := OpenFailed;
      } else if o in objects {
        r := Stream(objects[o]);
      } else {
        r := Missing;
      }
    }

    /** A failed call leaves what is in `kept`. */
    method DeleteFolder(folder: nat, fails: bool, kept: set<Object>) returns (ok: bool)
      modifies this
      ensures ok == !fails
      ensures objects == DropFolder(old(objects), folder, if fails then kept else {})
    {
      ok := !fails;
      objects := DropFolder(objects, folder, if fails then kept else {});
    }

    method DeleteParts(folder: nat, fails: bool, kept: set<Object>) returns (ok: bool)
      modifies this
      ensures ok == !fails
      ensures objects == DropParts(old(objects), folder, if fails then kept else {})
    {
      ok := !fails;
      objects := DropParts(objects, folder, if fails then kept else {});
    }

    method CountParts(folder: nat, fails: bool) returns (count: Option<nat>)
      ensures count == if fails then None else Some(|PartsOf(objects, folder)|)
    {
      count := if fails then None else Some(|PartsOf(objects, folder)|);
    }
  }

  // ---------- what can fail ----------

  datatype Call =
    | FindUpload | InsertUpload | IncStarted | StorePart | IncFinished
    | DropUpload | CountFiles | AddLocation | FindEntry | Repoint | DropOldLocation | DropOldFolder | AddEntry
    | FindDownload | Touch | OpenMerged | MarkStarted
    | StoreMerged | Reset | MarkMerged | MarkPartsDeleted | DropMergedParts

  type Faults = Call -> bool

  /** The call takes effect: it succeeds, or it fails although it was carried out. */
  predicate Takes(call: Call, faults: Faults, applied: Faults) {
    !faults(call) || applied(call)
  }

  /** A finalize of the key gets as far as inserting the new location. */
  ghost predicate Accepts(r: Rows, key: Key, faults: Faults, applied: Faults) {
    && !faults(FindUpload) && !faults(CountFiles) && Takes(AddLocation, faults, applied)
    && exists u :: u in r.uploads && r.uploads[u].key == key && Acceptable(r.uploads[u], r.objects, u)
  }

  /** Whether it then fails before the last statement: which statements there are depends on whether the key has an
      entry. */
  ghost predicate EarlierFault(r: Rows, key: Key, faults: Faults) {
    || faults(AddLocation) || faults(FindEntry)
    || (if HasEntry(r, key) then faults(Repoint) || faults(DropOldLocation) || faults(DropOldFolder)
        else faults(AddEntry))
  }

  ghost predicate LateFault(r: Rows, key: Key, faults: Faults) {
    EarlierFault(r, key, faults) || faults(DropUpload)
  }

  /** Whether it points the key's entry to the new location. */
  ghost predicate PointsEntry(r: Rows, key: Key, faults: Faults, applied: Faults) {
    && !faults(AddLocation) && !faults(FindEntry)
    && if HasEntry(r, key) then Takes(Repoint, faults, applied) else Takes(AddEntry, faults, applied)
  }

  /** The key's upload fails a check: its counters, or the number of its files. */
  ghost predicate Rejects(r: Rows, key: Key, faults: Faults) {
    && !faults(FindUpload)
    && exists u :: u in r.uploads && r.uploads[u].key == key
                   && (CountersFail(r.uploads[u]) || (!faults(CountFiles) && !Acceptable(r.uploads[u], r.objects, u)))
  }

  predicate CountersFail(row: Upload) {
    row.finished == 0 || row.started != row.finished
  }

  /** The checks that precede any change. */
  predicate Acceptable(row: Upload, objects: map<Object, Bytes>, u: nat) {
    !CountersFail(row) && |PartsOf(objects, u)| == row.finished
  }

  datatype Finalize = NoUpload | Rejected | Failed | FailedLate | Completed(upload: nat)

  datatype Reader = NoEntry | NoReader | Reader(sent: Bytes, clean: bool)

  class Service {
    const q: Queries
    const adapter: Adapter

    constructor (q: Queries, adapter: Adapter)
      ensures this.q == q && this.adapter == adapter
    {
      this.q, this.adapter := q, adapter;
    }

    ghost function View(): Rows
      reads q, adapter
    {
      Rows(q.uploads, q.locations, q.entries, adapter.objects)
    }

    /** Returns the new upload, or none if the key has one already.  A generated id that is an upload's is noticed;
        one that names a location's folder is not. */
    method CreateUpload(key: Key, id: nat, now: int, faults: Faults) returns (r: Option<nat>, ok: bool)
      modifies q
      ensures ok && r.Some? ==> r == Some(id) && id !in old(q.uploads)
      ensures ok && r.Some? ==> View() == old(View()).(uploads := old(q.uploads)[id := Upload(key, now, None, 0, 0)])
      ensures !ok || r.None? ==> View() == old(View())
      ensures var taken := exists u :: u in old(q.uploads) && old(q.uploads)[u].key == key;
        && (ok <==> !faults(FindUpload) && (taken || (!faults(InsertUpload) && id !in old(q.uploads))))
        && (ok ==> (r.None? <==> taken))
      ensures Owned(old(View())) ==>
        (Owned(View()) <==> !ok || r.None? || forall l :: l in q.locations ==> q.locations[l].folder != id)
    {
      if faults(FindUpload) {
        return None, false;
      }
      var existing := q.FindUploadByKey(key);
      if existing.Some? {
        return None, true;
      }
      if faults(InsertUpload) {
        return None, false;
      }
      ghost var before := View();
      ok := q.InsertUpload(id, Upload(key, now, None, 0, 0));
      if !ok {
        return None, false;
      }
      CreatedOwned(before, id, Upload(key, now, None, 0, 0));
      return Some(id), true;
    }

    /** A part for an upload that is gone is dropped without an error.  Otherwise the started count grows
        before the put and the finished count after it, so a failed put can be told from the counters.  A call
        that fails may have taken effect all the same, if `applied`. */
    method UploadPart(u: nat, index: int, body: Option<Bytes>, now: int, faults: Faults, applied: Faults)
      returns (ok: bool)
      modifies q, adapter
      ensures q.locations == old(q.locations) && q.entries == old(q.entries)
      ensures u !in old(q.uploads) ==> View() == old(View()) && ok == !faults(FindUpload)
      ensures u in old(q.uploads) ==> (
        var was := old(q.uploads)[u];
        var put := !faults(FindUpload) && !faults(IncStarted) && body.Some?;
        var done := put && !faults(StorePart);
        && (ok <==> done && !faults(IncFinished))
        && q.uploads == old(q.uploads)[u := was.(
             started := if !faults(FindUpload) && (!faults(IncStarted) || applied(IncStarted)) then was.started + 1
                        else was.started,
             finished := if ok || (done && applied(IncFinished)) then was.finished + 1 else was.finished,
             lastPartUploadedAt := if ok || (done && applied(IncFinished)) then Some(now) else was.lastPartUploadedAt)]
        && adapter.objects == if done || (put && applied(StorePart))
                              then old(adapter.objects)[Part(u, index) := body.value] else old(adapter.objects))
      ensures Owned(old(View())) ==> Owned(View())
      ensures Owned(old(View())) ==> forall l :: l in q.locations ==>
        Archive(q.locations, adapter.objects, l) == Archive(old(q.locations), old(adapter.objects), l)
    {
      hide Owned, Archive, SameFolder;
      if faults(FindUpload) {
        return false;
      }
      if u !in q.uploads {
        return true;
      }
      ghost var was := View();
      PutObject(adapter.objects, was.objects, Part(u, index), []);
      if !faults(IncStarted) || applied(IncStarted) {
        q.IncStartedPartCount(u);
        PutOwned(was, View(), u);
      }
      if faults(IncStarted) {
        return false;
      }
      ok := adapter.UploadStream(Part(u, index), body, faults(StorePart), applied(StorePart));
      PutObject(adapter.objects, was.objects, Part(u, index), if body.Some? then body.value else []);
      PutOwned(was, View(), u);
      if !ok {
        return;
      }
      if !faults(IncFinished) || applied(IncFinished) {
        q.IncFinishedPartCount(u, now);
        PutOwned(was, View(), u);
      }
      ok := !faults(IncFinished);
    }

    /** Which of the five outcomes a finalize has is decided by the key's upload and by what fails.  A statement that
        fails may have taken effect all the same, if `applied`.  A finalize gives up ownership if and only if it
        fails late, that is, after inserting the new location, and has not deleted the upload either. */
    method CompleteUpload(
      key: Key, l: nat, e: nat, now: int, faults: Faults, applied: Faults, kept: set<Object>)
      returns (r: Finalize)
      requires l !in q.locations && e !in q.entries && Linked(View())
      modifies q, adapter
      ensures r.NoUpload? <==> !faults(FindUpload) && forall u :: u in old(q.uploads) ==> old(q.uploads)[u].key != key
      ensures r.NoUpload? || r.Failed? ==> View() == old(View())
      ensures Keyed(old(View())) ==>
        && (r.Rejected? <==> Rejects(old(View()), key, faults))
        && (r.FailedLate? <==> Accepts(old(View()), key, faults, applied) && LateFault(old(View()), key, faults))
        && (r.Completed? <==> Accepts(old(View()), key, faults, applied) && !LateFault(old(View()), key, faults))
      ensures r.Rejected? ==> exists u ::
        && u in old(q.uploads) && old(q.uploads)[u].key == key
        && q.uploads == (if Takes(DropUpload, faults, applied) then old(q.uploads) - {u} else old(q.uploads))
        && View() == old(View()).(uploads := q.uploads)
      ensures r.Completed? ==>
        && r.upload in old(q.uploads) && old(q.uploads)[r.upload].key == key
        && Acceptable(old(q.uploads)[r.upload], old(adapter.objects), r.upload)
        && Installed(View(), old(View()), r.upload, l, old(q.uploads)[r.upload].finished, now)
      ensures r.FailedLate? ==> exists u ::
        && u in old(q.uploads) && old(q.uploads)[u].key == key && Acceptable(old(q.uploads)[u], old(adapter.objects), u)
        && (u in q.uploads <==> EarlierFault(old(View()), key, faults) || !applied(DropUpload))
        && (if u in q.uploads then Halfway(View(), old(View()), u, l, old(q.uploads)[u].finished, faults, applied)
            else Installed(View(), old(View()), u, l, old(q.uploads)[u].finished, now))
      ensures Owned(old(View())) ==>
        && (Owned(View()) <==>
              !r.FailedLate? || (!EarlierFault(old(View()), key, faults) && applied(DropUpload)))
        && (Owned(View()) ==> Keeps(View(), old(View())))
    {
      hide Owned, Keyed, Linked, Keeps, PartsOf, DropFolder, HasEntry, Installed, Standing, Halfway, EarlierFault;
      KeepsItself(View());
      ghost var before := View();
      if faults(FindUpload) {
        return Failed;
      }
      var found := q.FindUploadByKey(key);
      if found.None? {
        return NoUpload;
      }
      var u := found.value;
      var row := q.uploads[u];
      OneUpload(before, key, u);
      RejectedOwned(before, u);
      if row.finished == 0 || row.started != row.finished {
        if !faults(DropUpload) || applied(DropUpload) {
          q.DeleteUpload(u);
        }
        return Rejected;
      }
      var count := adapter.CountParts(u, faults(CountFiles));
      if count.None? {
        return Failed;
      }
      if count.value != row.finished {
        if !faults(DropUpload) || applied(DropUpload) {
          q.DeleteUpload(u);
        }
        return Rejected;
      }
      if faults(AddLocation) && !applied(AddLocation) {
        EarlyFault(before, key, faults);
        return Failed;
      }
      r := Install(u, l, e, count.value, now, faults, applied, kept);
      if u in q.uploads {
        HalfwayShared(View(), before, u, l, count.value, faults, applied);
      }
    }

    /** The statements from the new location's insertion on.  A failure from here on leaves it there. */
    method Install(
      u: nat, l: nat, e: nat, count: nat, now: int, faults: Faults, applied: Faults, kept: set<Object>)
      returns (r: Finalize)
      requires u in q.uploads && l !in q.locations && e !in q.entries && count > 0 && Linked(View())
      requires Takes(AddLocation, faults, applied)
      modifies q, adapter
      ensures r == if LateFault(old(View()), old(q.uploads)[u].key, faults) then FailedLate else Completed(u)
      ensures u !in q.uploads
         <==> !EarlierFault(old(View()), old(q.uploads)[u].key, faults) && Takes(DropUpload, faults, applied)
      ensures u !in q.uploads ==> Installed(View(), old(View()), u, l, count, now)
      ensures u !in q.uploads && Owned(old(View())) ==> Owned(View()) && Keeps(View(), old(View()))
      ensures u in q.uploads ==> Halfway(View(), old(View()), u, l, count, faults, applied)
    {
      hide Owned, Keyed, Linked, Keeps, DropFolder, Standing, Archive, Whole, Parts, HasEntry, Chosen, Dropped;
      hide Installed, HalfOwned, Serves;
      ghost var before := View();
      var key := q.uploads[u].key;
      q.InsertStorageLocation(l, Location(u, count, None, None, None, None));
      InsertedStands(before, u, l, count);
      InsertedHalf(before, u, l, count);
      if faults(AddLocation) || faults(FindEntry) {
        return FailedLate;
      }
      var existing := q.FindExistingCacheEntryWithLocation(key);
      if existing.Some? {
        var d := existing.value;
        SomeChosen(before, key, d, l);
        ChosenLocation(before, key, d, before.entries[d].location);
        var ok := Replace(d, l, now, faults, applied, kept, before, u, count);
        if !ok || (faults(DropUpload) && !applied(DropUpload)) {
          return FailedLate;
        }
        ReplacedAs(before, u, l, d, count, now);
        q.DeleteUpload(u);
        InstalledAs(before, u, l, d, count, now, Some(before.entries[d].location));
      } else {
        assert existing == None && before.entries == q.entries;
        forall k | k in before.entries && before.entries[k].location in q.locations
          ensures before.entries[k].key != key
        {
          assert q.entries[k].key != key;
        }
        NoneChosen(before, q.locations, key, e, l);
        if faults(AddEntry) && !applied(AddEntry) {
          return FailedLate;
        }
        var ok := q.InsertCacheEntry(e, Entry(key, now, l));
        AddedStands(before, u, l, count, now, e);
        AddedHalf(before, u, l, count, now, e);
        assert View() == Inserted(before, u, l, count).(entries := before.entries[e := Entry(key, now, l)]);
        if faults(AddEntry) || (faults(DropUpload) && !applied(DropUpload)) {
          return FailedLate;
        }
        q.DeleteUpload(u);
        assert View() == Finalized(before, u, l, e, count, now, None);
        InstalledAs(before, u, l, e, count, now, None);
      }
      r := if faults(DropUpload) then FailedLate else Completed(u);
    }

    /** Points entry d to the new location, and deletes the old one and its folder. */
    method Replace(d: nat, l: nat, now: int, faults: Faults, applied: Faults, kept: set<Object>,
                   ghost before: Rows, ghost u: nat, ghost count: nat) returns (ok: bool)
      requires Linked(before) && u in before.uploads && d in before.entries && l !in before.locations
      requires before.entries[d].location in before.locations && View() == Inserted(before, u, l, count)
      modifies q, adapter
      ensures ok <==> !faults(Repoint) && !faults(DropOldLocation) && !faults(DropOldFolder)
      ensures ok ==> View() == Dropped(before, u, l, count, now, d, {})
      ensures q.uploads == old(q.uploads) && l in q.locations && q.locations[l] == old(q.locations)[l]
      ensures Owned(before) ==> HalfOwned(View(), u) && Standing(View(), before, l, u, count)
      ensures Serves(View(), before.entries[d].key, l) <==> Takes(Repoint, faults, applied)
    {
      hide Owned, Linked, DropFolder, Standing, HalfOwned, Serves;
      InsertedStands(before, u, l, count);
      InsertedHalf(before, u, l, count);
      var was := q.entries[d].location;
      var folder := q.locations[was].folder;
      if faults(Repoint) && !applied(Repoint) {
        return false;
      }
      ok := q.UpdateCacheEntryLocation(d, l, now);
      RepointedStands(before, u, l, count, now, d);
      RepointedHalf(before, u, l, count, now, d);
      if faults(Repoint) || (faults(DropOldLocation) && !applied(DropOldLocation)) {
        return false;
      }
      NothingCascades(before, d, l, now);
      q.DeleteStorageLocation(was);
      ghost var left := before.objects.Keys;
      if !faults(DropOldLocation) {
        ok := adapter.DeleteFolder(folder, faults(DropOldFolder), kept);
        left := if faults(DropOldFolder) then kept else {};
      } else {
        DropNothing(before.objects, folder);
        ok := false;
      }
      DroppedOwned(before, u, l, count, now, d, left);
      DroppedHalf(before, u, l, count, now, d, left);
      assert View() == Dropped(before, u, l, count, now, d, left);
    }

    // ----- downloads -----

    /** At most `stop` bytes are sent before reading or writing fails; without it nothing fails but the opening
        of a part that is not there. */
    method StreamPartsTo(folder: nat, partCount: nat, stop: Option<nat>) returns (sent: Bytes, ok: bool)
      ensures sent <= Content(Parts(adapter.objects, folder), partCount)
      ensures ok ==> Whole(Parts(adapter.objects, folder), partCount) == Some(sent)
      ensures stop.Some? ==> |sent| <= stop.value
      ensures !ok && stop.None? ==> !HasFirst(Parts(adapter.objects, folder), partCount)
      ensures !ok && stop.None? ==> sent == Content(Parts(adapter.objects, folder), partCount)
      ensures !ok && stop.Some? && HasFirst(Parts(adapter.objects, folder), partCount) ==> |sent| == stop.value
    {
      ghost var parts := Parts(adapter.objects, folder);
      sent := [];
      var i := 0;
      while i < partCount
        invariant 0 <= i <= partCount && HasFirst(parts, i) && sent == Join(parts, i)
        invariant stop.Some? ==> |sent| <= stop.value
      {
        var r := adapter.CreateDownloadStream(Part(folder, i), false);
        if !r.Stream? {
          LeadingStops(parts, i, partCount);
          return sent, false;
        }
        assert i in parts && parts[i] == r.body;
        JoinWithinContent(parts, i + 1, partCount);
        if stop.Some? && |sent| + |r.body| > stop.value {
          sent := sent + r.body[..stop.value - |sent|];
          return sent, false;
        }
        sent := sent + r.body;
        i := i + 1;
      }
      JoinWithinContent(parts, partCount, partCount);
      ok := true;
    }

    /** The worker of a first download: `body` is the archive if the copy ended cleanly. */
    method Merge(l: nat, body: Option<Bytes>, now: int, faults: Faults, stored: bool, kept: set<Object>)
      requires l in q.locations && q.locations[l].mergedAt.None?
      requires body.Some? ==> Archive(q.locations, adapter.objects, l) == body
      modifies q, adapter
      ensures q.uploads == old(q.uploads) && q.entries == old(q.entries)
      ensures Owned(old(View())) ==> Owned(View()) && Keeps(View(), old(View()))
      ensures q.locations == old(q.locations)[l := AfterMerge(old(q.locations)[l], body.Some?, now, faults)]
      ensures adapter.objects
             == StoredObjects(old(adapter.objects), old(q.locations)[l].folder, body, faults, stored, kept)
    {
      hide Owned, Keeps, Archive, Parts, Whole, DropParts;
      ghost var before := View();
      var folder := q.locations[l].folder;
      var ok := adapter.UploadStream(Merged(folder), body, faults(StoreMerged), stored);
      ghost var put := if body.Some? && (!faults(StoreMerged) || stored) then body else None;
      StoreMergedKeeps(before, View(), l, put);
      if !ok {
        if !faults(Reset) {
          q.ResetStorageMerge(l);
        }
        StoreMergedKeeps(before, View(), l, put);
        return;
      }
      if faults(MarkMerged) {
        return;
      }
      q.UpdateStorageMerged(l, now);
      if !faults(MarkPartsDeleted) {
        q.UpdateStoragePartsDeleted(l, now);
      }
      ok := adapter.DeleteParts(folder, faults(DropMergedParts), kept);
      MergedKeeps(before, View(), l, if faults(DropMergedParts) then kept else {}, body.value);
    }

    /** The first download copies the parts to the client and to the merge upload in lockstep; once both ended
        cleanly the merged object is stored, marked, and takes the place of the parts. */
    method Download(e: nat, now: int, faults: Faults, stop: Option<nat>, stored: bool, kept: set<Object>)
      returns (r: Reader)
      modifies q, adapter
      ensures q.uploads == old(q.uploads) && q.entries == old(q.entries)
      ensures Owned(old(View())) ==> Owned(View()) && Keeps(View(), old(View()))
      ensures r.Reader? ==> (
        && e in q.entries && r.sent <= Available(old(q.locations), old(adapter.objects), q.entries[e].location)
        && (r.clean ==> Archive(old(q.locations), old(adapter.objects), q.entries[e].location) == Some(r.sent)))
      ensures r.NoReader? ==> faults(FindDownload) || faults(OpenMerged) || faults(CountFiles) || faults(MarkStarted)
      ensures r.NoEntry? && e in q.entries
             ==> Archive(old(q.locations), old(adapter.objects), q.entries[e].location).None?
      ensures Undisturbed(old(View()), e, faults, stop) ==> r.Reader? && r.clean
      ensures e !in q.entries || q.entries[e].location !in old(q.locations) ==> View() == old(View())
      ensures e in q.entries && q.entries[e].location in old(q.locations) ==> (
        var l := q.entries[e].location;
        var row := AfterTouch(old(q.locations)[l], now, faults);
        var first := r.Reader? && row.mergedAt.None? && row.mergeStartedAt.None?;
        && q.locations == old(q.locations)[l :=
             if first then AfterMerge(row.(mergeStartedAt := Some(now)), r.clean, now, faults) else row]
        && adapter.objects == if first
             then StoredObjects(old(adapter.objects), row.folder, Copied(r), faults, stored, kept)
             else old(adapter.objects))
    {
      hide Owned, Keeps, Archive, Parts, Whole, Available, Content, PartsOf, AfterMerge, StoredObjects;
      ghost var before := View();
      KeepsItself(before);
      if faults(FindDownload) {
        return NoReader;
      }
      if e !in q.entries {
        return NoEntry;
      }
      if q.entries[e].location !in q.locations {
        NoArchive(before, e);
        return NoEntry;
      }
      var l := q.entries[e].location;
      var row := q.locations[l];
      if !faults(Touch) {
        q.UpdateStorageLastDownloaded(l, now);
      }
      ghost var touched := View();
      TouchKeeps(before, touched, l);
      r := Serve(l, now, faults, stop, stored, kept);
      SameLocations(View(), touched, before);
    }

    /** Where the bytes come from is decided by the row's timestamps. */
    method Serve(l: nat, now: int, faults: Faults, stop: Option<nat>, stored: bool, kept: set<Object>)
      returns (r: Reader)
      requires l in q.locations
      modifies q, adapter
      ensures q.uploads == old(q.uploads) && q.entries == old(q.entries)
      ensures Owned(old(View())) ==> Owned(View()) && Keeps(View(), old(View()))
      ensures r.Reader? ==> r.sent <= Available(old(q.locations), old(adapter.objects), l)
      ensures r.Reader? && r.clean ==> Archive(old(q.locations), old(adapter.objects), l) == Some(r.sent)
      ensures r.NoReader? ==> faults(OpenMerged) || faults(CountFiles) || faults(MarkStarted)
      ensures r.NoEntry? ==> Archive(old(q.locations), old(adapter.objects), l).None?
      ensures Archive(old(q.locations), old(adapter.objects), l).Some? && (forall c :: !faults(c)) && stop.None?
              ==> r.Reader? && r.clean
      ensures var row := old(q.locations)[l];
        var first := r.Reader? && row.mergedAt.None? && row.mergeStartedAt.None?;
        && q.locations == (
             if first then old(q.locations)[l := AfterMerge(row.(mergeStartedAt := Some(now)), r.clean, now, faults)]
             else old(q.locations))
        && adapter.objects == (
             if first then StoredObjects(old(adapter.objects), row.folder, Copied(r), faults, stored, kept)
             else old(adapter.objects))
    {
      hide Owned, Keeps, Archive, Parts, Whole, Available, Content, PartsOf, AfterMerge, StoredObjects;
      ghost var before := View();
      KeepsItself(before);
      var row := q.locations[l];
      if row.mergedAt.Some? {
        var got := adapter.CreateDownloadStream(Merged(row.folder), faults(OpenMerged));
        MergedArchive(before, l);
        match got
        case Missing => return NoEntry;
        case OpenFailed => return NoReader;
        case Stream(b) =>
          if stop.Some? && |b| > stop.value {
            return Reader(b[..stop.value], false);
          }
          return Reader(b, true);
      }
      PartsArchive(before, l);
      if row.mergeStartedAt.Some? {
        var sent, ok := StreamPartsTo(row.folder, row.partCount, stop);
        return Reader(sent, ok);
      }
      r := FirstDownload(l, now, faults, stop, stored, kept);
    }

    /** No merge has been started: copy, and merge in the background. */
    method FirstDownload(l: nat, now: int, faults: Faults, stop: Option<nat>, stored: bool, kept: set<Object>)
      returns (r: Reader)
      requires l in q.locations && q.locations[l].mergedAt.None? && q.locations[l].mergeStartedAt.None?
      modifies q, adapter
      ensures q.uploads == old(q.uploads) && q.entries == old(q.entries)
      ensures Owned(old(View())) ==> Owned(View()) && Keeps(View(), old(View()))
      ensures l in q.locations
      ensures r.Reader? ==> r.sent <= Available(old(q.locations), old(adapter.objects), l)
      ensures r.Reader? && r.clean ==> Archive(old(q.locations), old(adapter.objects), l) == Some(r.sent)
      ensures r.NoReader? ==> faults(CountFiles) || faults(MarkStarted)
      ensures r.NoEntry? ==> Archive(old(q.locations), old(adapter.objects), l).None?
      ensures Archive(old(q.locations), old(adapter.objects), l).Some? && (forall c :: !faults(c)) && stop.None?
             ==> r.Reader? && r.clean
      ensures q.locations == if r.Reader?
        then old(q.locations)[l := AfterMerge(old(q.locations)[l].(mergeStartedAt := Some(now)), r.clean, now, faults)]
        else old(q.locations)
      ensures r.Reader? ==> (adapter.objects
        == StoredObjects(old(adapter.objects), old(q.locations)[l].folder, Copied(r), faults, stored, kept))
      ensures !r.Reader? ==> adapter.objects == old(adapter.objects)
      ensures (forall c :: !faults(c)) && r.Reader? ==>
        if r.clean then ReplacedByMerged(q.locations[l], adapter.objects, r.sent)
        else Unmerged(q.locations[l]) && adapter.objects == old(adapter.objects)
    {
      hide Owned, Keeps, Archive, Parts, Whole, Available, Content, PartsOf, AfterMerge, StoredObjects;
      hide ReplacedByMerged;
      ghost var before := View();
      KeepsItself(before);
      PartsArchive(before, l);
      var row := q.locations[l];
      var count := adapter.CountParts(row.folder, faults(CountFiles));
      EnoughParts(adapter.objects, row.folder, row.partCount);
      if count.None? {
        return NoReader;
      }
      if count.value < row.partCount {
        return NoEntry;
      }
      if faults(MarkStarted) {
        return NoReader;
      }
      q.UpdateStorageMergeStarted(l, now);
      StartKeeps(before, View(), l);
      var sent, ok := StreamPartsTo(row.folder, row.partCount, stop);
      ghost var started := View();
      Merge(l, if ok then Some(sent) else None, now, faults, stored, kept);
      SameLocations(View(), started, before);
      FirstDownloadOutcome(row, before.objects, sent, ok, now, faults, stored, kept);
      return Reader(sent, ok);
    }
  }

  /** All three timestamps are set, and the merged object is what was sent; no part is left. */
  predicate ReplacedByMerged(row: Location, objects: map<Object, Bytes>, sent: Bytes) {
    && row.mergeStartedAt.Some? && row.mergedAt.Some? && row.partsDeletedAt.Some?
    && Merged(row.folder) in objects && objects[Merged(row.folder)] == sent && PartsOf(objects, row.folder) == {}
  }

  predicate Unmerged(row: Location) {
    row.mergeStartedAt.None? && row.mergedAt.None?
  }

  lemma FirstDownloadOutcome(row: Location, objects: map<Object, Bytes>, sent: Bytes, clean: bool, now: int,
                             faults: Faults, stored: bool, kept: set<Object>)
    ensures
      var after := AfterMerge(row.(mergeStartedAt := Some(now)), clean, now, faults);
      var left := StoredObjects(objects, row.folder, if clean then Some(sent) else None, faults, stored, kept);
      (forall c :: !faults(c)) ==>
        if clean then ReplacedByMerged(after, left, sent) else Unmerged(after) && left == objects
  {
  }

  /** A new upload is nobody's folder, unless a location has it. */
  lemma CreatedOwned(r: Rows, id: nat, row: Upload)
    requires id !in r.uploads && forall u :: u in r.uploads ==> r.uploads[u].key != row.key
    ensures Owned(r) ==>
      (Owned(r.(uploads := r.uploads[id := row])) <==> forall l :: l in r.locations ==> r.locations[l].folder != id)
  {
  }

  /** The whole new state after a finalize, and what the key's entry then serves: the uploaded parts, or nothing if
      the replaced location had the upload's own folder. */
  ghost predicate Installed(after: Rows, before: Rows, u: nat, l: nat, count: nat, now: int)
    requires u in before.uploads
  {
    exists d, replaced ::
      && Chosen(before, before.uploads[u].key, d, replaced)
      && after == Finalized(before, u, l, d, count, now, replaced)
      && Serves(after, before.uploads[u].key, l)
      && Archive(after.locations, after.objects, l)
         == if ReplacesItself(before, u, replaced) then None else Whole(Parts(before.objects, u), count)
  }

  /** What a late failure leaves that has not deleted the upload: the new location shares the upload's folder. */
  ghost predicate Halfway(
    after: Rows, before: Rows, u: nat, l: nat, count: nat, faults: Faults, applied: Faults)
    requires u in before.uploads
  {
    && u in after.uploads && l in after.locations && after.locations[l].folder == u
    && (Serves(after, before.uploads[u].key, l) <==> PointsEntry(before, before.uploads[u].key, faults, applied))
    && (Owned(before) ==> HalfOwned(after, u) && Standing(after, before, l, u, count))
  }

  lemma HalfwayShared(
    after: Rows, before: Rows, u: nat, l: nat, count: nat, faults: Faults, applied: Faults)
    requires u in before.uploads && Halfway(after, before, u, l, count, faults, applied)
    ensures !Owned(after)
  {
    FolderShared(after, l);
  }

  lemma EarlyFault(r: Rows, key: Key, faults: Faults)
    requires faults(AddLocation)
    ensures EarlierFault(r, key, faults)
  {
  }

  lemma InstalledAs(before: Rows, u: nat, l: nat, d: nat, count: nat, now: int, replaced: Option<nat>)
    requires u in before.uploads && l !in before.locations && count > 0
    requires Chosen(before, before.uploads[u].key, d, replaced)
    ensures
      var after := Finalized(before, u, l, d, count, now, replaced);
      && Installed(after, before, u, l, count, now)
      && (Owned(before) ==> Owned(after) && Keeps(after, before))
  {
    hide Owned, Keeps, Archive, Serves, Chosen, Finalized, Whole, Parts;
    FinalizedArchive(before, u, l, d, count, now, replaced);
    if Owned(before) {
      FinalizedOwned(before, u, l, d, count, now, replaced);
      FinalizedKeeps(before, u, l, d, count, now, replaced);
    }
  }

  /** What a retry that reports success has done, in the state a late failure leaves: if the key's entry pointed to the
      new location already, everything is owned again but the archive is lost; if not, two locations share its
      folder. */
  lemma RetryExactly(after: Rows, r: Rows, u: nat, l: nat, k: nat, count: nat, now: int)
    requires HalfOwned(r, u) && l in r.locations && r.locations[l].folder == u && k !in r.locations && count > 0
    requires Installed(after, r, u, k, count, now)
    ensures Serves(after, r.uploads[u].key, k)
    ensures if Serves(r, r.uploads[u].key, l)
            then Owned(after) && Archive(after.locations, after.objects, k).None?
            else !Owned(after) && l in after.locations && after.locations[l].folder == after.locations[k].folder
  {
    hide Owned, Archive, Finalized, Keyed;
    var key := r.uploads[u].key;
    var d, replaced :|
      Chosen(r, key, d, replaced) && after == Finalized(r, u, k, d, count, now, replaced) && Serves(after, key, k);
    OneEntry(r, key, l, d, replaced);
    if Serves(r, key, l) {
      RetryEmptiesArchive(r, u, l, d, k, count, now);
    } else {
      RetrySharesFolder(r, u, l, d, k, count, now, replaced);
    }
  }

  lemma OneEntry(r: Rows, key: Key, l: nat, d: nat, replaced: Option<nat>)
    requires Keyed(r) && Chosen(r, key, d, replaced)
    ensures Serves(r, key, l) <==> replaced == Some(l)
  {
  }

  lemma ReplacedAs(r: Rows, u: nat, l: nat, d: nat, count: nat, now: int)
    requires u in r.uploads && d in r.entries && r.entries[d].location in r.locations && l !in r.locations
    requires r.entries[d].key == r.uploads[u].key
    ensures
      var s := Dropped(r, u, l, count, now, d, {});
      s.(uploads := s.uploads - {u}) == Finalized(r, u, l, d, count, now, Some(r.entries[d].location))
      && s.uploads == r.uploads
  {
    var was := r.entries[d].location;
    assert (r.locations - {was})[l := Location(u, count, None, None, None, None)]
        == r.locations[l := Location(u, count, None, None, None, None)] - {was};
  }

  lemma ChosenLocation(r: Rows, key: Key, d: nat, l: nat)
    requires Chosen(r, key, d, Some(l))
    ensures d in r.entries && r.entries[d].key == key && r.entries[d].location == l && l in r.locations
  {
  }

  lemma DropNothing(objects: map<Object, Bytes>, folder: nat)
    ensures DropFolder(objects, folder, objects.Keys) == objects
  {
  }

  lemma DroppedOwned(r: Rows, u: nat, l: nat, count: nat, now: int, d: nat, kept: set<Object>)
    requires u in r.uploads && l !in r.locations && d in r.entries && r.entries[d].location in r.locations
    ensures Owned(r) ==> Standing(Dropped(r, u, l, count, now, d, kept), r, l, u, count)
  {
    if Owned(r) {
      DroppedStands(r, u, l, count, now, d, kept);
    }
  }

  /** With one upload per key, the one found decides. */
  lemma OneUpload(r: Rows, key: Key, u: nat)
    requires u in r.uploads && r.uploads[u].key == key
    ensures Keyed(r) ==> forall v :: v in r.uploads && r.uploads[v].key == key ==> v == u
  {
  }

  /** What the merge upload is given: everything, if the copy ended cleanly. */
  function Copied(r: Reader): Option<Bytes>
    requires r.Reader?
  {
    if r.clean then Some(r.sent) else None
  }

  /** The row after the merge worker: back to unmerged if there is no archive or storing it failed; otherwise
      merged, if that could be noted, and then the parts are marked as deleted. */
  function AfterMerge(row: Location, complete: bool, now: int, faults: Faults): Location {
    if !complete || faults(StoreMerged) then
      if faults(Reset) then row else row.(mergeStartedAt := None, mergedAt := None)
    else if faults(MarkMerged) then row
    else row.(mergedAt := Some(now),
              partsDeletedAt := if faults(MarkPartsDeleted) then row.partsDeletedAt else Some(now))
  }

  function AfterTouch(row: Location, now: int, faults: Faults): Location {
    if faults(FindDownload) || faults(Touch) then row else row.(lastDownloadedAt := Some(now))
  }

  /** The objects after the merge worker: parts are only dropped once the merged object is stored and noted. */
  function StoredObjects(
      objects: map<Object, Bytes>, folder: nat, body: Option<Bytes>, faults: Faults, stored: bool, kept: set<Object>)
    : map<Object, Bytes>
  {
    if body.None? || faults(StoreMerged) then Store(objects, folder, if stored then body else None)
    else if faults(MarkMerged) then Store(objects, folder, body)
    else DropParts(Store(objects, folder, body), folder, if faults(DropMergedParts) then kept else {})
  }

  /** All that a reader can be sent. */
  function Available(locations: map<nat, Location>, objects: map<Object, Bytes>, l: nat): Bytes {
    if l !in locations then []
    else
      var row := locations[l];
      if row.mergedAt.Some? then
        if Merged(row.folder) in objects then objects[Merged(row.folder)] else []
      else Content(Parts(objects, row.folder), row.partCount)
  }

  /** The entry has its archive and nothing fails. */
  ghost predicate Undisturbed(r: Rows, e: nat, faults: Faults, stop: Option<nat>) {
    && e in r.entries && Archive(r.locations, r.objects, r.entries[e].location).Some?
    && (forall c :: !faults(c)) && stop.None?
  }

  lemma LeadingStops(parts: map<int, Bytes>, i: nat, n: nat)
    requires i < n && HasFirst(parts, i) && i !in parts
    ensures !HasFirst(parts, n) && Content(parts, n) == Join(parts, i)
  {
    assert Leading(parts, n) == i;
  }

  lemma NoArchive(r: Rows, e: nat)
    requires e in r.entries && r.entries[e].location !in r.locations
    ensures Archive(r.locations, r.objects, r.entries[e].location).None?
  {
  }

  lemma MergedArchive(r: Rows, l: nat)
    requires l in r.locations && r.locations[l].mergedAt.Some?
    ensures
      var o := Merged(r.locations[l].folder);
      && Archive(r.locations, r.objects, l) == (if o in r.objects then Some(r.objects[o]) else None)
      && Available(r.locations, r.objects, l) == if o in r.objects then r.objects[o] else []
  {
  }

  lemma PartsArchive(r: Rows, l: nat)
    requires l in r.locations && r.locations[l].mergedAt.None?
    ensures
      var row := r.locations[l];
      && Archive(r.locations, r.objects, l) == Whole(Parts(r.objects, row.folder), row.partCount)
      && Available(r.locations, r.objects, l) == Content(Parts(r.objects, row.folder), row.partCount)
      && (Archive(r.locations, r.objects, l).Some? <==> HasFirst(Parts(r.objects, row.folder), row.partCount))
  {
  }

  lemma EnoughParts(objects: map<Object, Bytes>, folder: nat, n: nat)
    ensures HasFirst(Parts(objects, folder), n) ==> |PartsOf(objects, folder)| >= n
  {
    if HasFirst(Parts(objects, folder), n) {
      FirstParts(objects, folder, n);
      SubsetSize(PartNames(folder, n), PartsOf(objects, folder));
    }
  }

  function PartNames(folder: nat, n: nat): (s: set<Object>)
    ensures |s| == n && forall o :: o in s <==> o.Part? && o.folder == folder && 0 <= o.index < n
  {
    if n == 0 then {} else PartNames(folder, n - 1) + {Part(folder, n - 1)}
  }

  lemma FirstParts(objects: map<Object, Bytes>, folder: nat, n: nat)
    requires HasFirst(Parts(objects, folder), n)
    ensures PartNames(folder, n) <= PartsOf(objects, folder)
  {
    forall o | o in PartNames(folder, n) ensures o in PartsOf(objects, folder) {
      assert o.index in Parts(objects, folder);
    }
  }

  lemma TouchKeeps(before: Rows, after: Rows, l: nat)
    requires l in before.locations && l in after.locations
    requires after == before.(locations := before.locations[l := after.locations[l]])
    requires after.locations[l].(lastDownloadedAt := None) == before.locations[l].(lastDownloadedAt := None)
    ensures Owned(before) ==> Owned(after) && Keeps(after, before)
    ensures Archive(after.locations, after.objects, l) == Archive(before.locations, before.objects, l)
    ensures Available(after.locations, after.objects, l) == Available(before.locations, before.objects, l)
  {
    SameArchive(after.locations, after.objects, before.locations, before.objects, l);
    if Owned(before) {
      OneLocationKeeps(before, after, l);
    }
  }

  lemma StartKeeps(before: Rows, after: Rows, l: nat)
    requires l in before.locations && l in after.locations
    requires after == before.(locations := before.locations[l := after.locations[l]])
    requires after.locations[l].folder == before.locations[l].folder
    requires after.locations[l].partCount == before.locations[l].partCount
    requires after.locations[l].mergedAt.None? && before.locations[l].mergedAt.None?
    ensures Owned(before) ==> Owned(after) && Keeps(after, before)
    ensures Archive(after.locations, after.objects, l) == Archive(before.locations, before.objects, l)
  {
    if Owned(before) {
      OneLocationKeeps(before, after, l);
    }
  }

  function Store(objects: map<Object, Bytes>, folder: nat, body: Option<Bytes>): map<Object, Bytes> {
    if body.Some? then objects[Merged(folder) := body.value] else objects
  }

  lemma StoreObjects(objects: map<Object, Bytes>, folder: nat, body: Option<Bytes>)
    ensures Parts(Store(objects, folder, body), folder) == Parts(objects, folder)
    ensures forall f :: f != folder ==> SameFolder(Store(objects, folder, body), objects, f)
  {
  }

  /** As long as mergedAt is not set, a merged object is not looked at. */
  lemma StoreMergedKeeps(before: Rows, after: Rows, l: nat, body: Option<Bytes>)
    requires l in before.locations && l in after.locations && before.locations[l].mergedAt.None?
    requires after.uploads == before.uploads && after.entries == before.entries
    requires after.locations == before.locations[l := after.locations[l]]
    requires after.locations[l].folder == before.locations[l].folder
    requires after.locations[l].partCount == before.locations[l].partCount
    requires after.locations[l].mergedAt.None?
    requires after.objects == Store(before.objects, before.locations[l].folder, body)
    ensures Owned(before) ==> Owned(after) && Keeps(after, before)
  {
    StoreObjects(before.objects, before.locations[l].folder, body);
    PartsArchive(before, l);
    PartsArchive(after, l);
    hide *;
    if Owned(before) {
      OneLocationKeeps(before, after, l);
    }
  }

  lemma DropObjects(objects: map<Object, Bytes>, folder: nat, kept: set<Object>, x: Bytes)
    ensures
      var after := DropParts(objects[Merged(folder) := x], folder, kept);
      Merged(folder) in after && after[Merged(folder)] == x && forall f :: f != folder ==> SameFolder(after, objects, f)
  {
  }

  /** Once it is set, the merged object stands for the parts, deleted or not. */
  lemma MergedKeeps(before: Rows, after: Rows, l: nat, kept: set<Object>, x: Bytes)
    requires l in before.locations && l in after.locations
    requires Archive(before.locations, before.objects, l) == Some(x)
    requires after.uploads == before.uploads && after.entries == before.entries
    requires after.locations == before.locations[l := after.locations[l]]
    requires after.locations[l].folder == before.locations[l].folder && after.locations[l].mergedAt.Some?
    requires after.objects
           == DropParts(before.objects[Merged(before.locations[l].folder) := x], before.locations[l].folder, kept)
    ensures Owned(before) ==> Owned(after) && Keeps(after, before)
  {
    DropObjects(before.objects, before.locations[l].folder, kept, x);
    MergedArchive(after, l);
    hide *;
    if Owned(before) {
      OneLocationKeeps(before, after, l);
    }
  }

  lemma SameLocations(c: Rows, b: Rows, a: Rows)
    requires c.uploads == b.uploads == a.uploads && b.locations.Keys == a.locations.Keys
    ensures Keeps(c, b) && Keeps(b, a) ==> Keeps(c, a)
  {
    if Keeps(c, b) && Keeps(b, a) {
      KeepsTransitive(c, b, a);
    }
  }
}
