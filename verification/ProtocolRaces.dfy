/** What the events of `Harms` cost: interleavings that lose an archive although its row, and the entry that points
    to it, stay. */
module ProtocolRaces {
  import opened Protocol
  import opened ProtocolAvailability
  import opened ProtocolRuns
  import opened ProtocolSafety
  import opened Types

  /** The state after goroutine a marked its location as merging. */
  lemma MarkSetsRow(s: State, a: nat, now: int)
    requires CanDownload(s, a, MarkMergeStarted(now)) && s.actors[a].loc in s.locations
    ensures var d, t := s.actors[a], DoDownload(s, a, MarkMergeStarted(now));
      && Beside(s, t, d.loc, {a}) && d.loc in t.locations && t.actors == s.actors[a := d.(at := Register)]
      && t.locations[d.loc] == s.locations[d.loc].(mergeStartedAt := Some(now))
      && t.parts == s.parts && t.merged == s.merged
  {
  }

  /** Goroutine b, which merges location l, has a worker that has not finished its upload, or has. */
  lemma ItsWorker(s: State, b: nat, l: nat, u: nat) returns (t: State, v: nat)
    requires b in s.actors && Merges(s.actors[b], u) && HeldLocation(s.actors[b]) == l && l in s.locations
    ensures LeadsQuietly(s, t, u) && Beside(s, t, l, {b, v}) && t.locations == s.locations
    ensures PartsOf(t, u) == PartsOf(s, u)
    ensures WorkerOf(t, v, l, u) && MergingPc(t.actors[v].pc)
    ensures v == b || v !in s.actors
  {
    if s.actors[b].Worker? {
      LeadsNowhere(s, u);
      t, v := s, b;
    } else {
      v := Unused(s.actors.Keys);
      t := SpawnWorker(s, b, v, l, u);
    }
  }

  lemma OthersStay(s: State, t: State, l: nat, a: nat, b: nat, c: nat)
    requires Beside(s, t, l, {a, b}) && c in s.actors && c != a && c != b
    ensures c in t.actors && t.actors[c] == s.actors[c]
  {
  }

  lemma OneFails(s: State, w: nat, v: nat, l: nat, u: nat) returns (t: State)
    requires WorkerOf(s, w, l, u) && s.actors[w].pc == Uploading && Has(s, l, u) && v != w
    requires var a := s.actors[w].copier;
      && a in s.actors && s.actors[a].Copier? && Between(s.actors[a].stream) && s.actors[a].stream.folder == u
      && HasFirst(PartsOf(s, u), s.actors[a].stream.partCount)
    requires WorkerOf(s, v, l, u) && MergingPc(s.actors[v].pc)
    ensures LeadsQuietly(s, t, u) && Has(t, l, u) && t.locations[l].mergedAt.None?
    ensures PartsOf(t, u) == map[] && t.frozen == s.frozen
  {
    hide LeadsQuietly, PartsOf;
    if s.actors[v].pc == MarkMerged {
      var s1 := FinishMerge(s, v, l, u);
      assert WorkerOf(s1, w, l, u) && s1.actors[w] == s.actors[w];
      t := FailingMerge(s1, w, l, u);
      LeadsFurther(s, s1, t, u);
    } else {
      t := TwoWorkers(s, w, v, l, u);
    }
  }

  lemma SameParts(s: State, t: State, u: nat)
    requires t.parts == s.parts
    ensures PartsOf(t, u) == PartsOf(s, u)
  {
  }

  // ---------- a new download of an unmerged archive ----------

  /** Entry e points to location l of folder u, on which no merge has begun. */
  ghost predicate Fresh(s: State, e: nat, l: nat, u: nat) {
    && e in s.entries && s.entries[e].location == l && Has(s, l, u)
    && s.locations[l].mergeStartedAt.None? && s.locations[l].mergedAt.None? && s.locations[l].partsDeletedAt.None?
    && |PartsOf(s, u)| >= s.locations[l].partCount && HasFirst(PartsOf(s, u), s.locations[l].partCount)
  }

  lemma FreshFacts(s: State, e: nat, l: nat, u: nat)
    requires Fresh(s, e, l, u)
    ensures e in s.entries && s.entries[e].location == l && Has(s, l, u)
    ensures HasFirst(PartsOf(s, u), s.locations[l].partCount)
  {
  }

  function DownloaderOf(s: State, e: nat, at: DownloadPc): Actor
    requires e in s.entries && s.entries[e].location in s.locations
  {
    var r := s.locations[s.entries[e].location];
    Downloader(s.entries[e].key, s.entries[e].location, r.folder, r.partCount, at)
  }

  /** A download reads the row and finds all parts. */
  lemma Check(s: State, e: nat, l: nat, u: nat, a: nat) returns (t: State)
    requires Fresh(s, e, l, u) && a !in s.actors
    ensures LeadsQuietly(s, t, u) && t == Set(s, a, DownloaderOf(s, e, MarkStarted)) && Fresh(t, e, l, u)
  {
    var start, check := StartStep(a, BeginDownload(e)), DownloadStep(a, CheckAllParts);
    var s1 := Set(s, a, DownloaderOf(s, e, CheckParts));
    t := Set(s, a, DownloaderOf(s, e, MarkStarted));
    ProtocolRuns.SetParts(s, a, DownloaderOf(s, e, CheckParts), u);
    ProtocolRuns.SetParts(s, a, DownloaderOf(s, e, MarkStarted), u);
    SetSet(s, a, DownloaderOf(s, e, CheckParts), DownloaderOf(s, e, MarkStarted));
    assert Enabled(s, start) && Next(s, start) == s1;
    assert Enabled(s1, check) && Next(s1, check) == t;
    hide Harms, LeadsQuietly, Enabled, Next;
    Harmless(s, start, u);
    Harmless(s1, check, u);
    LeadsNowhere(s, u);
    LeadsOn(s, s, start, u);
    LeadsOn(s, s1, check, u);
  }

  /** ... and marks the merge: it finds the row as it read it. */
  lemma Mark(s: State, e: nat, l: nat, u: nat, a: nat) returns (t: State)
    requires Fresh(s, e, l, u) && a in s.actors && s.actors[a] == DownloaderOf(s, e, MarkStarted)
    ensures LeadsQuietly(s, t, u) && t == DoDownload(s, a, MarkMergeStarted(0)) && Beside(s, t, l, {a})
    ensures Has(t, l, u) && t.locations[l] == s.locations[l].(mergeStartedAt := Some(0))
    ensures PartsOf(t, u) == PartsOf(s, u)
    ensures t.actors == s.actors[a := DownloaderOf(s, e, Register)]
  {
    var step := DownloadStep(a, MarkMergeStarted(0));
    t := DoDownload(s, a, MarkMergeStarted(0));
    assert Enabled(s, step) && Next(s, step) == t && !Harms(s, step, u);
    MarkSetsRow(s, a, 0);
    SameParts(s, t, u);
    hide Harms, LeadsQuietly, Enabled, Next, DoDownload, Beside;
    LeadsNowhere(s, u);
    LeadsOn(s, s, step, u);
  }

  /** ... and starts its worker. */
  lemma NewDownload(s: State, e: nat, l: nat, u: nat, a: nat, w: nat) returns (t: State)
    requires Fresh(s, e, l, u) && a !in s.actors && w !in s.actors && a != w
    ensures LeadsQuietly(s, t, u) && Beside(s, t, l, {a, w}) && Has(t, l, u)
    ensures t.locations[l] == s.locations[l].(mergeStartedAt := Some(0)) && PartsOf(t, u) == PartsOf(s, u)
    ensures WorkerReady(t, w, a, l, u) && l in t.merges && t.merges[l] == w
  {
    hide LeadsQuietly, Harms, PartsOf, Beside;
    var s1 := Check(s, e, l, u, a);
    var s2 := Mark(s1, e, l, u, a);
    t := SpawnWorker(s2, a, w, l, u);
    LeadsFurther(s, s1, s2, u);
    LeadsFurther(s, s2, t, u);
    SetBeside(s, a, DownloaderOf(s, e, MarkStarted), l);
    ProtocolRuns.SetParts(s, a, DownloaderOf(s, e, MarkStarted), u);
    BesideAgain(s, s1, s2, l, {a}, {a});
    BesideAgain(s, s2, t, l, {a} + {a}, {a, w});
    assert {a} + {a} + {a, w} == {a, w};
    assert FreshStream(DownloaderOf(s, e, Register)).partCount == s.locations[l].partCount;
  }

  lemma SetBeside(s: State, a: nat, x: Actor, l: nat)
    ensures Beside(s, Set(s, a, x), l, {a}) && Set(s, a, x).locations == s.locations
  {
  }

  /** Worker w is about to upload what its copier a has yet to read. */
  ghost predicate WorkerReady(s: State, w: nat, a: nat, l: nat, u: nat) {
    && WorkerOf(s, w, l, u) && s.actors[w].pc == Uploading && s.actors[w].copier == a && a in s.actors
    && s.actors[a].Copier?
    && Between(s.actors[a].stream) && s.actors[a].stream.folder == u
    && HasFirst(PartsOf(s, u), s.actors[a].stream.partCount)
  }

  // ---------- resetting a stalled merge ----------

  lemma ResetStalledRow(s: State, before: int, l: nat, u: nat)
    requires Has(s, l, u) && Stalled(s.locations[l], before)
    ensures var t := ResetRows(s, before);
      && Has(t, l, u) && t.locations[l] == ResetRow(s.locations[l]) && t.actors == s.actors && t.entries == s.entries
      && t.frozen == s.frozen && PartsOf(t, u) == PartsOf(s, u)
  {
  }

  lemma BesideEntries(s: State, t: State, l: nat, moving: set<nat>)
    requires Beside(s, t, l, moving)
    ensures t.entries == s.entries && t.frozen == s.frozen && t.locations.Keys == s.locations.Keys
    ensures l in s.locations
           ==> t.locations[l].folder == s.locations[l].folder && t.locations[l].partCount == s.locations[l].partCount
  {
  }

  // ---------- the merge race ----------

  /** A row without its parts is no longer readable. */
  lemma GoneUnreadable(s: State, l: nat)
    requires Reachable(s) && l in s.locations && s.locations[l].mergedAt.None?
    requires PartsOf(s, s.locations[l].folder) == map[]
    ensures !Readable(s, s.locations[l])
  {
    ReachableSafe(s);
    var u := s.locations[l].folder;
    assert Finalized(s, u, s.locations[l].partCount);
    if ExactlyParts(PartsOf(s, u), s.frozen[u]) {
      ExactSize(PartsOf(s, u), s.frozen[u]);
    }
  }

  /** Entry e keeps pointing to an archive that cannot be read. */
  ghost predicate Loses(s: State, e: nat) {
    && e in s.entries && s.entries[e].location in s.locations
    && !Readable(s, s.locations[s.entries[e].location])
  }

  lemma RaceLoses(s: State, t: State, e: nat, l: nat, u: nat, w: nat, v: nat, a: nat)
    requires Reachable(s) && e in s.entries && s.entries[e].location == l && Has(s, l, u)
    requires WorkerReady(s, w, a, l, u) && v != w && WorkerOf(s, v, l, u) && s.actors[v].pc == Uploading
    ensures exists z :: Reachable(z) && z.entries == s.entries && Loses(z, e)
  {
    hide LeadsQuietly, PartsOf, Readable, Reachable;
    var z := TwoWorkers(s, w, v, l, u);
    BesideEntries(s, z, l, {w, v, a});
    LeadsReaches(s, z, u);
    GoneUnreadable(z, l);
    assert Loses(z, e);
  }

  /** The merge race.  Two downloads of an unmerged archive both find its parts; both mark the merge, one
      completes it and deletes the parts, the other one fails and takes the mark back.  The entry stays, its
      archive is lost. */
  lemma MergeRace(s: State, e: nat, l: nat, u: nat)
    requires Reachable(s) && Fresh(s, e, l, u)
    ensures exists z :: Reachable(z) && z.entries == s.entries && Loses(z, e)
  {
    hide LeadsQuietly, PartsOf, Reachable, Harms, Loses, Beside, Fresh, HasFirst, Readable, DoDownload;
    FreshFacts(s, e, l, u);
    var a := Unused(s.actors.Keys);
    var b, w, v := a + 1, a + 2, a + 3;
    var s1 := Check(s, e, l, u, a);
    FreshFacts(s1, e, l, u);
    var s2 := Check(s1, e, l, u, b);
    FreshFacts(s2, e, l, u);
    assert s2.actors[a] == DownloaderOf(s2, e, MarkStarted);
    var s3 := Mark(s2, e, l, u, a);
    BesideEntries(s2, s3, l, {a});
    LeadsFurther(s, s1, s2, u);
    LeadsFurther(s, s2, s3, u);
    LeadsReaches(s, s3, u);
    SecondMark(s3, e, l, u, a, b, w, v);
  }

  /** Both have checked; a has marked the merge, and now b does. */
  lemma SecondMark(s: State, e: nat, l: nat, u: nat, a: nat, b: nat, w: nat, v: nat)
    requires Reachable(s) && e in s.entries && s.entries[e].location == l && Has(s, l, u)
    requires HasFirst(PartsOf(s, u), s.locations[l].partCount)
    requires a in s.actors && s.actors[a] == DownloaderOf(s, e, Register)
    requires b in s.actors && s.actors[b] == DownloaderOf(s, e, MarkStarted)
    requires w !in s.actors && v !in s.actors && a != b && w != v
    ensures exists z :: Reachable(z) && z.entries == s.entries && Loses(z, e)
  {
    hide LeadsQuietly, PartsOf, Reachable, Harms, Loses, Beside, Enabled, Next, DoDownload;
    var s1 := DoDownload(s, b, MarkMergeStarted(0));
    MarkEnabled(s, b);
    Extend(s, DownloadStep(b, MarkMergeStarted(0)));
    MarkSetsRow(s, b, 0);
    SameParts(s, s1, u);
    BesideEntries(s, s1, l, {b});
    var s2 := SpawnWorker(s1, a, w, l, u);
    BesideEntries(s1, s2, l, {a, w});
    OthersStay(s1, s2, l, a, w, b);
    var s3 := SpawnWorker(s2, b, v, l, u);
    BesideEntries(s2, s3, l, {b, v});
    OthersStay(s2, s3, l, b, v, a);
    OthersStay(s2, s3, l, b, v, w);
    LeadsFurther(s1, s2, s3, u);
    LeadsReaches(s1, s3, u);
    RaceLoses(s3, s3, e, l, u, w, v, a);
  }

  lemma MarkEnabled(s: State, a: nat)
    requires a in s.actors && s.actors[a].Downloader? && s.actors[a].at == MarkStarted
    ensures var step := DownloadStep(a, MarkMergeStarted(0));
      && Enabled(s, step) && CanDownload(s, a, MarkMergeStarted(0))
      && Next(s, step) == DoDownload(s, a, MarkMergeStarted(0))
  {
  }

  /** The same loss with every mark finding the row as it was read: the first merge, alive, is reset as stalled
      in between. */
  lemma StalledResetRace(s: State, e: nat, l: nat, u: nat)
    requires Reachable(s) && Fresh(s, e, l, u)
    ensures exists z :: Reachable(z) && z.entries == s.entries && Loses(z, e)
  {
    hide LeadsQuietly, PartsOf, Reachable, Harms, Loses, Beside, ResetRows;
    var a := Unused(s.actors.Keys);
    var v := a + 1;
    var s1 := NewDownload(s, e, l, u, a, v);
    LeadsReaches(s, s1, u);
    var b := Unused(s1.actors.Keys);
    var w := b + 1;
    var s2 := ResetRows(s1, 1);
    assert Enabled(s1, ResetStalled(1)) && Next(s1, ResetStalled(1)) == s2;
    Extend(s1, ResetStalled(1));
    ResetStalledRow(s1, 1, l, u);
    BesideEntries(s, s1, l, {a, v});
    var s3 := NewDownload(s2, e, l, u, b, w);
    LeadsReaches(s2, s3, u);
    BesideEntries(s2, s3, l, {b, w});
    OthersStay(s2, s3, l, b, w, v);
    RaceLoses(s3, s3, e, l, u, w, v, b);
  }

  // ---------- sweeps ----------

  /** A location whose row delete failed loses its objects all the same, merged or not. */
  lemma FailedRowDelete(s: State, l: nat)
    requires Reachable(s) && l in s.locations
    ensures exists z :: Reachable(z) && z.entries == s.entries && l in z.locations && !Readable(z, z.locations[l])
  {
    hide Reachable, Readable;
    var a := Unused(s.actors.Keys);
    var s1 := DoStart(s, a, ListLocation(l));
    var s2 := DoSweep(s1, a, SweepRow(false));
    var z := DoSweep(s2, a, SweepFolder({}, false, false));
    FailedSteps(s, l, a);
    hide DoStart, DoSweep, Enabled, Next;
    Extend(s, StartStep(a, ListLocation(l)));
    Extend(s1, SweepStep(a, SweepRow(false)));
    Extend(s2, SweepStep(a, SweepFolder({}, false, false)));
    EmptyUnreadable(z, l);
  }

  lemma FailedSteps(s: State, l: nat, a: nat)
    requires l in s.locations && a !in s.actors
    ensures Enabled(s, StartStep(a, ListLocation(l)))
    ensures var s1 := DoStart(s, a, ListLocation(l));
      && Next(s, StartStep(a, ListLocation(l))) == s1
      && Enabled(s1, SweepStep(a, SweepRow(false))) && CanSweep(s1, a, SweepRow(false))
      && var s2 := DoSweep(s1, a, SweepRow(false));
      && Next(s1, SweepStep(a, SweepRow(false))) == s2
      && Enabled(s2, SweepStep(a, SweepFolder({}, false, false))) && CanSweep(s2, a, SweepFolder({}, false, false))
      && var z := DoSweep(s2, a, SweepFolder({}, false, false));
      && Next(s2, SweepStep(a, SweepFolder({}, false, false))) == z
      && z.entries == s.entries && z.locations == s.locations && s.locations[l].folder !in z.merged
      && PartsOf(z, s.locations[l].folder) == map[]
  {
  }

  lemma EmptyUnreadable(s: State, l: nat)
    requires Reachable(s) && l in s.locations && s.locations[l].folder !in s.merged
    requires PartsOf(s, s.locations[l].folder) == map[]
    ensures !Readable(s, s.locations[l])
  {
    if s.locations[l].mergedAt.None? {
      GoneUnreadable(s, l);
    }
  }

  // ---------- finalizing twice, finalizing under a sweep ----------

  /** An upload whose finalize would be accepted, under a key without an entry. */
  ghost predicate Ready(s: State, u: nat) {
    && u in s.uploads && CountersAgree(s.uploads[u]) && |PartsOf(s, u)| == s.uploads[u].finished
    && (forall e :: e in s.entries ==> s.entries[e].key != s.uploads[u].key)
  }

  function Finalizing(s: State, u: nat, step: FinalizePc): Actor
    requires u in s.uploads
  {
    Finalizer(u, s.uploads[u].key, s.uploads[u].finished, step)
  }

  /** A finalize that has counted its parts. */
  lemma Accept(s: State, u: nat, f: nat) returns (t: State)
    requires Reachable(s) && Ready(s, u) && f !in s.actors
    ensures Reachable(t) && Ready(t, u) && t.uploads == s.uploads && t.locations == s.locations
    ensures t.entries == s.entries
    ensures t.usedLocations == s.usedLocations && t.usedEntries == s.usedEntries && PartsOf(t, u) == PartsOf(s, u)
    ensures t.actors == s.actors[f := Finalizing(s, u, InsertLocation)]
  {
    var s1 := DoStart(s, f, BeginFinalize(u));
    t := DoFinalize(s1, f, CountFiles);
    AcceptSteps(s, u, f);
    hide *;
    Extend(s, StartStep(f, BeginFinalize(u)));
    Extend(s1, FinalizeStep(f, CountFiles));
  }

  lemma AcceptSteps(s: State, u: nat, f: nat)
    requires Ready(s, u) && f !in s.actors
    ensures Enabled(s, StartStep(f, BeginFinalize(u))) && CanStart(s, f, BeginFinalize(u))
    ensures var s1 := DoStart(s, f, BeginFinalize(u));
      && Next(s, StartStep(f, BeginFinalize(u))) == s1
      && Enabled(s1, FinalizeStep(f, CountFiles)) && CanFinalize(s1, f, CountFiles)
      && var t := DoFinalize(s1, f, CountFiles);
      && Next(s1, FinalizeStep(f, CountFiles)) == t
      && Ready(t, u) && t.uploads == s.uploads && t.locations == s.locations && t.entries == s.entries
      && t.usedLocations == s.usedLocations && t.usedEntries == s.usedEntries && PartsOf(t, u) == PartsOf(s, u)
      && t.actors == s.actors[f := Finalizing(s, u, InsertLocation)]
  {
    hide DoStart, DoFinalize, PartsOf;
    BeginStep(s, u, f);
    CountStep(s, DoStart(s, f, BeginFinalize(u)), u, f);
  }

  lemma BeginStep(s: State, u: nat, f: nat)
    requires Ready(s, u) && f !in s.actors
    ensures CanStart(s, f, BeginFinalize(u))
    ensures var s1 := DoStart(s, f, BeginFinalize(u));
      && s1.uploads == s.uploads && s1.locations == s.locations && s1.entries == s.entries
      && s1.usedLocations == s.usedLocations && s1.usedEntries == s.usedEntries && PartsOf(s1, u) == PartsOf(s, u)
      && s1.actors == s.actors[f := Finalizing(s, u, CountParts)]
  {
  }

  lemma CountStep(s: State, s1: State, u: nat, f: nat)
    requires Ready(s, u) && s1.actors == s.actors[f := Finalizing(s, u, CountParts)]
    requires PartsOf(s1, u) == PartsOf(s, u)
    ensures CanFinalize(s1, f, CountFiles)
    ensures var t := DoFinalize(s1, f, CountFiles);
      t == Set(s1, f, Finalizing(s, u, InsertLocation)) && PartsOf(t, u) == PartsOf(s1, u)
      && t.actors == s.actors[f := Finalizing(s, u, InsertLocation)]
  {
    assert s.actors[f := Finalizing(s, u, CountParts)][f := Finalizing(s, u, InsertLocation)]
        == s.actors[f := Finalizing(s, u, InsertLocation)];
  }

  /** ... inserts its location. */
  lemma Insert(s: State, u: nat, f: nat, n: nat, key: Key, l: nat) returns (t: State)
    requires Reachable(s) && f in s.actors && s.actors[f] == Finalizer(u, key, n, InsertLocation)
    requires l !in s.usedLocations
    ensures Reachable(t) && t.uploads == s.uploads && t.entries == s.entries && t.parts == s.parts
    ensures t.merged == s.merged
    ensures t.locations == s.locations[l := Location(u, n, None, None, None, None)] && t.usedEntries == s.usedEntries
    ensures t.usedLocations == s.usedLocations + {l}
    ensures t.actors == s.actors[f := Finalizer(u, key, n, FindExisting(l))]
  {
    var step := FinalizeStep(f, AddLocation(l));
    t := DoFinalize(s, f, AddLocation(l));
    assert Enabled(s, step) && Next(s, step) == t;
    Extend(s, step);
  }

  /** ... and a new entry, there being none of its key. */
  lemma AddNewEntry(s: State, u: nat, f: nat, n: nat, key: Key, l: nat, e: nat) returns (t: State)
    requires Reachable(s) && f in s.actors && s.actors[f] == Finalizer(u, key, n, FindExisting(l)) && l in s.locations
    requires e !in s.usedEntries && e !in s.entries && forall d :: d in s.entries ==> s.entries[d].key != key
    ensures Reachable(t) && t.uploads == s.uploads && t.parts == s.parts && t.merged == s.merged
    ensures t.locations == s.locations
    ensures t.entries == s.entries[e := Entry(key, 0, l)] && t.usedLocations == s.usedLocations
    ensures t.actors == s.actors[f := Finalizer(u, key, n, DropUpload)]
  {
    var s1 := DoFinalize(s, f, LookExisting(None));
    t := DoFinalize(s1, f, AddEntry(e, 0));
    AddEntrySteps(s, u, f, n, key, l, e);
    hide *;
    Extend(s, FinalizeStep(f, LookExisting(None)));
    Extend(s1, FinalizeStep(f, AddEntry(e, 0)));
  }

  lemma AddEntrySteps(s: State, u: nat, f: nat, n: nat, key: Key, l: nat, e: nat)
    requires f in s.actors && s.actors[f] == Finalizer(u, key, n, FindExisting(l)) && l in s.locations
    requires e !in s.usedEntries && forall d :: d in s.entries ==> s.entries[d].key != key
    ensures Enabled(s, FinalizeStep(f, LookExisting(None))) && CanFinalize(s, f, LookExisting(None))
    ensures var s1 := DoFinalize(s, f, LookExisting(None));
      && Next(s, FinalizeStep(f, LookExisting(None))) == s1
      && Enabled(s1, FinalizeStep(f, AddEntry(e, 0))) && CanFinalize(s1, f, AddEntry(e, 0))
      && var t := DoFinalize(s1, f, AddEntry(e, 0));
      && Next(s1, FinalizeStep(f, AddEntry(e, 0))) == t
      && t.uploads == s.uploads && t.parts == s.parts && t.merged == s.merged && t.locations == s.locations
      && t.entries == s.entries[e := Entry(key, 0, l)] && t.usedLocations == s.usedLocations
      && t.actors == s.actors[f := Finalizer(u, key, n, DropUpload)]
  {
    assert s.actors[f := Finalizer(u, key, n, InsertEntry(l))][f := Finalizer(u, key, n, DropUpload)]
        == s.actors[f := Finalizer(u, key, n, DropUpload)];
  }

  /** ... or repoints the key's entry. */
  lemma RepointTo(s: State, u: nat, f: nat, n: nat, key: Key, l: nat, e: nat) returns (t: State)
    requires Reachable(s) && f in s.actors && s.actors[f] == Finalizer(u, key, n, FindExisting(l)) && l in s.locations
    requires e in s.entries && s.entries[e].key == key && s.entries[e].location in s.locations
    ensures Reachable(t) && t.parts == s.parts && t.locations == s.locations
    ensures t.entries == s.entries[e := Entry(key, 0, l)]
  {
    var s1 := DoFinalize(s, f, LookExisting(Some(e)));
    t := DoFinalize(s1, f, RepointEntry(0));
    RepointSteps(s, u, f, n, key, l, e);
    hide *;
    Extend(s, FinalizeStep(f, LookExisting(Some(e))));
    Extend(s1, FinalizeStep(f, RepointEntry(0)));
  }

  lemma RepointSteps(s: State, u: nat, f: nat, n: nat, key: Key, l: nat, e: nat)
    requires f in s.actors && s.actors[f] == Finalizer(u, key, n, FindExisting(l)) && l in s.locations
    requires e in s.entries && s.entries[e].key == key && s.entries[e].location in s.locations
    ensures Enabled(s, FinalizeStep(f, LookExisting(Some(e)))) && CanFinalize(s, f, LookExisting(Some(e)))
    ensures var s1 := DoFinalize(s, f, LookExisting(Some(e)));
      && Next(s, FinalizeStep(f, LookExisting(Some(e)))) == s1
      && Enabled(s1, FinalizeStep(f, RepointEntry(0))) && CanFinalize(s1, f, RepointEntry(0))
      && var t := DoFinalize(s1, f, RepointEntry(0));
      && Next(s1, FinalizeStep(f, RepointEntry(0))) == t
      && t.parts == s.parts && t.locations == s.locations && t.entries == s.entries[e := Entry(key, 0, l)]
  {
  }

  /** Two finalizes of one upload: the first makes an entry, a download merges its location, and then the
      second points the entry to its own location, whose parts are gone. */
  lemma SecondFinalize(s: State, u: nat, e: nat)
    requires Reachable(s) && Ready(s, u) && HasFirst(PartsOf(s, u), s.uploads[u].finished)
    requires e !in s.entries && e !in s.usedEntries
    ensures exists z :: Reachable(z) && Loses(z, e)
  {
    hide Reachable, PartsOf, Loses, CountersAgree, Ready;
    ReadyFacts(s, u);
    var f := Unused(s.actors.Keys);
    var s1 := Accept(s, u, f);
    var s2 := Accept(s1, u, f + 1);
    ReadyFacts(s2, u);
    BothInsert(s2, u, f, f + 1, s.uploads[u].finished, s.uploads[u].key, e);
  }

  lemma ReadyFacts(s: State, u: nat)
    requires Ready(s, u)
    ensures u in s.uploads && |PartsOf(s, u)| == s.uploads[u].finished
    ensures forall e :: e in s.entries ==> s.entries[e].key != s.uploads[u].key
  {
  }

  lemma BothInsert(s: State, u: nat, f: nat, g: nat, n: nat, key: Key, e: nat)
    requires Reachable(s) && f != g && |PartsOf(s, u)| == n && HasFirst(PartsOf(s, u), n)
    requires f in s.actors && s.actors[f] == Finalizer(u, key, n, InsertLocation)
    requires g in s.actors && s.actors[g] == Finalizer(u, key, n, InsertLocation)
    requires e !in s.entries && e !in s.usedEntries && forall d :: d in s.entries ==> s.entries[d].key != key
    ensures exists z :: Reachable(z) && Loses(z, e)
  {
    hide Reachable, PartsOf, Loses, HasFirst, Readable, Fresh;
    var l := Unused(s.usedLocations);
    var m := Unused(s.usedLocations + {l});
    var s3 := Insert(s, u, f, n, key, l);
    SameParts(s, s3, u);
    var s4 := AddNewEntry(s3, u, f, n, key, l, e);
    SameParts(s3, s4, u);
    var s5 := Insert(s4, u, g, n, key, m);
    SameParts(s4, s5, u);
    FreshHere(s5, e, l, u, n);
    var a := Unused(s5.actors.Keys);
    MergeThenRepoint(s5, u, g, n, key, l, m, e, a, a + 1);
  }

  lemma FreshHere(s: State, e: nat, l: nat, u: nat, n: nat)
    requires e in s.entries && s.entries[e].location == l
    requires l in s.locations && s.locations[l] == Location(u, n, None, None, None, None)
    requires |PartsOf(s, u)| >= n && HasFirst(PartsOf(s, u), n)
    ensures Fresh(s, e, l, u)
  {
  }

  lemma MergeThenRepoint(s: State, u: nat, g: nat, n: nat, key: Key, l: nat, m: nat, e: nat, a: nat, w: nat)
    requires Reachable(s) && Fresh(s, e, l, u) && s.entries[e].key == key && a !in s.actors && w !in s.actors && a != w
    requires g in s.actors && s.actors[g] == Finalizer(u, key, n, FindExisting(m))
    requires Has(s, m, u) && m != l && s.locations[m].mergedAt.None?
    ensures exists z :: Reachable(z) && Loses(z, e)
  {
    hide Reachable, PartsOf, LeadsQuietly, Readable;
    var s1 := NewDownload(s, e, l, u, a, w);
    var s2 := CompleteMerge(s1, w, l, u);
    LeadsFurther(s, s1, s2, u);
    LeadsReaches(s, s2, u);
    assert g in s2.actors && s2.actors[g] == s.actors[g] && s2.entries == s.entries;
    assert m in s2.locations && s2.locations[m] == s.locations[m];
    var z := RepointTo(s2, u, g, n, key, m, e);
    SameParts(s2, z, u);
    GoneUnreadable(z, m);
    assert Loses(z, e);
  }

  /** An upload that is swept as stale after its parts were counted: the finalize succeeds, with an entry whose
      archive is empty. */
  lemma SweptUnderFinalize(s: State, u: nat, e: nat)
    requires Reachable(s) && Ready(s, u) && e !in s.entries && e !in s.usedEntries
    ensures exists z :: Reachable(z) && Loses(z, e)
  {
    hide Reachable, Loses, Readable, DoStart, DoSweep, Enabled, Next;
    var row := s.uploads[u];
    var f := Unused(s.actors.Keys);
    var l := Unused(s.usedLocations);
    var s1 := Accept(s, u, f);
    SweepSteps(s1, u, f + 1);
    var s2 := DoStart(s1, f + 1, ListUpload(u));
    var s3 := DoSweep(s2, f + 1, SweepUploadRow(true));
    var s4 := DoSweep(s3, f + 1, SweepUploadFolder({}, false, false));
    Extend(s1, StartStep(f + 1, ListUpload(u)));
    Extend(s2, SweepStep(f + 1, SweepUploadRow(true)));
    Extend(s3, SweepStep(f + 1, SweepUploadFolder({}, false, false)));
    InsertEmpty(s4, u, f, row.finished, row.key, l, e);
  }

  lemma InsertEmpty(s: State, u: nat, f: nat, n: nat, key: Key, l: nat, e: nat)
    requires Reachable(s) && f in s.actors && s.actors[f] == Finalizer(u, key, n, InsertLocation)
    requires l !in s.usedLocations
    requires e !in s.usedEntries && e !in s.entries && forall d :: d in s.entries ==> s.entries[d].key != key
    requires PartsOf(s, u) == map[]
    ensures exists z :: Reachable(z) && Loses(z, e)
  {
    hide Reachable, Readable, PartsOf;
    var s1 := Insert(s, u, f, n, key, l);
    SameParts(s, s1, u);
    var z := AddNewEntry(s1, u, f, n, key, l, e);
    SameParts(s1, z, u);
    GoneUnreadable(z, l);
    assert Loses(z, e);
  }

  lemma SweepSteps(s: State, u: nat, a: nat)
    requires u in s.uploads && a !in s.actors
    ensures Enabled(s, StartStep(a, ListUpload(u))) && CanStart(s, a, ListUpload(u))
    ensures var s1 := DoStart(s, a, ListUpload(u));
      && Next(s, StartStep(a, ListUpload(u))) == s1
      && Enabled(s1, SweepStep(a, SweepUploadRow(true))) && CanSweep(s1, a, SweepUploadRow(true))
      && var s2 := DoSweep(s1, a, SweepUploadRow(true));
      && Next(s1, SweepStep(a, SweepUploadRow(true))) == s2
      && Enabled(s2, SweepStep(a, SweepUploadFolder({}, false, false)))
      && CanSweep(s2, a, SweepUploadFolder({}, false, false))
      && var z := DoSweep(s2, a, SweepUploadFolder({}, false, false));
      && Next(s2, SweepStep(a, SweepUploadFolder({}, false, false))) == z
      && z.entries == s.entries && z.usedLocations == s.usedLocations && z.usedEntries == s.usedEntries
      && PartsOf(z, u) == map[] && (forall b :: b in s.actors ==> b in z.actors && z.actors[b] == s.actors[b])
  {
    hide Next, Enabled, DoStart, DoSweep;
    SweepBegins(s, u, a);
    SweepEnds(DoStart(s, a, ListUpload(u)), u, a);
    AsStep(s, a, u);
  }

  lemma SweepBegins(s: State, u: nat, a: nat)
    requires u in s.uploads && a !in s.actors
    ensures CanStart(s, a, ListUpload(u)) && DoStart(s, a, ListUpload(u)) == Set(s, a, UploadSweeper(u, DropRow))
  {
  }

  lemma SweepEnds(s: State, u: nat, a: nat)
    requires a in s.actors && s.actors[a] == UploadSweeper(u, DropRow)
    ensures CanSweep(s, a, SweepUploadRow(true))
    ensures var s2 := DoSweep(s, a, SweepUploadRow(true));
      && CanSweep(s2, a, SweepUploadFolder({}, false, false))
      && var z := DoSweep(s2, a, SweepUploadFolder({}, false, false));
      && z.entries == s.entries && z.usedLocations == s.usedLocations && z.usedEntries == s.usedEntries
      && PartsOf(z, u) == map[] && (forall b :: b in s.actors && b != a ==> b in z.actors && z.actors[b] == s.actors[b])
  {
  }

  lemma AsStep(s: State, a: nat, u: nat)
    requires CanStart(s, a, ListUpload(u))
    ensures Enabled(s, StartStep(a, ListUpload(u)))
    ensures Next(s, StartStep(a, ListUpload(u))) == DoStart(s, a, ListUpload(u))
    ensures var s1 := DoStart(s, a, ListUpload(u));
      CanSweep(s1, a, SweepUploadRow(true)) ==>
        && Enabled(s1, SweepStep(a, SweepUploadRow(true)))
        && Next(s1, SweepStep(a, SweepUploadRow(true))) == DoSweep(s1, a, SweepUploadRow(true))
        && var s2 := DoSweep(s1, a, SweepUploadRow(true));
        && (CanSweep(s2, a, SweepUploadFolder({}, false, false)) ==>
              && Enabled(s2, SweepStep(a, SweepUploadFolder({}, false, false)))
              && Next(s2, SweepStep(a, SweepUploadFolder({}, false, false)))
                 == DoSweep(s2, a, SweepUploadFolder({}, false, false)))
  {
    hide CanSweep, DoSweep, CanStart, DoStart;
  }
}
