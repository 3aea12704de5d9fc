/** States from which the races start, reached from the empty state: none of them is about nothing. */
module ProtocolWitnesses {
  import opened Protocol
  import opened ProtocolAvailability
  import opened ProtocolDelivery
  import opened ProtocolExactness
  import opened ProtocolGaps
  import opened ProtocolKeeping
  import opened ProtocolLosses
  import opened ProtocolRaces
  import opened ProtocolRegistry
  import opened ProtocolRuns
  import opened ProtocolSafety
  import opened Types

  // ---------- an upload of one part ----------

  /** Upload 0 under the key, with the given counters, parts and goroutines, and nothing else. */
  function OneUpload(
      key: Key, started: nat, finished: nat, parts: map<nat, map<int, Bytes>>, actors: map<nat, Actor>): State
  {
    Init().(
    uploads := map[0 := Upload(key, 0, if finished == 0 then None else Some(0), started, finished)],
    parts := parts, actors := actors,
    history := map[0 := PartHistory(key, if finished == 0 then [] else [0], [])])
  }

  lemma UploadSteps(key: Key, body: Bytes)
    ensures var s1 := OneUpload(key, 0, 0, map[], map[]);
      && Enabled(Init(), CreateUpload(0, key, 0)) && Next(Init(), CreateUpload(0, key, 0)) == s1
      && var s2 := OneUpload(key, 1, 0, map[], map[0 := PartUpload(0, 0, body, false)]);
      && Enabled(s1, StartPart(0, 0, 0, body)) && Next(s1, StartPart(0, 0, 0, body)) == s2
  {
  }

  lemma StoreSteps(key: Key, body: Bytes)
    ensures var s2 := OneUpload(key, 1, 0, map[], map[0 := PartUpload(0, 0, body, false)]);
      && var s3 := OneUpload(key, 1, 0, map[0 := map[0 := body]], map[0 := PartUpload(0, 0, body, true)]);
      && Enabled(s2, PartStep(0, StorePart)) && Next(s2, PartStep(0, StorePart)) == s3
      && var s4 := OneUpload(key, 1, 1, map[0 := map[0 := body]], map[0 := Ended]);
      && Enabled(s3, PartStep(0, FinishPart(0))) && Next(s3, PartStep(0, FinishPart(0))) == s4
  {
    var s2 := OneUpload(key, 1, 0, map[], map[0 := PartUpload(0, 0, body, false)]);
    var s3 := OneUpload(key, 1, 0, map[0 := map[0 := body]], map[0 := PartUpload(0, 0, body, true)]);
    assert s2.parts[0 := PartsOf(s2, 0)[0 := body]] == s3.parts;
    assert s2.actors[0 := s2.actors[0].(stored := true)] == s3.actors;
    assert [] + [0] == [0];
    assert s3.actors[0 := Ended] == map[0 := Ended];
  }

  function UploadedState(key: Key, body: Bytes): State {
    OneUpload(key, 1, 1, map[0 := map[0 := body]], map[0 := Ended])
  }

  lemma Uploaded(key: Key, body: Bytes)
    ensures ReachableQuietly(UploadedState(key, body), 0) && Ready(UploadedState(key, body), 0)
    ensures HasFirst(PartsOf(UploadedState(key, body), 0), 1)
  {
    var s1 := OneUpload(key, 0, 0, map[], map[]);
    var s2 := OneUpload(key, 1, 0, map[], map[0 := PartUpload(0, 0, body, false)]);
    var s3 := OneUpload(key, 1, 0, map[0 := map[0 := body]], map[0 := PartUpload(0, 0, body, true)]);
    UploadSteps(key, body);
    StoreSteps(key, body);
    assert !Harms(Init(), CreateUpload(0, key, 0), 0) && !Harms(s1, StartPart(0, 0, 0, body), 0);
    Harmless(s2, PartStep(0, StorePart), 0);
    Harmless(s3, PartStep(0, FinishPart(0)), 0);
    hide LeadsQuietly, Harms, Enabled, Next, OneUpload;
    LeadsNowhere(Init(), 0);
    LeadsOn(Init(), Init(), CreateUpload(0, key, 0), 0);
    LeadsOn(Init(), s1, StartPart(0, 0, 0, body), 0);
    LeadsOn(Init(), s2, PartStep(0, StorePart), 0);
    LeadsOn(Init(), s3, PartStep(0, FinishPart(0)), 0);
    UploadedIsReady(key, body);
  }

  lemma UploadedIsReady(key: Key, body: Bytes)
    ensures Ready(UploadedState(key, body), 0) && HasFirst(PartsOf(UploadedState(key, body), 0), 1)
  {
    assert |PartsOf(UploadedState(key, body), 0)| == 1;
  }

  // ---------- its location and entry ----------

  lemma Located(key: Key, body: Bytes) returns (s: State)
    ensures ReachableQuietly(s, 0) && Fresh(s, 0, 0, 0)
    ensures forall b :: b in s.actors ==> b < 2 && !Drops(s.actors[b], 0)
  {
    hide LeadsQuietly, Harms, Enabled, Next, Fresh, HasFirst, DoStart, DoFinalize, PartsOf, Ready;
    var s4 := UploadedState(key, body);
    Uploaded(key, body);
    UploadedRow(key, body);
    AcceptSteps(s4, 0, 1);
    var s5 := DoStart(s4, 1, BeginFinalize(0));
    var s6 := DoFinalize(s5, 1, CountFiles);
    Harmless(s4, StartStep(1, BeginFinalize(0)), 0);
    Harmless(s5, FinalizeStep(1, CountFiles), 0);
    LeadsOn(Init(), s4, StartStep(1, BeginFinalize(0)), 0);
    LeadsOn(Init(), s5, FinalizeStep(1, CountFiles), 0);
    InsertFirst(s6, key);
    LeadsOn(Init(), s6, FinalizeStep(1, AddLocation(0)), 0);
    var s7 := Next(s6, FinalizeStep(1, AddLocation(0)));
    AddEntrySteps(s7, 0, 1, 1, key, 0, 0);
    var s8 := DoFinalize(s7, 1, LookExisting(None));
    s := DoFinalize(s8, 1, AddEntry(0, 0));
    Harmless(s7, FinalizeStep(1, LookExisting(None)), 0);
    Harmless(s8, FinalizeStep(1, AddEntry(0, 0)), 0);
    LeadsOn(Init(), s7, FinalizeStep(1, LookExisting(None)), 0);
    LeadsOn(Init(), s8, FinalizeStep(1, AddEntry(0, 0)), 0);
    SameParts(s7, s, 0);
    FreshHere(s, 0, 0, 0, 1);
  }

  /** The first location of the folder, with no goroutine at work on it, harms nothing. */
  lemma InsertFirst(s: State, key: Key)
    requires s.actors == map[0 := Ended, 1 := Finalizer(0, key, 1, InsertLocation)] && s.locations == map[]
    requires s.usedLocations == {} && |PartsOf(s, 0)| == 1
    ensures var step := FinalizeStep(1, AddLocation(0));
      && Enabled(s, step) && !Harms(s, step, 0)
      && var t := Next(s, step);
      && t.locations == map[0 := Location(0, 1, None, None, None, None)] && t.entries == s.entries
      && t.usedEntries == s.usedEntries && PartsOf(t, 0) == PartsOf(s, 0)
      && 1 in t.actors && t.actors[1] == Finalizer(0, key, 1, FindExisting(0))
      && (forall b :: b in t.actors ==> b < 2 && !Drops(t.actors[b], 0))
  {
  }

  lemma UploadedRow(key: Key, body: Bytes)
    ensures var t := UploadedState(key, body);
      && 0 in t.uploads && t.uploads[0].finished == 1 && t.uploads[0].key == key && t.entries == map[]
      && t.locations == map[] && t.usedEntries == {} && t.usedLocations == {} && |PartsOf(t, 0)| == 1
      && t.actors == map[0 := Ended]
  {
  }

  // ---------- what happens from there ----------

  /** There is a run of the program, from the empty state, after which an entry whose archive was complete is still
      there but can never be read again. */
  lemma ArchivesAreLost(key: Key, body: Bytes)
    ensures exists s, z ::
      ReachableQuietly(s, 0) && Fresh(s, 0, 0, 0) && Reachable(z) && z.entries == s.entries && Loses(z, 0)
  {
    hide ReachableQuietly, Reachable, Fresh, Loses;
    var s := Located(key, body);
    QuietlyIsReachable(s, 0);
    MergeRace(s, 0, 0, 0);
  }

  /** There is one after which the registry has forgotten a worker that is still running. */
  lemma WorkersAreForgotten(key: Key, body: Bytes)
    ensures exists t :: Reachable(t) && !Agreement(t)
  {
    hide ReachableQuietly, Reachable, Fresh, Agreement;
    var s := Located(key, body);
    var t, w := RegistryRace(s, 0, 0, 0);
    QuietlyIsReachable(t, 0);
  }

  // ---------- marking a merged row ----------

  /** From the merge upload's success on, but deleting the parts fails. */
  lemma KeepSteps(s: State, w: nat, l: nat, u: nat, keep: set<int>)
    requires WorkerOf(s, w, l, u) && s.actors[w].pc == MarkMerged && l in s.locations
    requires forall i :: i in PartsOf(s, u) ==> i in keep
    ensures CanWork(s, w, SetMerged(0, true, true))
    ensures var s1 := DoWork(s, w, SetMerged(0, true, true));
      && CanWork(s1, w, SetPartsDeleted(0, true))
      && var s2 := DoWork(s1, w, SetPartsDeleted(0, true));
      && CanWork(s2, w, DropMergedParts(keep, false))
      && var t := DoWork(s2, w, DropMergedParts(keep, false));
      && Beside(s, t, l, {w}) && l in t.locations && IsSettled(t.locations[l])
      && (forall i :: i in PartsOf(s, u) ==> i in PartsOf(t, u))
      && WorkerOf(t, w, l, u) && t.actors[w].pc == Deregister
  {
  }

  /** A worker that completes its merge, but whose deletion of the parts fails. */
  lemma MergeAndKeep(s: State, w: nat, a: nat, l: nat, u: nat) returns (t: State)
    requires WorkerReady(s, w, a, l, u) && Has(s, l, u)
    ensures LeadsQuietly(s, t, u) && Beside(s, t, l, {w, a}) && l in t.locations && IsSettled(t.locations[l])
    ensures forall i :: i in PartsOf(s, u) ==> i in PartsOf(t, u)
    ensures a in t.actors && t.actors[a].Copier? && WorkerOf(t, w, l, u) && t.actors[w].pc == Deregister
  {
    var d := CopyAll(s, a, s.actors[a].stream, u);
    var s1 := Set(s, a, Copier(d));
    CopiedState(s, w, a, l, u, d);
    ProtocolRuns.SetParts(s, a, Copier(d), u);
    hide LeadsQuietly, Set, Beside, PartsOf, DoWork, CanWork;
    var s2 := StoreMerge(s1, w, l, u);
    t := FinishKeeping(s2, w, l, u);
    LeadsFurther(s, s1, s2, u);
    LeadsFurther(s, s2, t, u);
    BesideAgain(s, s1, s2, l, {a}, {w});
    BesideAgain(s, s2, t, l, {a} + {w}, {w});
    assert {a} + {w} + {w} == {w, a};
    CopierStays(s1, s2, t, l, w, a);
  }

  lemma FinishKeeping(s: State, w: nat, l: nat, u: nat) returns (t: State)
    requires WorkerOf(s, w, l, u) && s.actors[w].pc == MarkMerged && l in s.locations
    ensures LeadsQuietly(s, t, u) && Beside(s, t, l, {w}) && l in t.locations && IsSettled(t.locations[l])
    ensures forall i :: i in PartsOf(s, u) ==> i in PartsOf(t, u)
    ensures WorkerOf(t, w, l, u) && t.actors[w].pc == Deregister
  {
    hide LeadsQuietly, Beside, PartsOf, DoWork, CanWork;
    var keep := PartsOf(s, u).Keys;
    KeepSteps(s, w, l, u, keep);
    var s1 := DoWork(s, w, SetMerged(0, true, true));
    var s2 := DoWork(s1, w, SetPartsDeleted(0, true));
    t := DoWork(s2, w, DropMergedParts(keep, false));
    WorkLeads(s, w, SetMerged(0, true, true), u);
    WorkLeadsOn(s, s1, w, SetPartsDeleted(0, true), u);
    WorkLeadsOn(s, s2, w, DropMergedParts(keep, false), u);
  }

  lemma CopierStays(s1: State, s2: State, t: State, l: nat, w: nat, a: nat)
    requires Beside(s1, s2, l, {w}) && Beside(s2, t, l, {w}) && a in s1.actors && a != w
    ensures a in t.actors && t.actors[a] == s1.actors[a]
  {
  }

  /** A download that has checked the parts marks a row that another one has merged meanwhile, without being able
      to delete the parts.  The row may then leave its phases, but the archive stays readable. */
  lemma MarkedButReadable(key: Key, body: Bytes)
    ensures exists s, a ::
      && ReachableQuietly(s, 0) && CanDownload(s, a, MarkMergeStarted(0))
      && var t := DoDownload(s, a, MarkMergeStarted(0)); StaysReadable(t, 0) && !StaysSound(t, 0)
  {
    hide ReachableQuietly, PartsStay, StaysReadable, StaysSound, DoDownload, CanDownload, OtherMerges, Contiguous;
    var s := MergedMeanwhile(key, body);
    MarkExactly(s, 2, 0);
    MergedIsContiguous(s);
  }

  lemma MergedIsContiguous(s: State)
    requires ReachableQuietly(s, 0) && Has(s, 0, 0) && s.locations[0].mergedAt.Some?
    ensures Contiguous(s, 0)
  {
    hide Safe, Avail, Earned, Contiguous, ReachableQuietly;
    QuietFacts(s, 0);
    assert BeyondParts(s, 0);
    BeyondIsContiguous(s, 0);
  }

  /** Goroutine 2 has checked the parts; worker 4 has merged them. */
  lemma MergedMeanwhile(key: Key, body: Bytes) returns (s: State)
    ensures ReachableQuietly(s, 0) && CanDownload(s, 2, MarkMergeStarted(0)) && s.actors[2].loc == 0
    ensures s.actors[2].folder == 0 && Has(s, 0, 0) && s.locations[0].mergedAt.Some? && PartsStay(s, 0, s.locations[0])
  {
    hide LeadsQuietly, Fresh, PartsOf, Beside, AllParts;
    var s0 := Located(key, body);
    FreshFacts(s0, 0, 0, 0);
    var s1 := Check(s0, 0, 0, 0, 2);
    LeadsFurther(Init(), s0, s1, 0);
    FreshParts(s1);
    s := MergeOnce(s1);
  }

  lemma MergeOnce(s: State) returns (t: State)
    requires ReachableQuietly(s, 0) && Fresh(s, 0, 0, 0) && AllParts(s, 0)
    requires forall b :: b in s.actors ==> b < 3 && !Drops(s.actors[b], 0)
    ensures ReachableQuietly(t, 0) && Has(t, 0, 0) && t.locations[0].mergedAt.Some? && PartsStay(t, 0, t.locations[0])
    ensures forall b :: b in s.actors ==> b in t.actors && t.actors[b] == s.actors[b]
  {
    hide LeadsQuietly, Fresh, PartsOf, Beside, AllParts;
    FreshFacts(s, 0, 0, 0);
    var s2 := NewDownload(s, 0, 0, 0, 3, 4);
    LeadsFurther(Init(), s, s2, 0);
    t := MergeAndKeep(s2, 4, 3, 0, 0);
    LeadsFurther(Init(), s2, t, 0);
    Bystanders(s, s2, t);
    KeptParts(s, t);
    forall b | b in t.actors ensures !Drops(t.actors[b], 0) {
      assert b in s.actors || b == 3 || b == 4;
    }
  }

  lemma FreshParts(s: State)
    requires ReachableQuietly(s, 0) && Fresh(s, 0, 0, 0)
    ensures AllParts(s, 0)
  {
    hide ReachableQuietly, Safe, Avail;
    QuietFacts(s, 0);
    UnmergedAllParts(s, 0, 0);
  }

  lemma KeptParts(s: State, t: State)
    requires AllParts(s, 0) && t.frozen == s.frozen && forall i :: i in PartsOf(s, 0) ==> i in PartsOf(t, 0)
    ensures AllParts(t, 0)
  {
  }

  lemma Bystanders(s1: State, s2: State, s3: State)
    requires Beside(s1, s2, 0, {3, 4}) && Beside(s2, s3, 0, {4, 3})
    ensures forall b :: b in s3.actors ==> b in s1.actors || b == 3 || b == 4
    ensures forall b :: b in s1.actors && b != 3 && b != 4 ==> b in s3.actors && s3.actors[b] == s1.actors[b]
    ensures s3.frozen == s1.frozen && (0 in s3.locations && 0 in s1.locations ==>
      s3.locations[0].folder == s1.locations[0].folder)
  {
  }
}
