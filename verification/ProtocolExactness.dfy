/** Which marks, stalled resets and new locations cost an archive, exactly: a condition on the state before, and for
    each state that fails it a run that does the folder no other harm and ends with an unreadable location. */
module ProtocolExactness {
  import opened Protocol
  import opened ProtocolAvailability
  import opened ProtocolDelivery
  import opened ProtocolGaps
  import opened ProtocolKeeping
  import opened ProtocolLosses
  import opened ProtocolRaces
  import opened ProtocolRuns
  import opened ProtocolSafety
  import opened Types

  /** Every location of folder u can be read and is in a proper phase. */
  ghost predicate Sound(s: State, u: nat) {
    forall l :: Has(s, l, u) ==> InPhase(s.locations[l]) && Readable(s, s.locations[l])
  }

  /** From s on, the folder stays sound in every run that does not harm it. */
  ghost predicate StaysSound(s: State, u: nat) {
    forall z :: LeadsQuietly(s, z, u) ==> Sound(z, u)
  }

  lemma SoundIsReadable(s: State, u: nat)
    requires StaysSound(s, u)
    ensures StaysReadable(s, u)
  {
    hide LeadsQuietly, Readable, InPhase;
    forall z | LeadsQuietly(s, z, u) ensures AllReadable(z, u) {
      assert Sound(z, u);
    }
  }

  lemma HeldStaysReadable(s: State, u: nat)
    requires Safe(s) && Held(s, u)
    ensures StaysReadable(s, u)
  {
    hide Safe, Held, LeadsQuietly, Readable;
    forall z | LeadsQuietly(s, z, u) ensures AllReadable(z, u) {
      LeadsKeepsHeld(s, z, u);
      forall l | Has(z, l, u) ensures Readable(z, z.locations[l]) {
        HeldReadable(z, u, l);
      }
    }
  }

  lemma QuietFacts(s: State, u: nat)
    requires ReachableQuietly(s, u)
    ensures Safe(s) && Avail(s, u) && Earned(s)
  {
    hide Safe, Avail, Earned, ReachableQuietly, Reachable;
    ReachableAvail(s, u);
    QuietlyIsReachable(s, u);
    ReachableEarned(s);
  }

  lemma AvailSound(s: State, u: nat)
    requires Safe(s) && Avail(s, u)
    ensures Sound(s, u)
  {
    forall l | Has(s, l, u) ensures InPhase(s.locations[l]) && Readable(s, s.locations[l]) {
      SafeIsReadable(s, l);
    }
  }

  lemma QuietStaysSound(s: State, u: nat)
    requires Safe(s) && Avail(s, u)
    ensures StaysSound(s, u)
  {
    hide Safe, Avail, LeadsQuietly, Sound;
    forall z | LeadsQuietly(s, z, u) ensures Sound(z, u) {
      LeadsKeepsAvail(s, z, u);
      AvailSound(z, u);
    }
  }

  lemma GapSound(s: State, u: nat)
    requires Safe(s) && GapOk(s, u)
    ensures Sound(s, u)
  {
    hide Safe, GapOk, InPhase, Readable;
    forall l | Has(s, l, u) ensures InPhase(s.locations[l]) && Readable(s, s.locations[l]) {
      GapReadable(s, u, l);
    }
  }

  lemma GapStaysSound(s: State, u: nat)
    requires Safe(s) && GapOk(s, u)
    ensures StaysSound(s, u)
  {
    hide Safe, GapOk, LeadsQuietly, Sound;
    forall z | LeadsQuietly(s, z, u) ensures Sound(z, u) {
      LeadsKeepsGap(s, z, u);
      GapSound(z, u);
    }
  }

  /** A step that neither deletes the folder nor adds a location of it cannot cost an archive with a gap. */
  lemma GapStepStaysSound(s: State, step: Step, u: nat)
    requires Safe(s) && Earned(s) && AllParts(s, u) && !Contiguous(s, u) && Enabled(s, step)
    requires !DropsFolder(s, step, u) && !LocatesAgain(s, step, u)
    ensures StaysSound(Next(s, step), u)
  {
    hide *;
    GapHere(s, u);
    StepKeepsSafe(s, step);
    StepKeepsGap(s, step, u);
    GapStaysSound(Next(s, step), u);
  }

  /** An archive with a gap that nothing has harmed has all its parts: it is never merged. */
  lemma GapAllParts(s: State, l: nat, u: nat)
    requires Avail(s, u) && Earned(s) && Safe(s) && Has(s, l, u) && !Contiguous(s, u)
    ensures AllParts(s, u)
  {
    assert RowOk(s, u, l);
    hide Safe, Earned, Contiguous;
    if s.locations[l].mergedAt.Some? {
      BeyondIsContiguous(s, u);
    }
  }

  /** A row in no proper phase, or without its objects, ends the soundness. */
  lemma Unsound(s: State, z: State, u: nat, l: nat)
    requires LeadsQuietly(s, z, u) && Has(z, l, u)
    requires !InPhase(z.locations[l]) || !Readable(z, z.locations[l])
    ensures !StaysSound(s, u)
  {
    assert !Sound(z, u);
  }

  // ---------- marking a merge ----------

  /** A merged row that is marked again: the new worker's failure takes mergedAt back, but not partsDeletedAt. */
  lemma RemarkBreaks(s: State, a: nat, l: nat, u: nat)
    requires a in s.actors && s.actors[a].Downloader? && s.actors[a].at == Register && s.actors[a].loc == l
    requires s.actors[a].folder == u && Has(s, l, u) && s.locations[l].mergedAt.Some?
    ensures !StaysSound(s, u)
  {
    hide LeadsQuietly, StaysSound, Harms, Readable;
    var w := Unused(s.actors.Keys);
    var s1 := SpawnWorker(s, a, w, l, u);
    var s2 := MarkDeleted(s1, l, u);
    assert WorkerOf(s2, w, l, u) && s2.actors[w] == s1.actors[w];
    var s3 := FailingMerge(s2, w, l, u);
    LeadsFurther(s, s1, s2, u);
    LeadsFurther(s, s2, s3, u);
    Unsound(s, s3, u, l);
  }

  /** CleanupParts marks a merged row, unless it is marked already. */
  lemma MarkDeleted(s: State, l: nat, u: nat) returns (t: State)
    requires Has(s, l, u) && s.locations[l].mergedAt.Some?
    ensures LeadsQuietly(s, t, u) && Has(t, l, u) && t.locations[l].partsDeletedAt.Some?
    ensures forall b :: b in s.actors ==> b in t.actors && t.actors[b] == s.actors[b]
  {
    LeadsNowhere(s, u);
    t := s;
    if s.locations[l].partsDeletedAt.None? {
      hide LeadsQuietly, DoSweep, CanSweep;
      var s1, c := List(s, l, u);
      CleanerMarks(s1, c, l, u);
      t := DoSweep(s1, c, CleanMark(0, true));
      SweepLeads(s1, c, CleanMark(0, true), u);
      LeadsFurther(s, s1, t, u);
    }
  }

  lemma CleanerMarks(s: State, c: nat, l: nat, u: nat)
    requires c in s.actors && s.actors[c] == PartsCleaner(l, u, MarkRow) && Has(s, l, u)
    ensures CanSweep(s, c, CleanMark(0, true))
    ensures var t := DoSweep(s, c, CleanMark(0, true));
      && Has(t, l, u) && t.locations[l].partsDeletedAt.Some?
      && forall b :: b in s.actors && b != c ==> b in t.actors && t.actors[b] == s.actors[b]
  {
  }

  /** The parts of a merged row are all there, and nobody will delete them. */
  ghost predicate PartsStay(s: State, u: nat, r: Location) {
    r.partsDeletedAt.Some? && AllParts(s, u) && forall b :: b in s.actors ==> !Drops(s.actors[b], u)
  }

  /** Merge exclusivity, exactly, for an archive that nothing has harmed so far.  A download may mark the merge if and
      only if the row is not merged and no other goroutine is merging it, or the part indices have a gap, so that
      no merge ever ends: then, whatever runs follow, the archive stays readable and its row in a proper phase;
      otherwise some run that does the folder no other harm ends that.  A merged row that is marked again does
      lose its phase, but it stays readable if and only if all its parts are there and stay, say because deleting
      them has failed.  A mark that found mergeStartedAt and mergedAt still empty would always do. */
  lemma MarkExactly(s: State, a: nat, now: int)
    requires CanDownload(s, a, MarkMergeStarted(now)) && s.actors[a].loc in s.locations
    requires ReachableQuietly(s, s.actors[a].folder)
    ensures var u, r, t := s.actors[a].folder, s.locations[s.actors[a].loc], DoDownload(s, a, MarkMergeStarted(now));
      var alone := !Contiguous(s, u) || (r.mergedAt.None? && (r.mergeStartedAt.None? || !OtherMerges(s, a, u)));
      && (StaysSound(t, u) <==> alone)
      && (StaysReadable(t, u) <==> alone || (r.mergedAt.Some? && PartsStay(s, u, r)))
  {
    hide StaysSound, StaysReadable, Harms, LeadsQuietly, Safe, Avail, Earned, DoDownload, Contiguous, PartsOf, Beside;
    hide OtherMerges, ReachableQuietly, PartsStay;
    var d := s.actors[a];
    var u, l := d.folder, d.loc;
    var t := DoDownload(s, a, MarkMergeStarted(now));
    QuietFacts(s, u);
    Downloading(s, a, now);
    MarkSetsRow(s, a, now);
    if !Contiguous(s, u) {
      MarkIsStep(s, a, now, u);
      GapAllParts(s, l, u);
      GapStepStaysSound(s, DownloadStep(a, MarkMergeStarted(now)), u);
      SoundIsReadable(t, u);
    } else if s.locations[l].mergedAt.Some? {
      RemarkBreaks(t, a, l, u);
      MarkMergedExactly(s, a, now, l, u);
    } else if s.locations[l].mergeStartedAt.Some? && OtherMerges(s, a, u) {
      var b := TheOther(s, a, l, u);
      AllThere(s, l, u);
      SameParts(s, t, u);
      OverlapBreaks(t, a, b, l, u);
      if StaysSound(t, u) {
        SoundIsReadable(t, u);
      }
    } else {
      MarkKeeps(s, a, now, u);
      QuietStaysSound(t, u);
      SoundIsReadable(t, u);
    }
  }

  lemma MarkMergedExactly(s: State, a: nat, now: int, l: nat, u: nat)
    requires Safe(s) && Avail(s, u) && CanDownload(s, a, MarkMergeStarted(now)) && Has(s, l, u)
    requires s.actors[a].loc == l && s.actors[a].folder == u && s.locations[l].mergedAt.Some?
    ensures StaysReadable(DoDownload(s, a, MarkMergeStarted(now)), u) <==> PartsStay(s, u, s.locations[l])
  {
    hide StaysReadable, Safe, Avail, PartsOf, Drops;
    var t := DoDownload(s, a, MarkMergeStarted(now));
    MarkedAgain(s, a, now, l, u);
    if PartsStay(s, u, s.locations[l]) {
      MarkedIsGuarded(s, a, now, l, u);
      MarkIsStep(s, a, now, u);
      StepKeepsSafe(s, DownloadStep(a, MarkMergeStarted(now)));
      HeldStaysReadable(t, u);
    } else if !AllParts(s, u) {
      TakenBack(t, a, l, u);
    } else if b :| b in s.actors && Drops(s.actors[b], u) {
      DroppedAndTakenBack(t, a, b, l, u);
    } else {
      CleanedAndTakenBack(t, a, l, u);
    }
  }

  lemma MarkedAgain(s: State, a: nat, now: int, l: nat, u: nat)
    requires Safe(s) && CanDownload(s, a, MarkMergeStarted(now)) && Has(s, l, u)
    requires s.actors[a].loc == l && s.actors[a].folder == u
    ensures var t := DoDownload(s, a, MarkMergeStarted(now));
      && Registers(t, a, l, u) && Has(t, l, u) && Nonempty(t, u) && (AllParts(t, u) <==> AllParts(s, u))
      && t.locations[l] == s.locations[l].(mergeStartedAt := Some(now))
      && (forall b :: b in s.actors && Drops(s.actors[b], u) ==> b in t.actors && t.actors[b] == s.actors[b])
  {
    hide Safe, PartsOf;
    LocatedParts(s, l, u);
    MarkSetsRow(s, a, now);
    SameParts(s, DoDownload(s, a, MarkMergeStarted(now)), u);
  }

  lemma MarkedIsGuarded(s: State, a: nat, now: int, l: nat, u: nat)
    requires Avail(s, u) && CanDownload(s, a, MarkMergeStarted(now)) && Has(s, l, u)
    requires s.actors[a].loc == l && s.actors[a].folder == u && s.locations[l].mergedAt.Some?
    requires PartsStay(s, u, s.locations[l])
    ensures Held(DoDownload(s, a, MarkMergeStarted(now)), u)
  {
    var t := DoDownload(s, a, MarkMergeStarted(now));
    assert RowOk(s, u, l);
    forall b | b in t.actors ensures Tamed(t, t.actors[b], u, l) && (Owns(t.actors[b], u, l) ==> b == a) {
      if b != a {
        assert Fits(s.actors[b], u, l, s.locations[l], u in s.merged) && !Drops(s.actors[b], u);
      }
    }
    forall k | Has(t, k, u) ensures k == l {
      assert Has(s, k, u);
    }
    assert PartsOf(t, u) == PartsOf(s, u);
    assert Guarded(t, u, l);
  }

  lemma MarkIsStep(s: State, a: nat, now: int, u: nat)
    requires CanDownload(s, a, MarkMergeStarted(now))
    ensures var step := DownloadStep(a, MarkMergeStarted(now));
      && Enabled(s, step) && Next(s, step) == DoDownload(s, a, MarkMergeStarted(now))
      && !DropsFolder(s, step, u) && !LocatesAgain(s, step, u)
  {
  }

  lemma Downloading(s: State, a: nat, now: int)
    requires CanDownload(s, a, MarkMergeStarted(now)) && s.actors[a].loc in s.locations && Safe(s)
    ensures a in s.actors && s.actors[a].Downloader? && s.actors[a].at == MarkStarted
    ensures Has(s, s.actors[a].loc, s.actors[a].folder)
    ensures Nonempty(s, s.actors[a].folder) && s.actors[a].partCount == |s.frozen[s.actors[a].folder]|
  {
    hide Safe, Nonempty;
    OkActor(s, a);
    LocatedParts(s, s.actors[a].loc, s.actors[a].folder);
  }

  lemma TheOther(s: State, a: nat, l: nat, u: nat) returns (b: nat)
    requires OtherMerges(s, a, u) && Avail(s, u) && Has(s, l, u)
    ensures b in s.actors && b != a && Merges(s.actors[b], u) && HeldLocation(s.actors[b]) == l
  {
    b :| b in s.actors && b != a && Merges(s.actors[b], u);
    HolderKnows(s, b, u);
  }

  lemma AllThere(s: State, l: nat, u: nat)
    requires Avail(s, u) && Has(s, l, u) && s.locations[l].mergedAt.None? && Contiguous(s, u)
    ensures HasFirst(PartsOf(s, u), |s.frozen[u]|)
  {
    assert RowOk(s, u, l);
  }

  lemma MarkKeeps(s: State, a: nat, now: int, u: nat)
    requires Safe(s) && Avail(s, u) && CanDownload(s, a, MarkMergeStarted(now)) && s.actors[a].loc in s.locations
    requires s.locations[s.actors[a].loc].mergedAt.None?
    requires s.locations[s.actors[a].loc].mergeStartedAt.None? || !OtherMerges(s, a, u)
    ensures Safe(DoDownload(s, a, MarkMergeStarted(now))) && Avail(DoDownload(s, a, MarkMergeStarted(now)), u)
  {
    hide Safe, Avail, OtherMerges;
    var step := DownloadStep(a, MarkMergeStarted(now));
    assert Enabled(s, step) && Next(s, step) == DoDownload(s, a, MarkMergeStarted(now)) && !Harms(s, step, u);
    hide *;
    StepKeepsSafe(s, step);
    StepKeepsAvail(s, step, u);
  }

  // ---------- resetting a stalled merge ----------

  /** The stalled reset, exactly, for an archive that nothing has harmed so far.  A stalled merge may be reset if and
      only if no goroutine is merging the location, or no other merge of it can begin, or its part indices have a
      gap.  Otherwise another download finds the row as if no merge had begun; one of the two completes its merge
      and deletes the parts, and the other one fails. */
  lemma ResetStalledExactly(s: State, before: int, l: nat, u: nat)
    requires ReachableQuietly(s, u) && Has(s, l, u) && Stalled(s.locations[l], before)
    ensures var t := ResetRows(s, before);
      var idle := !Contiguous(s, u) || forall b :: b in s.actors ==> !Merges(s.actors[b], u);
      && (StaysReadable(t, u) <==> idle || Shut(s, l))
      && (idle ==> StaysSound(t, u)) && (!Shut(s, l) ==> (StaysSound(t, u) <==> idle))
  {
    hide StaysSound, StaysReadable, Harms, LeadsQuietly, Safe, Avail, Earned, Contiguous, PartsOf, ReachableQuietly;
    hide ResetRows, Shut;
    var t := ResetRows(s, before);
    QuietFacts(s, u);
    if !Contiguous(s, u) {
      ResetIsStep(s, before, u);
      GapAllParts(s, l, u);
      GapStepStaysSound(s, ResetStalled(before), u);
    } else if b :| b in s.actors && Merges(s.actors[b], u) {
      if Shut(s, l) {
        ResetIsGuarded(s, before, l, u);
        ResetIsStep(s, before, u);
        StepKeepsSafe(s, ResetStalled(before));
        HeldStaysReadable(t, u);
      } else {
        LiveResetBreaks(s, before, l, u, b);
      }
    } else {
      ResetKeeps(s, before, u);
      QuietStaysSound(t, u);
    }
    if StaysSound(t, u) {
      SoundIsReadable(t, u);
    }
  }

  lemma ResetIsGuarded(s: State, before: int, l: nat, u: nat)
    requires Avail(s, u) && Has(s, l, u) && Stalled(s.locations[l], before) && Shut(s, l)
    ensures Held(ResetRows(s, before), u)
  {
    var t := ResetRows(s, before);
    assert RowOk(s, u, l);
    ShutKeeps(s, t, l);
    forall b | b in t.actors ensures Tamed(t, t.actors[b], u, l) {
      assert Fits(s.actors[b], u, l, s.locations[l], u in s.merged);
    }
    forall k | Has(t, k, u) ensures k == l {
      assert Has(s, k, u);
    }
    assert PartsOf(t, u) == PartsOf(s, u);
    assert Guarded(t, u, l);
  }

  /** A merge that is alive, on a location that another download can reach. */
  lemma LiveResetBreaks(s: State, before: int, l: nat, u: nat, b: nat)
    requires Safe(s) && Avail(s, u) && Has(s, l, u) && Stalled(s.locations[l], before) && Contiguous(s, u)
    requires b in s.actors && Merges(s.actors[b], u) && !Shut(s, l)
    ensures !StaysReadable(ResetRows(s, before), u)
  {
    hide StaysReadable, Safe, Avail, Contiguous, PartsOf, ResetRows, Needs, Points;
    var t := ResetRows(s, before);
    HolderKnows(s, b, u);
    AfterReset(s, before, l, u);
    if e :| e in s.entries && s.entries[e].location == l {
      FreshNow(t, e, l, u);
      NeedsHas(t, l, u);
      ReopenedBreaks(t, e, l, u, b);
    } else {
      var a :| a in s.actors && Opens(s, s.actors[a], l);
      if Points(s, s.actors[a], l) {
        PointedBreaks(t, a, l, u, b);
      } else if s.actors[a].at == CheckParts {
        CheckAgainBreaks(t, a, l, u, b);
      } else {
        DownloadsHere(t, a, l, u);
        MarkAgainBreaks(t, a, l, u, b);
      }
    }
  }


  lemma AfterReset(s: State, before: int, l: nat, u: nat)
    requires Safe(s) && Avail(s, u) && Has(s, l, u) && Stalled(s.locations[l], before) && Contiguous(s, u)
    ensures var t := ResetRows(s, before);
      && Safe(t) && Needs(t, l, u) && Unstarted(t.locations[l]) && t.actors == s.actors && t.entries == s.entries
      && forall x :: Points(s, x, l) == Points(t, x, l)
  {
    hide Safe, Avail, PartsOf, ResetRows, Points, Contiguous;
    var t := ResetRows(s, before);
    UnmergedAllParts(s, l, u);
    LocatedParts(s, l, u);
    ResetIsStep(s, before, u);
    StepKeepsSafe(s, ResetStalled(before));
    ResetStalledRow(s, before, l, u);
    forall x ensures Points(s, x, l) == Points(t, x, l) {
      SamePoints(s, t, x, l);
    }
    assert Contiguous(t, u) by { SameContiguous(s, t, u); }
  }

  lemma UnmergedAllParts(s: State, l: nat, u: nat)
    requires Avail(s, u) && Has(s, l, u) && s.locations[l].mergedAt.None?
    ensures AllParts(s, u) && s.locations[l].partsDeletedAt.None?
  {
    assert RowOk(s, u, l);
  }

  lemma LocatedParts(s: State, l: nat, u: nat)
    requires Safe(s) && Has(s, l, u)
    ensures Nonempty(s, u)
  {
    FinalizedNonempty(s, u, s.locations[l].partCount);
  }

  lemma SamePoints(s: State, t: State, x: Actor, l: nat)
    requires t.entries == s.entries
    ensures Points(s, x, l) == Points(t, x, l)
  {
  }

  lemma SameContiguous(s: State, t: State, u: nat)
    requires t.frozen == s.frozen
    ensures Contiguous(s, u) == Contiguous(t, u)
  {
  }

  lemma PointedBreaks(s: State, f: nat, l: nat, u: nat, b: nat)
    requires Safe(s) && Needs(s, l, u) && Unstarted(s.locations[l])
    requires f in s.actors && Points(s, s.actors[f], l)
    requires b in s.actors && Merges(s.actors[b], u) && HeldLocation(s.actors[b]) == l
    ensures !StaysReadable(s, u)
  {
    assert b != f && EntriesOk(s);
    hide LeadsQuietly, Needs, StaysReadable, PartsOf, Safe, Points;
    NeedsHas(s, l, u);
    var t, e := PointEntry(s, f, l, u);
    LeadsSafe(s, t, u);
    SameParts(s, t, u);
    StillNeeds(s, t, l, u);
    FreshNow(t, e, l, u);
    ReopenedBreaks(t, e, l, u, b);
    Back(s, t, u);
  }

  lemma ResetIsStep(s: State, before: int, u: nat)
    ensures Enabled(s, ResetStalled(before)) && Next(s, ResetStalled(before)) == ResetRows(s, before)
    ensures !DropsFolder(s, ResetStalled(before), u) && !LocatesAgain(s, ResetStalled(before), u)
  {
  }

  lemma ResetKeeps(s: State, before: int, u: nat)
    requires Safe(s) && Avail(s, u) && forall b :: b in s.actors ==> !Merges(s.actors[b], u)
    ensures Safe(ResetRows(s, before)) && Avail(ResetRows(s, before), u)
  {
    var step := ResetStalled(before);
    assert Enabled(s, step) && Next(s, step) == ResetRows(s, before) && !Harms(s, step, u);
    hide *;
    StepKeepsSafe(s, step);
    StepKeepsAvail(s, step, u);
  }

  // ---------- inserting a location ----------

  /** Goroutine x will not delete parts of folder u, nor take the merge of one of its locations back. */
  predicate Idle(s: State, x: Actor, u: nat) {
    && !(x.PartsCleaner? && x.folder == u)
    && !(x.Downloader? && x.folder == u && x.at != OpenMerged)
    && (x.Worker? && x.folder == u && LivePc(x.pc) ==> x.loc !in s.locations && Doomed(s, x))
  }

  /** The other locations of folder u are merged for good, and nobody is at work on its parts. */
  ghost predicate Undisputed(s: State, u: nat) {
    && (forall k :: Has(s, k, u) ==> IsSettled(s.locations[k]) && u in s.merged)
    && (forall b :: b in s.actors ==> Idle(s, s.actors[b], u))
  }

  /** A new location, exactly, in every reachable state.  It can be read if and only if the parts that were counted
      are still there.  The folder stays readable in all runs that do it no (other) harm if and only if, besides,
      its other locations are merged for good and nobody is at work on its parts, or the part indices have a gap. */
  lemma AddLocationExactly(s: State, a: nat, l: nat)
    requires Reachable(s) && CanFinalize(s, a, AddLocation(l))
    ensures var t, f := DoFinalize(s, a, AddLocation(l)), s.actors[a];
      var counted := |PartsOf(s, f.upload)| == f.count;
      && l in t.locations && (Readable(t, t.locations[l]) <==> counted)
      && (StaysReadable(t, f.upload) <==>
            counted && (!Contiguous(s, f.upload) || Undisputed(s, f.upload)))
  {
    hide Safe, Earned, Reachable, CanFinalize, DoFinalize, StaysReadable, Contiguous, Undisputed, Readable, PartsOf;
    ReachableEarned(s);
    AddedStep(s, a, l);
    var t, f := DoFinalize(s, a, AddLocation(l)), s.actors[a];
    var u := f.upload;
    AddedIsReadable(s, a, l);
    if |PartsOf(s, u)| != f.count {
      NotReadable(t, l, u);
    } else {
      AddedAllParts(s, a, u);
      if !Contiguous(s, u) {
        GapHere(s, u);
        AddedGap(s, a, l, u);
        GapStaysSound(t, u);
        SoundIsReadable(t, u);
      } else if Undisputed(s, u) {
        AddedIsGuarded(s, a, l, u);
        HeldStaysReadable(t, u);
      } else {
        DisputeBreaks(s, a, l, u);
      }
    }
  }

  lemma AddedIsReadable(s: State, a: nat, l: nat)
    requires Safe(s) && CanFinalize(s, a, AddLocation(l))
    ensures var t, f := DoFinalize(s, a, AddLocation(l)), s.actors[a];
      && l in t.locations && t.locations[l].folder == f.upload
      && (Readable(t, t.locations[l]) <==> |PartsOf(s, f.upload)| == f.count)
  {
    var t, f := DoFinalize(s, a, AddLocation(l)), s.actors[a];
    AddedRow(s, a, l);
    hide Safe, CanFinalize, DoFinalize;
    if |PartsOf(s, f.upload)| == f.count {
      CountedAllParts(s, f.upload, f.count);
    } else if ExactlyParts(PartsOf(s, f.upload), s.frozen[f.upload]) {
      ExactSize(PartsOf(s, f.upload), s.frozen[f.upload]);
    }
  }

  lemma AddedStep(s: State, a: nat, l: nat)
    requires Safe(s) && CanFinalize(s, a, AddLocation(l))
    ensures a in s.actors && s.actors[a].Finalizer? && s.actors[a].step == InsertLocation
    ensures l !in s.locations && Safe(DoFinalize(s, a, AddLocation(l)))
  {
    assert LocationsOk(s);
    assert Enabled(s, FinalizeStep(a, AddLocation(l)));
    assert Next(s, FinalizeStep(a, AddLocation(l))) == DoFinalize(s, a, AddLocation(l));
    hide Safe, DoFinalize, Next, Enabled;
    StepKeepsSafe(s, FinalizeStep(a, AddLocation(l)));
  }

  lemma NotReadable(s: State, l: nat, u: nat)
    requires Has(s, l, u) && !Readable(s, s.locations[l])
    ensures !StaysReadable(s, u)
  {
    hide LeadsQuietly, Readable;
    LeadsNowhere(s, u);
    assert !AllReadable(s, u);
  }

  lemma AddedAllParts(s: State, a: nat, u: nat)
    requires Safe(s) && a in s.actors && s.actors[a].Finalizer? && s.actors[a].step == InsertLocation
    requires s.actors[a].upload == u && |PartsOf(s, u)| == s.actors[a].count
    ensures AllParts(s, u) && Nonempty(s, u)
  {
    assert ActorOk(s, s.actors[a]) && FrozenOk(s, u);
    CountedAllParts(s, u, s.actors[a].count);
    FinalizedNonempty(s, u, s.actors[a].count);
  }

  lemma AddedGap(s: State, a: nat, l: nat, u: nat)
    requires Safe(s) && GapOk(s, u) && CanFinalize(s, a, AddLocation(l))
    requires s.actors[a].upload == u && |PartsOf(s, u)| == s.actors[a].count
    ensures GapOk(DoFinalize(s, a, AddLocation(l)), u)
  {
    assert ObjectsOk(s) && ActorsOk(s);
    hide *;
    AddLocationGap(s, a, l, u);
  }

  lemma AddedIsGuarded(s: State, a: nat, l: nat, u: nat)
    requires Safe(s) && CanFinalize(s, a, AddLocation(l)) && s.actors[a].upload == u && AllParts(s, u)
    requires Undisputed(s, u)
    ensures Held(DoFinalize(s, a, AddLocation(l)), u)
  {
    hide Safe, DoFinalize, Undisputed, Tamed, Owns;
    var t := DoFinalize(s, a, AddLocation(l));
    AddedStep(s, a, l);
    AddedTables(s, a, l, u);
    AddedTamed(s, a, l, u);
    AddedSettled(s, a, l, u);
    assert Guarded(t, u, l);
  }

  lemma AddedTables(s: State, a: nat, l: nat, u: nat)
    requires CanFinalize(s, a, AddLocation(l)) && s.actors[a].upload == u && AllParts(s, u)
    ensures var t := DoFinalize(s, a, AddLocation(l));
      && AllParts(t, u) && t.frozen == s.frozen && t.merged == s.merged && t.entries == s.entries
      && PartsOf(t, u) == PartsOf(s, u)
      && t.locations == s.locations[l := Location(u, s.actors[a].count, None, None, None, None)]
      && t.actors == s.actors[a := s.actors[a].(step := FindExisting(l))]
  {
    assert PartsOf(DoFinalize(s, a, AddLocation(l)), u) == PartsOf(s, u);
  }

  lemma AddedTamed(s: State, a: nat, l: nat, u: nat)
    requires Safe(s) && CanFinalize(s, a, AddLocation(l)) && s.actors[a].upload == u && Undisputed(s, u)
    ensures var t := DoFinalize(s, a, AddLocation(l)); AllTamed(t, u, l) && NoOwner(t, u, l) && OneOwner(t, u, l)
  {
    var t := DoFinalize(s, a, AddLocation(l));
    assert ActorsOk(s);
    hide Safe, ActorsOk;
    forall b | b in t.actors ensures Tamed(t, t.actors[b], u, l) && !Owns(t.actors[b], u, l) {
      if b != a {
        IdleIsTamed(s, a, l, b, u);
      }
    }
  }

  lemma AddedSettled(s: State, a: nat, l: nat, u: nat)
    requires Undisputed(s, u) && CanFinalize(s, a, AddLocation(l))
    ensures OthersSettled(DoFinalize(s, a, AddLocation(l)), u, l)
  {
    var t := DoFinalize(s, a, AddLocation(l));
    forall k | Has(t, k, u) && k != l ensures IsSettled(t.locations[k]) && u in t.merged {
      assert Has(s, k, u);
    }
  }

  lemma IdleIsTamed(s: State, a: nat, l: nat, b: nat, u: nat)
    requires ActorsOk(s) && CanFinalize(s, a, AddLocation(l)) && b in s.actors && b != a && Idle(s, s.actors[b], u)
    ensures Tamed(DoFinalize(s, a, AddLocation(l)), s.actors[b], u, l) && !Owns(s.actors[b], u, l)
  {
    assert ActorOk(s, s.actors[b]);
  }

  lemma DisputeBreaks(s: State, a: nat, l: nat, u: nat)
    requires Safe(s) && CanFinalize(s, a, AddLocation(l)) && s.actors[a].upload == u
    requires AllParts(s, u) && Nonempty(s, u) && Contiguous(s, u) && !Undisputed(s, u)
    ensures !StaysReadable(DoFinalize(s, a, AddLocation(l)), u)
  {
    hide StaysReadable, Safe, PartsOf, Needs, Contiguous, Idle, Points;
    var t := DoFinalize(s, a, AddLocation(l));
    AddedNeeds(s, a, l, u);
    if k :| Has(s, k, u) && !(IsSettled(s.locations[k]) && u in s.merged) {
      OtherRowBreaks(t, a, k, l, u);
    } else {
      var b :| b in s.actors && !Idle(s, s.actors[b], u);
      StillBusy(s, a, l, b, u);
      BusyBreaks(t, a, b, l, u);
    }
  }

  lemma AddedNeeds(s: State, a: nat, l: nat, u: nat)
    requires Safe(s) && CanFinalize(s, a, AddLocation(l)) && s.actors[a].upload == u
    requires AllParts(s, u) && Nonempty(s, u) && Contiguous(s, u)
    ensures var t := DoFinalize(s, a, AddLocation(l));
      && Safe(t) && Needs(t, l, u) && Unstarted(t.locations[l]) && t.merged == s.merged
      && (forall k :: k in s.locations ==> k != l && k in t.locations && t.locations[k] == s.locations[k])
      && a in t.actors && Points(t, t.actors[a], l)
  {
    hide Safe, DoFinalize, PartsOf;
    AddedStep(s, a, l);
    AddedTables(s, a, l, u);
  }

  lemma OtherRowBreaks(s: State, f: nat, k: nat, l: nat, u: nat)
    requires Safe(s) && Needs(s, l, u) && Unstarted(s.locations[l]) && f in s.actors && Points(s, s.actors[f], l)
    requires Has(s, k, u) && k != l && !(IsSettled(s.locations[k]) && u in s.merged)
    ensures !StaysReadable(s, u)
  {
    hide StaysReadable, Safe, Needs, Points;
    if s.locations[k].mergedAt.None? {
      SecondBreaks(s, f, k, l, u);
    } else if s.locations[k].partsDeletedAt.None? {
      CleanableBreaks(s, k, l, u);
    } else {
      NotReadable(s, k, u);
    }
  }

  lemma StillBusy(s: State, a: nat, l: nat, b: nat, u: nat)
    requires Safe(s) && CanFinalize(s, a, AddLocation(l)) && b in s.actors && !Idle(s, s.actors[b], u)
    ensures var t := DoFinalize(s, a, AddLocation(l));
      && b in t.actors && t.actors[b] == s.actors[b] && !Idle(t, t.actors[b], u)
      && (t.actors[b].Downloader? || t.actors[b].Worker? || t.actors[b].PartsCleaner?) && HeldLocation(t.actors[b]) != l
  {
    OkActor(s, b);
  }

  /** Whoever is at work on the parts can cost the new location its parts. */
  lemma BusyBreaks(s: State, f: nat, b: nat, l: nat, u: nat)
    requires Safe(s) && Needs(s, l, u) && Unstarted(s.locations[l]) && f in s.actors && Points(s, s.actors[f], l)
    requires b in s.actors && !Idle(s, s.actors[b], u)
    requires s.actors[b].Downloader? || s.actors[b].Worker? || s.actors[b].PartsCleaner?
    requires HeldLocation(s.actors[b]) != l
    ensures !StaysReadable(s, u)
  {
    hide StaysReadable, Safe, Needs, Points, Doomed;
    var x := s.actors[b];
    if Drops(x, u) {
      DropperBreaks(s, b, l, u);
    } else if x.Downloader? {
      match x.at
      case CheckParts => UncheckedBreaks(s, b, l, u);
      case MarkStarted => UnmarkedBreaks(s, b, l, u);
      case Register => RegisterBreaks(s, b, l, u);
      case OpenMerged =>
    } else if x.pc == MarkMerged {
      MergedWorkerBreaks(s, b, l, u);
    } else if x.loc in s.locations {
      PlacedWorker(s, b);
      ResettingBreaks(s, f, b, x.loc, l, u);
    } else {
      DoomedResets(s, x);
      CopyingBreaks(s, b, l, u);
    }
  }

  lemma PlacedWorker(s: State, w: nat)
    requires Safe(s) && w in s.actors && s.actors[w].Worker? && s.actors[w].loc in s.locations
    ensures Has(s, s.actors[w].loc, s.actors[w].folder)
  {
    OkActor(s, w);
  }

  lemma DoomedResets(s: State, x: Actor)
    ensures x.Worker? && x.pc == Resetting ==> Doomed(s, x)
  {
  }

  lemma AddedRow(s: State, a: nat, l: nat)
    requires Safe(s) && CanFinalize(s, a, AddLocation(l))
    ensures var t, f := DoFinalize(s, a, AddLocation(l)), s.actors[a];
      && Finalized(s, f.upload, f.count) && FrozenOk(s, f.upload) && PartsOf(t, f.upload) == PartsOf(s, f.upload)
      && t.frozen == s.frozen && l in t.locations
      && t.locations[l] == Location(f.upload, f.count, None, None, None, None)
  {
    assert ActorOk(s, s.actors[a]) && FrozenOk(s, s.actors[a].upload);
  }
}
