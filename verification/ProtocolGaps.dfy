/** Archives whose part indices are not 0 .. n-1.  No merge of one ever ends, so neither overlapping merges nor
    stalled resets can cost it its parts. */
module ProtocolGaps {
  import opened Protocol
  import opened ProtocolAvailability
  import opened ProtocolDelivery
  import opened ProtocolSafety
  import opened Types

  /** The indices of folder u's parts are 0 .. n-1: an archive that a download can read to its end. */
  ghost predicate Contiguous(s: State, u: nat) {
    u in s.frozen && HasFirst(s.frozen[u], |s.frozen[u]|)
  }

  /** Goroutine x takes no merge of folder u as done. */
  predicate Spare(x: Actor, u: nat) {
    && !(x.Worker? && x.folder == u && (x.pc == MarkMerged || x.pc == MarkPartsDeleted || x.pc == DropParts))
    && !(x.PartsCleaner? && x.folder == u)
  }

  predicate Unmerged(r: Location) {
    r.mergedAt.None? && r.partsDeletedAt.None?
  }

  ghost predicate GapOk(s: State, u: nat) {
    && u in s.frozen && !Contiguous(s, u)
    && (forall l :: Has(s, l, u) ==> Unmerged(s.locations[l]) && AllParts(s, u))
    && (forall a :: a in s.actors ==> Spare(s.actors[a], u))
  }

  /** No location of u is added or merged, and no part of it disappears. */
  ghost predicate GapCalm(s: State, m: State, u: nat) {
    && (forall l :: Has(m, l, u) ==> Has(s, l, u) && Unmerged(m.locations[l]))
    && (u in s.frozen ==> u in m.frozen && m.frozen[u] == s.frozen[u])
    && (forall i :: i in PartsOf(s, u) ==> i in PartsOf(m, u))
    && m.actors == s.actors
  }

  lemma GapMove(s: State, m: State, a: nat, x: Actor, u: nat)
    requires GapOk(s, u) && GapCalm(s, m, u) && Spare(x, u)
    ensures GapOk(Set(m, a, x), u)
  {
    hide Spare;
    SetParts(m, a, x, u);
    SetHas(m, a, x, u);
  }

  lemma GapKeeps(s: State, m: State, u: nat)
    requires GapOk(s, u) && GapCalm(s, m, u)
    ensures GapOk(m, u)
  {
  }

  lemma CalmGap(s: State, m: State, u: nat)
    requires GapOk(s, u) && Calm(s, m, u)
    ensures GapCalm(s, m, u)
  {
  }

  lemma CalmGapMove(s: State, m: State, a: nat, x: Actor, u: nat)
    requires GapOk(s, u) && Calm(s, m, u) && Spare(x, u)
    ensures GapOk(Set(m, a, x), u)
  {
    hide *;
    CalmGap(s, m, u);
    GapMove(s, m, a, x, u);
  }

  /** A row changes, but not to merged. */
  lemma SetLocationGap(s: State, l: nat, row: Location -> Location, u: nat)
    requires GapOk(s, u)
    requires l in s.locations ==> row(s.locations[l]).folder == s.locations[l].folder
    requires Has(s, l, u) ==> Unmerged(row(s.locations[l]))
    ensures GapCalm(s, SetLocation(s, l, row), u)
  {
    assert PartsOf(SetLocation(s, l, row), u) == PartsOf(s, u);
  }

  /** Nothing goes beyond the parts of a folder with a gap: that would take a copy of all of them. */
  lemma GapHere(s: State, u: nat)
    requires Safe(s) && Earned(s) && AllParts(s, u) && !Contiguous(s, u)
    ensures GapOk(s, u)
  {
    hide Safe, Contiguous, Earned;
    if BeyondParts(s, u) {
      BeyondIsContiguous(s, u);
    }
    forall l | Has(s, l, u) ensures Unmerged(s.locations[l]) {
      assert Touched(s.locations[l]) ==> BeyondParts(s, u);
    }
    forall a | a in s.actors ensures Spare(s.actors[a], u) {
      assert Replaces(s.actors[a], u) ==> BeyondParts(s, u);
    }
  }

  lemma BeyondIsContiguous(s: State, u: nat)
    requires Safe(s) && Earned(s) && BeyondParts(s, u)
    ensures Contiguous(s, u)
  {
    hide Safe, Earned;
    SomeoneDelivered(s, u);
    var c :| c in s.actors && Clean(s.actors[c], u);
    CleanIsComplete(s, c, u);
  }

  lemma GapReadable(s: State, u: nat, l: nat)
    requires Safe(s) && GapOk(s, u) && Has(s, l, u)
    ensures InPhase(s.locations[l]) && Readable(s, s.locations[l])
  {
    assert Finalized(s, u, s.locations[l].partCount) && FrozenOk(s, u);
    GoodIsReadable(s, s.locations[l]);
  }

  // ---------- steps ----------

  lemma FinalizeGap(s: State, a: nat, op: FinalizeOp, u: nat)
    requires Safe(s) && GapOk(s, u) && CanFinalize(s, a, op)
    requires !DropsFolder(s, FinalizeStep(a, op), u) && !LocatesAgain(s, FinalizeStep(a, op), u)
    ensures GapOk(DoFinalize(s, a, op), u)
  {
    hide GapOk, DoFinalize, FinalizeMove, FinalizeEffect, Calm, LocatesAgain, Spare;
    FinalizeIsMove(s, a, op, u);
    IdleSpare(FinalizeMove(s, a, op), u);
    if op.AddLocation? {
      CountedAgain(s, a, op, u);
      AddLocationGap(s, a, op.l, u);
    } else if op.DropOldFiles? {
      DropFolderGap(s, a, op, u);
    } else {
      PlainFinalizeCalm(s, a, op, u);
      CalmGapMove(s, FinalizeEffect(s, a, op), a, FinalizeMove(s, a, op), u);
    }
  }

  lemma CountedAgain(s: State, a: nat, op: FinalizeOp, u: nat)
    requires CanFinalize(s, a, op) && op.AddLocation? && !LocatesAgain(s, FinalizeStep(a, op), u)
    ensures s.actors[a].upload == u ==> |PartsOf(s, u)| == s.actors[a].count
  {
  }

  lemma IdleSpare(x: Actor, u: nat)
    requires !Holds(x, u)
    ensures Spare(x, u)
  {
  }

  lemma AddLocationGap(s: State, a: nat, l: nat, u: nat)
    requires ObjectsOk(s) && ActorsOk(s) && GapOk(s, u) && CanFinalize(s, a, AddLocation(l))
    requires s.actors[a].upload == u ==> |PartsOf(s, u)| == s.actors[a].count
    ensures GapOk(DoFinalize(s, a, AddLocation(l)), u)
  {
    var f, t := s.actors[a], DoFinalize(s, a, AddLocation(l));
    if f.upload == u {
      assert ActorOk(s, f) && FrozenOk(s, u);
      CountedAllParts(s, u, f.count);
      assert PartsOf(t, u) == PartsOf(s, u);
      forall k | Has(t, k, u) ensures Unmerged(t.locations[k]) {
        assert k != l ==> Has(s, k, u);
      }
    } else {
      AddedElsewhere(s, FinalizeEffect(s, a, AddLocation(l)), a, l, u);
      CalmGapMove(s, FinalizeEffect(s, a, AddLocation(l)), a, f.(step := FindExisting(l)), u);
    }
  }

  /** A folder without a location has no archive to lose. */
  lemma UnlocatedGap(s: State, t: State, a: nat, x: Actor, u: nat)
    requires GapOk(s, u) && (forall l :: !Has(s, l, u)) && t.locations == s.locations && t.frozen == s.frozen
    requires t.actors == s.actors[a := x] && Spare(x, u)
    ensures GapOk(t, u)
  {
    forall l ensures !Has(t, l, u) {
      assert !Has(s, l, u);
    }
  }

  lemma KeepFolderGap(s: State, v: nat, keep: set<int>, keepMerged: bool, a: nat, x: Actor, u: nat)
    requires GapOk(s, u) && Spare(x, u) && (v == u ==> forall l :: !Has(s, l, u))
    ensures GapOk(Set(KeepFolder(s, v, keep, keepMerged), a, x), u)
  {
    hide GapOk, Calm, Spare, RestrictAt;
    if v == u {
      UnlocatedGap(s, Set(KeepFolder(s, v, keep, keepMerged), a, x), a, x, u);
    } else {
      OtherFolderCalm(s, v, keep, keepMerged, u);
      CalmGapMove(s, KeepFolder(s, v, keep, keepMerged), a, x, u);
    }
  }

  lemma DropFolderGap(s: State, a: nat, op: FinalizeOp, u: nat)
    requires GapOk(s, u) && CanFinalize(s, a, op) && op.DropOldFiles? && !DropsFolder(s, FinalizeStep(a, op), u)
    requires Spare(FinalizeMove(s, a, op), u)
    ensures GapOk(DoFinalize(s, a, op), u)
  {
    hide GapOk, Spare, FinalizeMove;
    KeepFolderGap(s, s.actors[a].step.oldFolder, op.keep, op.keepMerged, a, FinalizeMove(s, a, op), u);
  }

  lemma DownloadGap(s: State, a: nat, op: DownloadOp, u: nat)
    requires Safe(s) && GapOk(s, u) && CanDownload(s, a, op)
    ensures GapOk(DoDownload(s, a, op), u)
  {
    hide GapOk, Safe, DoDownload, DownloadMove;
    match op
    case MarkMergeStarted(now) => MarkGap(s, a, now, u);
    case SpawnMerge(w) => SpawnGap(s, a, w, u);
    case _ =>
      PlainDownloadIs(s, a, op, u);
      PlainSpare(s, a, op, u);
      SelfCalm(s, u);
      CalmGapMove(s, s, a, DownloadMove(s, a, op), u);
  }

  lemma PlainSpare(s: State, a: nat, op: DownloadOp, u: nat)
    requires CanDownload(s, a, op) && !op.SpawnMerge? && !op.MarkMergeStarted?
    ensures Spare(DownloadMove(s, a, op), u)
  {
  }

  lemma MarkGap(s: State, a: nat, now: int, u: nat)
    requires GapOk(s, u) && CanDownload(s, a, MarkMergeStarted(now))
    ensures GapOk(DoDownload(s, a, MarkMergeStarted(now)), u)
  {
    var d := s.actors[a];
    SetLocationGap(s, d.loc, (r: Location) => r.(mergeStartedAt := Some(now)), u);
    GapMove(s, SetLocation(s, d.loc, (r: Location) => r.(mergeStartedAt := Some(now))), a, d.(at := Register), u);
  }

  lemma SpawnGap(s: State, a: nat, w: nat, u: nat)
    requires GapOk(s, u) && CanDownload(s, a, SpawnMerge(w))
    ensures GapOk(DoDownload(s, a, SpawnMerge(w)), u)
  {
    var t := DoDownload(s, a, SpawnMerge(w));
    assert PartsOf(t, u) == PartsOf(s, u);
    forall l ensures Has(t, l, u) ==> Has(s, l, u) {}
  }

  lemma WorkGap(s: State, w: nat, op: WorkerOp, u: nat)
    requires Safe(s) && GapOk(s, u) && CanWork(s, w, op)
    ensures GapOk(DoWork(s, w, op), u)
  {
    WorkerPlaced(s, w, op);
    hide Safe, Placed, DoWork, WorkEffect;
    if s.actors[w].folder == u {
      OwnWorkGap(s, w, op, u);
    } else {
      OtherWorkGap(s, w, op, u);
    }
  }

  /** A worker of the folder: it can fail and reset, but never be given the whole archive. */
  lemma OwnWorkGap(s: State, w: nat, op: WorkerOp, u: nat)
    requires Safe(s) && GapOk(s, u) && CanWork(s, w, op) && s.actors[w].folder == u
    ensures GapOk(DoWork(s, w, op), u)
  {
    assert Spare(s.actors[w], u);
    if op.PutMerged? {
      MergedIsComplete(s, w, op.acked);
      assert false;
    } else {
      OwnWorkCalm(s, w, op, u);
      hide *;
      GapMove(s, WorkEffect(s, w, op), w, s.actors[w].(pc := WorkMove(op)), u);
    }
  }

  lemma OwnWorkCalm(s: State, w: nat, op: WorkerOp, u: nat)
    requires GapOk(s, u) && CanWork(s, w, op) && s.actors[w].folder == u && !op.PutMerged?
    ensures GapCalm(s, WorkEffect(s, w, op), u) && Spare(s.actors[w].(pc := WorkMove(op)), u)
    ensures DoWork(s, w, op) == Set(WorkEffect(s, w, op), w, s.actors[w].(pc := WorkMove(op)))
  {
    assert Spare(s.actors[w], u);
    GapKeepsSelf(s, u);
    if op.ResetMerge? {
      SetLocationGap(s, s.actors[w].loc, ResetRow, u);
    } else if op.DeregisterWorker? {
      RegistryCalm(s, s.merges - {s.actors[w].loc}, u);
      CalmGap(s, s.(merges := s.merges - {s.actors[w].loc}), u);
    }
  }

  lemma GapKeepsSelf(s: State, u: nat)
    requires GapOk(s, u)
    ensures GapCalm(s, s, u)
  {
  }

  lemma OtherWorkGap(s: State, w: nat, op: WorkerOp, u: nat)
    requires GapOk(s, u) && CanWork(s, w, op) && s.actors[w].folder != u
    requires Placed(s, s.actors[w].loc, s.actors[w].folder)
    ensures GapOk(DoWork(s, w, op), u)
  {
    OtherWorkCalm(s, w, op, u);
    hide GapOk, Calm, WorkEffect;
    CalmGapMove(s, WorkEffect(s, w, op), w, s.actors[w].(pc := WorkMove(op)), u);
  }

  lemma OtherWorkCalm(s: State, w: nat, op: WorkerOp, u: nat)
    requires CanWork(s, w, op) && s.actors[w].folder != u && Placed(s, s.actors[w].loc, s.actors[w].folder)
    ensures Calm(s, WorkEffect(s, w, op), u)
  {
    hide Placed;
    match op
    case PutMerged(acked) => PutMergedIs(s, w, acked, u);
    case DropMergedParts(keep, _) => OtherPartsCalm(s, s.actors[w].folder, keep, u);
    case _ => WorkOthersCalm(s, w, op, u);
  }

  lemma SweepGap(s: State, a: nat, op: SweepOp, u: nat)
    requires Safe(s) && GapOk(s, u) && CanSweep(s, a, op) && !DropsFolder(s, SweepStep(a, op), u)
    ensures GapOk(DoSweep(s, a, op), u)
  {
    hide GapOk, Safe, DoSweep, SweepEffect, DropsFolder, Calm, Spare, SweepMove;
    CleanerSpare(s, a, op, u);
    match op
    case SweepFolder(_, _, _) => SweepFolderGap(s, a, op, u);
    case SweepUploadFolder(_, _, _) => SweepFolderGap(s, a, op, u);
    case CleanMark(now, acked) => CleanGap(s, a, op, u);
    case CleanDrop(keep, _) => CleanGap(s, a, op, u);
    case _ =>
      SweepRowsCalm(s, a, op, u);
      CalmGapMove(s, SweepEffect(s, a, op), a, SweepMove(s.actors[a], op), u);
  }

  lemma CleanerSpare(s: State, a: nat, op: SweepOp, u: nat)
    requires Safe(s) && GapOk(s, u) && CanSweep(s, a, op)
    ensures Spare(SweepMove(s.actors[a], op), u)
    ensures op.CleanMark? || op.CleanDrop? ==>
      s.actors[a].PartsCleaner? && s.actors[a].folder != u && Placed(s, s.actors[a].loc, s.actors[a].folder)
  {
    assert Spare(s.actors[a], u) && ActorOk(s, s.actors[a]);
  }

  lemma SweepFolderGap(s: State, a: nat, op: SweepOp, u: nat)
    requires GapOk(s, u) && CanSweep(s, a, op) && (op.SweepFolder? || op.SweepUploadFolder?)
    requires !DropsFolder(s, SweepStep(a, op), u) && Spare(SweepMove(s.actors[a], op), u)
    ensures GapOk(DoSweep(s, a, op), u)
  {
    hide GapOk, Spare;
    var k, x := s.actors[a], SweepMove(s.actors[a], op);
    var v := if k.Sweeper? then k.folder else k.upload;
    assert DoSweep(s, a, op) == Set(KeepFolder(s, v, op.keep, op.keepMerged), a, x);
    KeepFolderGap(s, v, op.keep, op.keepMerged, a, x, u);
  }

  lemma CleanGap(s: State, a: nat, op: SweepOp, u: nat)
    requires GapOk(s, u) && CanSweep(s, a, op) && (op.CleanMark? || op.CleanDrop?)
    requires s.actors[a].folder != u && Placed(s, s.actors[a].loc, s.actors[a].folder)
    requires Spare(SweepMove(s.actors[a], op), u)
    ensures GapOk(DoSweep(s, a, op), u)
  {
    hide GapOk, Spare;
    var k, x := s.actors[a], SweepMove(s.actors[a], op);
    SelfCalm(s, u);
    if op.CleanDrop? {
      OtherPartsCalm(s, k.folder, op.keep, u);
    } else {
      SetLocationCalm(s, k.loc, (r: Location) => r.(partsDeletedAt := Some(op.now)), u);
    }
    assert DoSweep(s, a, op) == Set(SweepEffect(s, a, op), a, x);
    CalmGapMove(s, SweepEffect(s, a, op), a, x, u);
  }

  lemma ResetGap(s: State, before: int, u: nat)
    requires GapOk(s, u)
    ensures GapOk(ResetRows(s, before), u)
  {
    assert PartsOf(ResetRows(s, before), u) == PartsOf(s, u);
  }

  lemma QuietGap(s: State, step: Step, u: nat)
    requires GapOk(s, u) && Enabled(s, step)
    requires step.StartPart? || step.PartStep? || step.CopyStep? || step.StartStep?
    ensures GapOk(Next(s, step), u)
  {
    hide GapOk, Calm;
    match step
    case StartPart(a, v, index, body) =>
      var m := s.(uploads := s.uploads[v := Started(s.uploads[v])]);
      UploadsCalm(s, m.uploads, u);
      CalmGapMove(s, m, a, PartUpload(v, index, body, false), u);
    case PartStep(a, op) =>
      PartCalm(s, a, op, u);
      CalmGapMove(s, PartEffect(s, a, op), a, if op.StorePart? then s.actors[a].(stored := true) else Ended, u);
    case CopyStep(a, op) =>
      SelfCalm(s, u);
      var c := s.actors[a].stream;
      CalmGapMove(s, s, a, Copier(DoCopy(c, PartsOf(s, c.folder), op)), u);
    case StartStep(a, op) =>
      StartCalm(s, op, u);
      StartIsMove(s, a, op, u);
      StartSpare(s, a, op, u);
      CalmGapMove(s, StartEffect(s, op), a, StartMove(s, a, op), u);
    case _ =>
  }

  lemma UploadsCalm(s: State, uploads: map<nat, Upload>, u: nat)
    ensures Calm(s, s.(uploads := uploads), u)
  {
    assert PartsOf(s.(uploads := uploads), u) == PartsOf(s, u);
  }

  lemma StartSpare(s: State, a: nat, op: StartOp, u: nat)
    requires GapOk(s, u) && CanStart(s, a, op)
    ensures Spare(StartMove(s, a, op), u)
  {
    if op.ListMerged? {
      assert !Has(s, op.l, u) || Unmerged(s.locations[op.l]);
    }
  }

  /** Only deleting the folder or inserting a location without the parts can harm an archive with a gap. */
  lemma StepKeepsGap(s: State, step: Step, u: nat)
    requires Safe(s) && GapOk(s, u) && Enabled(s, step)
    requires !DropsFolder(s, step, u) && !LocatesAgain(s, step, u)
    ensures GapOk(Next(s, step), u)
  {
    hide Safe, GapOk, DropsFolder, LocatesAgain, Calm, Enabled, Next;
    NextOf(s, step);
    StatementOf(s, step);
    match step
    case FinalizeStep(a, op) => FinalizeGap(s, a, op, u);
    case DownloadStep(a, op) => DownloadGap(s, a, op, u);
    case WorkerStep(a, op) => WorkGap(s, a, op, u);
    case SweepStep(a, op) => SweepGap(s, a, op, u);
    case ResetStalled(before) => ResetGap(s, before, u);
    case StartPart(_, _, _, _) => QuietGap(s, step, u);
    case PartStep(_, _) => QuietGap(s, step, u);
    case CopyStep(_, _) => QuietGap(s, step, u);
    case StartStep(_, _) => QuietGap(s, step, u);
    case _ =>
      StatementCalm(s, step, u);
      CalmGap(s, Next(s, step), u);
      GapKeeps(s, Next(s, step), u);
  }

  lemma {:induction false} RunKeepsGap(s: State, run: seq<Step>, u: nat)
    requires Safe(s) && GapOk(s, u) && QuietRun(s, run, u)
    ensures ValidRun(s, run) && Safe(After(s, run)) && GapOk(After(s, run), u)
    decreases |run|
  {
    if run != [] {
      StepKeepsSafe(s, run[0]);
      StepKeepsGap(s, run[0], u);
      hide Safe, GapOk, Enabled, Next, Harms;
      RunKeepsGap(Next(s, run[0]), run[1..], u);
    }
  }

  lemma LeadsKeepsGap(s: State, t: State, u: nat)
    requires Safe(s) && GapOk(s, u) && LeadsQuietly(s, t, u)
    ensures Safe(t) && GapOk(t, u)
  {
    var run :| QuietRun(s, run, u) && ValidRun(s, run) && After(s, run) == t;
    RunKeepsGap(s, run, u);
  }
}
