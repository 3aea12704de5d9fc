/** Availability and the merge phases, folder by folder.

    The program does not keep merges of one location apart: its UPDATE of mergeStartedAt is unconditional, and
    a merge counts as stalled after a fixed time whether or not its worker is alive.  Nor does it keep two
    CompleteUpload calls on one upload apart, or stop a sweep whose row delete failed.  `Harms` lists these
    events.  Whatever runs beside it, the archive of a folder stays readable as long as none of them hits this
    very folder; module ProtocolRaces shows for each of them how an archive is lost to it. */
module ProtocolAvailability {
  import opened Protocol
  import opened ProtocolReferences
  import opened ProtocolSafety
  import opened Types

  // ---------- who is doing what ----------

  predicate Has(s: State, l: nat, u: nat) {
    l in s.locations && s.locations[l].folder == u
  }

  predicate MergingPc(pc: WorkerPc) {
    pc == Uploading || pc == Resetting || pc == MarkMerged
  }

  predicate LivePc(pc: WorkerPc) {
    pc != Deregister && pc != Closing && pc != Closed
  }

  /** Between the mergeStartedAt mark on a location of folder u and the end of the merge upload's bookkeeping. */
  predicate Merges(x: Actor, u: nat) {
    (x.Downloader? && x.at == Register && x.folder == u) || (x.Worker? && MergingPc(x.pc) && x.folder == u)
  }

  /** Goroutines that were started for a location of folder u and may still change its row or its objects. */
  predicate Holds(x: Actor, u: nat) {
    || (x.Downloader? && x.folder == u)
    || (x.Worker? && LivePc(x.pc) && x.folder == u)
    || (x.PartsCleaner? && x.folder == u)
  }

  ghost predicate OtherMerges(s: State, a: nat, u: nat) {
    exists b :: b in s.actors && b != a && Merges(s.actors[b], u)
  }

  // ---------- what harms a folder ----------

  /** A whole-folder delete runs on a folder that a location still has. */
  ghost predicate DropsFolder(s: State, step: Step, u: nat) {
    && (exists l :: Has(s, l, u))
    && match step
       case FinalizeStep(a, op) => op.DropOldFiles? && a in s.actors && s.actors[a].Finalizer?
                                   && s.actors[a].step == DropOldFolder(u)
       case SweepStep(a, op) =>
         && a in s.actors
         && (|| (op.SweepFolder? && s.actors[a].Sweeper? && s.actors[a].folder == u)
             || (op.SweepUploadFolder? && s.actors[a].UploadSweeper? && s.actors[a].upload == u))
       case _ => false
  }

  /** A location is inserted for a folder that has one, or had one that is still being worked on, or that has
      lost a part since the parts were counted. */
  ghost predicate LocatesAgain(s: State, step: Step, u: nat) {
    && step.FinalizeStep? && step.finalize.AddLocation? && step.a in s.actors && s.actors[step.a].Finalizer?
    && s.actors[step.a].upload == u
    && ((exists l :: Has(s, l, u)) || (exists b :: b in s.actors && Holds(s.actors[b], u))
        || |PartsOf(s, u)| != s.actors[step.a].count)
  }

  /** A download marks a location whose merge is done, or is under way in another goroutine. */
  ghost predicate OverlapsMerge(s: State, step: Step, u: nat) {
    && step.DownloadStep? && step.download.MarkMergeStarted? && step.a in s.actors && s.actors[step.a].Downloader?
    && var d := s.actors[step.a];
    && Has(s, d.loc, u)
    && (s.locations[d.loc].mergedAt.Some? || (s.locations[d.loc].mergeStartedAt.Some? && OtherMerges(s, step.a, u)))
  }

  /** A merge is reset as stalled while its goroutine is alive. */
  ghost predicate ResetsLiveMerge(s: State, step: Step, u: nat) {
    && step.ResetStalled?
    && (exists l :: Has(s, l, u) && Stalled(s.locations[l], step.before))
    && (exists b :: b in s.actors && Merges(s.actors[b], u))
  }

  ghost predicate Harms(s: State, step: Step, u: nat) {
    DropsFolder(s, step, u) || LocatesAgain(s, step, u) || OverlapsMerge(s, step, u) || ResetsLiveMerge(s, step, u)
  }

  // ---------- the invariant ----------

  predicate AllParts(s: State, u: nat) {
    u in s.frozen && forall i | i in s.frozen[u] :: i in PartsOf(s, u)
  }

  /** The four phases of (mergeStartedAt, mergedAt, partsDeletedAt). */
  predicate InPhase(r: Location) {
    (r.partsDeletedAt.Some? ==> r.mergedAt.Some?) && (r.mergedAt.Some? ==> r.mergeStartedAt.Some?)
  }

  /** The objects that the row's timestamps point a reader to are there. */
  predicate Stored(s: State, r: Location) {
    if r.mergedAt.Some? then r.folder in s.merged else AllParts(s, r.folder)
  }

  /** What goroutine x relies on, given that location l with row r is the one of folder u. */
  predicate Fits(x: Actor, u: nat, l: nat, r: Location, merged: bool) {
    && (Holds(x, u) ==> HeldLocation(x) == l)
    && (Merges(x, u) ==> r.mergeStartedAt.Some? && r.mergedAt.None?)
    && (x.Downloader? && x.folder == u && x.at == OpenMerged ==> r.mergedAt.Some?)
    && (x.Worker? && x.folder == u && LivePc(x.pc) && !MergingPc(x.pc) ==> r.mergedAt.Some?)
    && (x.Worker? && x.folder == u && x.pc == MarkMerged ==> merged)
    && (x.PartsCleaner? && x.folder == u ==> r.mergedAt.Some?)
  }

  function HeldLocation(x: Actor): nat
    requires x.Downloader? || x.Worker? || x.PartsCleaner?
  {
    x.loc
  }

  ghost predicate OneMerge(s: State, u: nat) {
    forall a, b :: a in s.actors && b in s.actors && Merges(s.actors[a], u) && Merges(s.actors[b], u) ==> a == b
  }

  ghost predicate Only(s: State, l: nat, u: nat) {
    forall k :: Has(s, k, u) ==> k == l
  }

  ghost predicate AllFit(s: State, u: nat, l: nat)
    requires l in s.locations
  {
    forall a :: a in s.actors ==> Fits(s.actors[a], u, l, s.locations[l], u in s.merged)
  }

  /** Location l is the only one of folder u, and its objects are where its timestamps say. */
  ghost predicate RowOk(s: State, u: nat, l: nat) {
    && Has(s, l, u) && Only(s, l, u)
    && InPhase(s.locations[l]) && Stored(s, s.locations[l])
    && AllFit(s, u, l) && OneMerge(s, u)
  }

  ghost predicate Avail(s: State, u: nat) {
    forall l :: Has(s, l, u) ==> RowOk(s, u, l)
  }

  // ---------- steps that leave the folder alone ----------

  predicate SamePhase(r: Location, q: Location) {
    && q.folder == r.folder && q.mergeStartedAt.Some? == r.mergeStartedAt.Some?
    && q.mergedAt.Some? == r.mergedAt.Some? && q.partsDeletedAt.Some? == r.partsDeletedAt.Some?
  }

  /** From s to m no location of folder u is added or changes its phase, and no object of it disappears. */
  ghost predicate Calm(s: State, m: State, u: nat) {
    && (forall l :: Has(m, l, u) ==> Has(s, l, u) && SamePhase(s.locations[l], m.locations[l]))
    && (u in s.merged ==> u in m.merged)
    && (u in s.frozen ==> u in m.frozen && m.frozen[u] == s.frozen[u])
    && (forall i :: i in PartsOf(s, u) ==> i in PartsOf(m, u))
    && m.actors == s.actors
  }

  /** Goroutine a becomes x, which merges in u only if a did. */
  ghost predicate Continues(s: State, a: nat, x: Actor, u: nat) {
    Merges(x, u) ==> a in s.actors && Merges(s.actors[a], u)
  }

  lemma SetParts(m: State, a: nat, x: Actor, u: nat)
    ensures PartsOf(Set(m, a, x), u) == PartsOf(m, u) && Set(m, a, x).locations == m.locations
    ensures Set(m, a, x).merged == m.merged && Set(m, a, x).frozen == m.frozen
    ensures Set(m, a, x).actors == m.actors[a := x]
  {
  }

  lemma SetMerges(s: State, m: State, a: nat, x: Actor, u: nat)
    requires OneMerge(s, u) && Continues(s, a, x, u) && m.actors == s.actors
    ensures OneMerge(Set(m, a, x), u)
  {
  }

  lemma OnlyKept(s: State, t: State, l: nat, u: nat)
    requires Only(s, l, u) && forall k :: Has(t, k, u) ==> Has(s, k, u)
    ensures Only(t, l, u)
  {
  }

  lemma CalmRow(s: State, m: State, u: nat, l: nat)
    requires RowOk(s, u, l) && Calm(s, m, u) && Has(m, l, u)
    ensures Only(m, l, u) && InPhase(m.locations[l]) && Stored(m, m.locations[l])
    ensures forall b :: b in s.actors ==> Fits(s.actors[b], u, l, m.locations[l], u in m.merged)
  {
    forall b | b in s.actors ensures Fits(s.actors[b], u, l, m.locations[l], u in m.merged) {
      assert Fits(s.actors[b], u, l, s.locations[l], u in s.merged);
    }
  }

  /** The last step of every case: the row and all others are fine, and so is x. */
  lemma Moved(s: State, m: State, a: nat, x: Actor, u: nat, l: nat)
    requires Has(m, l, u) && Only(m, l, u) && InPhase(m.locations[l]) && Stored(m, m.locations[l])
    requires OneMerge(s, u) && Continues(s, a, x, u) && m.actors == s.actors
    requires forall b :: b in s.actors && b != a ==> Fits(s.actors[b], u, l, m.locations[l], u in m.merged)
    requires Fits(x, u, l, m.locations[l], u in m.merged)
    ensures RowOk(Set(m, a, x), u, l)
  {
    hide Fits, OneMerge, Continues, InPhase, Set, PartsOf, Only;
    SetMerges(s, m, a, x, u);
    SetParts(m, a, x, u);
    forall k ensures Has(Set(m, a, x), k, u) ==> Has(m, k, u) {}
    OnlyKept(m, Set(m, a, x), l, u);
  }

  lemma CalmMove(s: State, m: State, a: nat, x: Actor, u: nat)
    requires Avail(s, u) && Calm(s, m, u) && Continues(s, a, x, u)
    requires forall l :: Has(m, l, u) && RowOk(s, u, l) ==> Fits(x, u, l, m.locations[l], u in m.merged)
    ensures Avail(Set(m, a, x), u)
  {
    hide RowOk, Fits, Continues, InPhase, Stored, OneMerge, Only, AllFit, PartsOf;
    forall l | Has(Set(m, a, x), l, u) ensures RowOk(Set(m, a, x), u, l) {
      assert Has(m, l, u) && Has(s, l, u);
      assert RowOk(s, u, l);
      CalmRow(s, m, u, l);
      RowMerges(s, u, l);
      Moved(s, m, a, x, u, l);
    }
  }

  lemma RowMerges(s: State, u: nat, l: nat)
    requires RowOk(s, u, l)
    ensures OneMerge(s, u)
  {
  }

  /** A statement outside of any goroutine modelled here. */
  lemma CalmKeeps(s: State, m: State, u: nat)
    requires Avail(s, u) && Calm(s, m, u)
    ensures Avail(m, u)
  {
    forall l | Has(m, l, u) ensures RowOk(m, u, l) {
      CalmRow(s, m, u, l);
    }
  }

  /** Goroutines that hold no location of the folder. */
  lemma IdleFits(x: Actor, u: nat, l: nat, r: Location, merged: bool)
    requires !Holds(x, u)
    ensures Fits(x, u, l, r, merged) && !Merges(x, u)
  {
  }

  lemma IdleMove(s: State, m: State, a: nat, x: Actor, u: nat)
    requires Avail(s, u) && Calm(s, m, u) && !Holds(x, u)
    ensures Avail(Set(m, a, x), u)
  {
    hide Avail, Calm, Fits, Holds, Merges, RowOk, Set;
    forall l | Has(m, l, u) ensures Fits(x, u, l, m.locations[l], u in m.merged) {
      IdleFits(x, u, l, m.locations[l], u in m.merged);
    }
    if exists l :: Has(m, l, u) {
      var l :| Has(m, l, u);
      IdleFits(x, u, l, m.locations[l], u in m.merged);
    }
    NotMerging(x, u);
    CalmMove(s, m, a, x, u);
  }

  lemma NotMerging(x: Actor, u: nat)
    requires !Holds(x, u)
    ensures !Merges(x, u)
  {
  }

  lemma SelfCalm(s: State, u: nat)
    ensures Calm(s, s, u)
  {
  }

  // ---------- the shared effects ----------

  lemma DropLocationCalm(s: State, l: nat, u: nat)
    ensures Calm(s, DropLocation(s, l), u)
  {
  }

  lemma SetLocationCalm(s: State, l: nat, row: Location -> Location, u: nat)
    requires l in s.locations ==> row(s.locations[l]).folder == s.locations[l].folder
    requires Has(s, l, u) ==> SamePhase(s.locations[l], row(s.locations[l]))
    ensures Calm(s, SetLocation(s, l, row), u)
  {
  }

  lemma OtherPartsCalm(s: State, v: nat, keep: set<int>, u: nat)
    requires v != u
    ensures Calm(s, KeepParts(s, v, keep), u)
  {
    assert PartsOf(KeepParts(s, v, keep), u) == PartsOf(s, u);
  }

  lemma OtherFolderCalm(s: State, v: nat, keep: set<int>, keepMerged: bool, u: nat)
    requires v != u
    ensures Calm(s, KeepFolder(s, v, keep, keepMerged), u)
  {
    assert PartsOf(KeepFolder(s, v, keep, keepMerged), u) == PartsOf(s, u);
  }

  lemma NoLocation(s: State, t: State, u: nat)
    requires t.locations == s.locations && forall l :: !Has(s, l, u)
    ensures Avail(t, u)
  {
    forall l ensures !Has(t, l, u) {
      assert !Has(s, l, u);
    }
  }

  /** A whole-folder delete does not harm a folder without a location. */
  lemma KeepFolderAvail(s: State, v: nat, keep: set<int>, keepMerged: bool, a: nat, x: Actor, u: nat)
    requires Avail(s, u) && !Holds(x, u) && (v == u ==> forall l :: !Has(s, l, u))
    ensures Avail(Set(KeepFolder(s, v, keep, keepMerged), a, x), u)
  {
    hide Avail, Calm, Holds, RestrictAt;
    if v == u {
      NoLocation(s, Set(KeepFolder(s, v, keep, keepMerged), a, x), u);
    } else {
      OtherFolderCalm(s, v, keep, keepMerged, u);
      IdleMove(s, KeepFolder(s, v, keep, keepMerged), a, x, u);
    }
  }

  // ---------- CreateUpload, UploadPart, streamPartsTo ----------

  lemma StatementCalm(s: State, step: Step, u: nat)
    requires Enabled(s, step) && (step.CreateUpload? || step.Touch? || step.DeleteEntry?)
    ensures Calm(s, Next(s, step), u)
  {
    if step.Touch? {
      SetLocationCalm(s, step.l, (r: Location) => r.(lastDownloadedAt := Some(step.now)), u);
    } else {
      assert PartsOf(Next(s, step), u) == PartsOf(s, u);
    }
  }

  lemma StartPartAvail(s: State, a: nat, v: nat, index: int, body: Bytes, u: nat)
    requires Avail(s, u) && Enabled(s, StartPart(a, v, index, body))
    ensures Avail(Next(s, StartPart(a, v, index, body)), u)
  {
    var m := s.(uploads := s.uploads[v := Started(s.uploads[v])]);
    var x := PartUpload(v, index, body, false);
    assert PartsOf(m, u) == PartsOf(s, u);
    assert Calm(s, m, u) && !Holds(x, u) && Next(s, StartPart(a, v, index, body)) == Set(m, a, x);
    hide *;
    IdleMove(s, m, a, x, u);
  }

  lemma PartCalm(s: State, a: nat, op: PartOp, u: nat)
    requires CanPart(s, a, op)
    ensures Calm(s, PartEffect(s, a, op), u)
  {
    if op.StorePart? {
      var p := s.actors[a];
      forall i | i in PartsOf(s, u) ensures i in PartsOf(PartEffect(s, a, op), u) {}
    } else {
      assert PartsOf(PartEffect(s, a, op), u) == PartsOf(s, u);
    }
  }

  lemma PartAvail(s: State, a: nat, op: PartOp, u: nat)
    requires Avail(s, u) && CanPart(s, a, op)
    ensures Avail(DoPart(s, a, op), u)
  {
    var x := if op.StorePart? then s.actors[a].(stored := true) else Ended;
    assert !Holds(x, u) && DoPart(s, a, op) == Set(PartEffect(s, a, op), a, x);
    PartCalm(s, a, op, u);
    IdleMove(s, PartEffect(s, a, op), a, x, u);
  }

  lemma CopyAvail(s: State, a: nat, op: CopyOp, u: nat)
    requires Avail(s, u) && a in s.actors && s.actors[a].Copier? && CanCopy(s.actors[a].stream, op)
    ensures Avail(DoCopyStep(s, a, op), u)
  {
    var x := Copier(DoCopy(s.actors[a].stream, PartsOf(s, s.actors[a].stream.folder), op));
    assert !Holds(x, u) && DoCopyStep(s, a, op) == Set(s, a, x);
    SelfCalm(s, u);
    IdleMove(s, s, a, x, u);
  }

  // ---------- calls that begin ----------

  lemma StartCalm(s: State, op: StartOp, u: nat)
    ensures Calm(s, StartEffect(s, op), u)
  {
    assert PartsOf(StartEffect(s, op), u) == PartsOf(s, u);
  }

  /** A goroutine that takes up a location finds it in the phase it acts on. */
  lemma StartFits(s: State, a: nat, op: StartOp, u: nat, l: nat)
    requires RowOk(s, u, l) && CanStart(s, a, op)
    ensures Fits(StartMove(s, a, op), u, l, s.locations[l], u in s.merged)
  {
    var x := StartMove(s, a, op);
    if Holds(x, u) {
      assert Has(s, HeldLocation(x), u);
    }
  }

  lemma StartIsMove(s: State, a: nat, op: StartOp, u: nat)
    requires CanStart(s, a, op)
    ensures DoStart(s, a, op) == Set(StartEffect(s, op), a, StartMove(s, a, op)) && !Merges(StartMove(s, a, op), u)
    ensures StartEffect(s, op).locations == s.locations && StartEffect(s, op).merged == s.merged
  {
  }

  lemma StartAvail(s: State, a: nat, op: StartOp, u: nat)
    requires Avail(s, u) && CanStart(s, a, op)
    ensures Avail(DoStart(s, a, op), u)
  {
    hide Avail, Calm, Fits, RowOk, CanStart, StartMove, StartEffect, DoStart, Merges, Set;
    var m, x := StartEffect(s, op), StartMove(s, a, op);
    StartIsMove(s, a, op, u);
    StartCalm(s, op, u);
    forall l | Has(m, l, u) && RowOk(s, u, l) ensures Fits(x, u, l, m.locations[l], u in m.merged) {
      StartFits(s, a, op, u, l);
    }
    CalmMove(s, m, a, x, u);
  }

  // ---------- CompleteUpload ----------

  lemma CountedAllParts(s: State, u: nat, n: nat)
    requires u in s.frozen && FrozenOk(s, u) && Finalized(s, u, n) && |PartsOf(s, u)| == n
    ensures AllParts(s, u)
  {
    var files := PartsOf(s, u).Keys;
    forall i | i in files ensures i in s.frozen[u].Keys { assert i in PartsOf(s, u); }
    SubsetSize(files, s.frozen[u].Keys);
    assert |files| == n && |s.frozen[u].Keys| == |s.frozen[u]|;
  }

  lemma NewRow(s: State, t: State, a: nat, l: nat, u: nat)
    requires CanFinalize(s, a, AddLocation(l)) && s.actors[a].upload == u && t == DoFinalize(s, a, AddLocation(l))
    requires AllParts(s, u) && (forall k :: !Has(s, k, u))
    requires forall b :: b in s.actors ==> !Holds(s.actors[b], u)
    ensures Avail(t, u)
  {
    assert PartsOf(t, u) == PartsOf(s, u);
    forall b | b in t.actors ensures !Holds(t.actors[b], u) {}
    forall k | Has(t, k, u) ensures k == l {
      assert k != l ==> Has(s, k, u);
    }
    assert Avail(t, u);
  }

  lemma AddLocationAvail(s: State, a: nat, l: nat, u: nat)
    requires ObjectsOk(s) && ActorsOk(s) && Avail(s, u) && CanFinalize(s, a, AddLocation(l))
    requires !LocatesAgain(s, FinalizeStep(a, AddLocation(l)), u)
    ensures Avail(DoFinalize(s, a, AddLocation(l)), u)
  {
    var f := s.actors[a];
    if f.upload == u {
      assert ActorOk(s, f) && FrozenOk(s, u);
      CountedAllParts(s, u, f.count);
      NewRow(s, DoFinalize(s, a, AddLocation(l)), a, l, u);
    } else {
      var m := FinalizeEffect(s, a, AddLocation(l));
      assert PartsOf(m, u) == PartsOf(s, u);
      AddedElsewhere(s, m, a, l, u);
      IdleMove(s, m, a, f.(step := FindExisting(l)), u);
    }
  }

  lemma AddedElsewhere(s: State, m: State, a: nat, l: nat, u: nat)
    requires CanFinalize(s, a, AddLocation(l)) && m == FinalizeEffect(s, a, AddLocation(l)) && s.actors[a].upload != u
    ensures Calm(s, m, u)
  {
    assert PartsOf(m, u) == PartsOf(s, u);
  }

  lemma PlainFinalizeCalm(s: State, a: nat, op: FinalizeOp, u: nat)
    requires CanFinalize(s, a, op) && !op.AddLocation? && !op.DropOldFiles?
    ensures Calm(s, FinalizeEffect(s, a, op), u)
  {
    if op.DropOldLocation? {
      DropLocationCalm(s, s.actors[a].step.oldLoc, u);
    } else {
      assert PartsOf(FinalizeEffect(s, a, op), u) == PartsOf(s, u);
    }
  }

  lemma FinalizeIsMove(s: State, a: nat, op: FinalizeOp, u: nat)
    requires CanFinalize(s, a, op)
    ensures DoFinalize(s, a, op) == Set(FinalizeEffect(s, a, op), a, FinalizeMove(s, a, op))
    ensures !Holds(FinalizeMove(s, a, op), u)
  {
  }

  lemma FinalizeAvail(s: State, a: nat, op: FinalizeOp, u: nat)
    requires Safe(s) && Avail(s, u) && CanFinalize(s, a, op) && !Harms(s, FinalizeStep(a, op), u)
    ensures Avail(DoFinalize(s, a, op), u)
  {
    hide Avail, DoFinalize, FinalizeMove, Holds, Calm, LocatesAgain;
    FinalizeIsMove(s, a, op, u);
    if op.AddLocation? {
      AddLocationAvail(s, a, op.l, u);
    } else if op.DropOldFiles? {
      KeepFolderAvail(s, s.actors[a].step.oldFolder, op.keep, op.keepMerged, a, FinalizeMove(s, a, op), u);
    } else {
      PlainFinalizeCalm(s, a, op, u);
      IdleMove(s, FinalizeEffect(s, a, op), a, FinalizeMove(s, a, op), u);
    }
  }

  // ---------- Download ----------

  lemma PlainDownloadFits(s: State, a: nat, op: DownloadOp, u: nat, l: nat)
    requires RowOk(s, u, l) && CanDownload(s, a, op) && !op.SpawnMerge? && !op.MarkMergeStarted?
    ensures Fits(DownloadMove(s, a, op), u, l, s.locations[l], u in s.merged)
  {
    assert Fits(s.actors[a], u, l, s.locations[l], u in s.merged);
  }

  lemma PlainDownloadIs(s: State, a: nat, op: DownloadOp, u: nat)
    requires CanDownload(s, a, op) && !op.SpawnMerge? && !op.MarkMergeStarted?
    ensures DoDownload(s, a, op) == Set(s, a, DownloadMove(s, a, op)) && !Merges(DownloadMove(s, a, op), u)
  {
  }

  lemma PlainDownloadAvail(s: State, a: nat, op: DownloadOp, u: nat)
    requires Avail(s, u) && CanDownload(s, a, op) && !op.SpawnMerge? && !op.MarkMergeStarted?
    ensures Avail(DoDownload(s, a, op), u)
  {
    hide Avail, Calm, Fits, RowOk, CanDownload, DownloadMove, DoDownload, Merges, Set;
    PlainDownloadIs(s, a, op, u);
    SelfCalm(s, u);
    forall l | Has(s, l, u) && RowOk(s, u, l)
      ensures Fits(DownloadMove(s, a, op), u, l, s.locations[l], u in s.merged)
    {
      PlainDownloadFits(s, a, op, u, l);
    }
    CalmMove(s, s, a, DownloadMove(s, a, op), u);
  }

  /** The state in which row l is replaced by q. */
  function WithRow(s: State, l: nat, q: Location): State {
    s.(locations := s.locations[l := q])
  }

  /** Row l becomes q, whose objects are there and which suits everybody else; goroutine a becomes x. */
  lemma RowMove(s: State, a: nat, x: Actor, u: nat, l: nat, q: Location)
    requires RowOk(s, u, l) && q.folder == u && InPhase(q) && Stored(s, q)
    requires forall b :: b in s.actors && b != a ==> Fits(s.actors[b], u, l, q, u in s.merged)
    requires Fits(x, u, l, q, u in s.merged)
    requires Merges(x, u) ==> forall b :: b in s.actors && b != a ==> !Merges(s.actors[b], u)
    ensures Avail(Set(WithRow(s, l, q), a, x), u)
  {
    var t := Set(WithRow(s, l, q), a, x);
    assert PartsOf(t, u) == PartsOf(s, u);
    RowMoved(s, t, a, x, u, l, q);
    forall k | Has(t, k, u) ensures k == l {}
    assert RowOk(t, u, l);
  }

  lemma RowMoved(s: State, t: State, a: nat, x: Actor, u: nat, l: nat, q: Location)
    requires RowOk(s, u, l) && q.folder == u && t == Set(WithRow(s, l, q), a, x)
    requires forall b :: b in s.actors && b != a ==> Fits(s.actors[b], u, l, q, u in s.merged)
    requires Fits(x, u, l, q, u in s.merged)
    requires Merges(x, u) ==> forall b :: b in s.actors && b != a ==> !Merges(s.actors[b], u)
    ensures Only(t, l, u) && AllFit(t, u, l) && OneMerge(t, u)
  {
    hide Fits, Merges;
    forall k | Has(t, k, u) ensures k == l {
      assert k != l ==> Has(s, k, u);
    }
  }

  /** The row with a new mark is what everybody else relied on. */
  lemma MarkFits(s: State, a: nat, u: nat, l: nat, now: int)
    requires RowOk(s, u, l) && s.locations[l].mergedAt.None?
    requires s.locations[l].mergeStartedAt.None? || !OtherMerges(s, a, u)
    ensures var q := s.locations[l].(mergeStartedAt := Some(now));
      forall b :: b in s.actors && b != a ==> Fits(s.actors[b], u, l, q, u in s.merged) && !Merges(s.actors[b], u)
  {
    forall b | b in s.actors && b != a
      ensures Fits(s.actors[b], u, l, s.locations[l].(mergeStartedAt := Some(now)), u in s.merged)
      ensures !Merges(s.actors[b], u)
    {
      assert Fits(s.actors[b], u, l, s.locations[l], u in s.merged);
    }
  }

  lemma MarkStartedAvail(s: State, a: nat, now: int, u: nat)
    requires ActorsOk(s) && Avail(s, u) && CanDownload(s, a, MarkMergeStarted(now))
    requires !OverlapsMerge(s, DownloadStep(a, MarkMergeStarted(now)), u)
    ensures Avail(DoDownload(s, a, MarkMergeStarted(now)), u)
  {
    var d, t := s.actors[a], DoDownload(s, a, MarkMergeStarted(now));
    var x := d.(at := Register);
    assert ActorOk(s, d);
    if Has(s, d.loc, u) {
      var q := s.locations[d.loc].(mergeStartedAt := Some(now));
      assert RowOk(s, u, d.loc) && t == Set(WithRow(s, d.loc, q), a, x);
      assert Fits(x, u, d.loc, q, u in s.merged) && Stored(s, q) && InPhase(q);
      hide Avail, Fits, Merges, OtherMerges, RowOk, Stored;
      MarkFits(s, a, u, d.loc, now);
      RowMove(s, a, x, u, d.loc, q);
    } else {
      var m := SetLocation(s, d.loc, (r: Location) => r.(mergeStartedAt := Some(now)));
      SetLocationCalm(s, d.loc, (r: Location) => r.(mergeStartedAt := Some(now)), u);
      MarkElsewhere(s, m, a, u, x);
    }
  }

  /** A goroutine that holds a location of folder u knows which one. */
  lemma HolderKnows(s: State, a: nat, u: nat)
    requires Avail(s, u) && a in s.actors && Holds(s.actors[a], u)
    ensures forall l :: Has(s, l, u) ==> l == HeldLocation(s.actors[a])
  {
    forall l | Has(s, l, u) ensures l == HeldLocation(s.actors[a]) {
      assert RowOk(s, u, l);
      assert Fits(s.actors[a], u, l, s.locations[l], u in s.merged);
    }
  }

  lemma HolderGone(s: State, t: State, a: nat, u: nat)
    requires Avail(s, u) && a in s.actors && Holds(s.actors[a], u) && !Has(s, HeldLocation(s.actors[a]), u)
    requires forall l :: Has(t, l, u) ==> Has(s, l, u)
    ensures Avail(t, u)
  {
    HolderKnows(s, a, u);
    assert forall l :: !Has(t, l, u);
  }

  lemma SetHas(m: State, a: nat, x: Actor, u: nat)
    ensures forall l :: Has(Set(m, a, x), l, u) ==> Has(m, l, u)
  {
  }

  lemma CalmHas(s: State, m: State, u: nat)
    requires Calm(s, m, u)
    ensures forall l :: Has(m, l, u) ==> Has(s, l, u)
  {
  }

  lemma MarkElsewhere(s: State, m: State, a: nat, u: nat, x: Actor)
    requires Avail(s, u) && Calm(s, m, u) && a in s.actors && s.actors[a].Downloader? && !Has(s, s.actors[a].loc, u)
    requires x == s.actors[a].(at := Register) && s.actors[a].at == MarkStarted
    ensures Avail(Set(m, a, x), u)
  {
    hide Avail, Calm, Set;
    CalmHas(s, m, u);
    if x.folder == u {
      SetHas(m, a, x, u);
      HolderGone(s, Set(m, a, x), a, u);
    } else {
      IdleMove(s, m, a, x, u);
    }
  }

  /** The download becomes the copier and hands its claim on the merge to the new worker. */
  lemma SpawnAvail(s: State, a: nat, w: nat, u: nat)
    requires Avail(s, u) && CanDownload(s, a, SpawnMerge(w))
    ensures Avail(DoDownload(s, a, SpawnMerge(w)), u)
  {
    var t := DoDownload(s, a, SpawnMerge(w));
    assert PartsOf(t, u) == PartsOf(s, u);
    forall k ensures Has(t, k, u) ==> Has(s, k, u) {}
    forall l | Has(t, l, u) ensures RowOk(t, u, l) {
      assert RowOk(s, u, l);
      OnlyKept(s, t, l, u);
      SpawnFits(s, t, a, w, u, l);
    }
  }

  lemma SpawnFits(s: State, t: State, a: nat, w: nat, u: nat, l: nat)
    requires RowOk(s, u, l) && CanDownload(s, a, SpawnMerge(w)) && t == DoDownload(s, a, SpawnMerge(w))
    ensures AllFit(t, u, l) && OneMerge(t, u)
  {
    assert Fits(s.actors[a], u, l, s.locations[l], u in s.merged);
    assert Merges(t.actors[w], u) ==> Merges(s.actors[a], u);
    forall b | b in t.actors ensures Fits(t.actors[b], u, l, t.locations[l], u in t.merged) {
      assert b != a && b != w ==> t.actors[b] == s.actors[b] && Fits(s.actors[b], u, l, s.locations[l], u in s.merged);
    }
  }

  lemma DownloadAvail(s: State, a: nat, op: DownloadOp, u: nat)
    requires Safe(s) && Avail(s, u) && CanDownload(s, a, op) && !Harms(s, DownloadStep(a, op), u)
    ensures Avail(DoDownload(s, a, op), u)
  {
    hide Avail, CanDownload, DoDownload, OverlapsMerge;
    match op
    case MarkMergeStarted(now) => MarkStartedAvail(s, a, now, u);
    case SpawnMerge(w) => SpawnAvail(s, a, w, u);
    case _ => PlainDownloadAvail(s, a, op, u);
  }

  // ---------- the merge worker ----------

  /** What the statement leaves in the row of the worker's location. */
  function WorkRow(r: Location, op: WorkerOp): Location {
    match op
    case ResetMerge(applied) => if applied then ResetRow(r) else r
    case SetMerged(now, applied, _) => if applied then r.(mergedAt := Some(now)) else r
    case SetPartsDeleted(now, applied) => if applied then r.(partsDeletedAt := Some(now)) else r
    case _ => r
  }

  lemma WorkLocations(s: State, w: nat, op: WorkerOp)
    requires CanWork(s, w, op)
    ensures var l := s.actors[w].loc;
      WorkEffect(s, w, op).locations == if l in s.locations
             then s.locations[l := WorkRow(s.locations[l], op)]
             else s.locations
  {
    var l := s.actors[w].loc;
    if l in s.locations {
      assert s.locations[l := s.locations[l]] == s.locations;
    }
  }

  lemma WorkObjects(s: State, w: nat, op: WorkerOp)
    requires CanWork(s, w, op) && !op.PutMerged? && !op.DropMergedParts?
    ensures var m := WorkEffect(s, w, op);
      m.actors == s.actors && m.merged == s.merged && m.parts == s.parts && m.frozen == s.frozen
  {
  }

  lemma WorkFits(s: State, w: nat, op: WorkerOp, u: nat, l: nat)
    requires RowOk(s, u, l) && CanWork(s, w, op) && s.actors[w].loc == l && Holds(s.actors[w], u)
    requires !op.PutMerged? && !op.DropMergedParts?
    ensures var q, x := WorkRow(s.locations[l], op), s.actors[w].(pc := WorkMove(op));
      && q.folder == u && InPhase(q) && Stored(s, q)
      && Fits(x, u, l, q, u in s.merged) && (Merges(x, u) ==> Merges(s.actors[w], u))
  {
    assert Fits(s.actors[w], u, l, s.locations[l], u in s.merged);
  }

  /** The row suits the others: they do not merge, the worker does; or it is merged already. */
  lemma WorkSuits(s: State, w: nat, op: WorkerOp, u: nat, l: nat, b: nat)
    requires RowOk(s, u, l) && CanWork(s, w, op) && s.actors[w].loc == l && Holds(s.actors[w], u)
    requires !op.PutMerged? && !op.DropMergedParts? && b in s.actors && b != w
    ensures Fits(s.actors[b], u, l, WorkRow(s.locations[l], op), u in s.merged)
    ensures Merges(s.actors[w].(pc := WorkMove(op)), u) ==> !Merges(s.actors[b], u)
  {
    assert Fits(s.actors[w], u, l, s.locations[l], u in s.merged);
    assert Fits(s.actors[b], u, l, s.locations[l], u in s.merged);
    assert Merges(s.actors[w], u) ==> !Merges(s.actors[b], u);
  }

  lemma WorkRowAvail(s: State, w: nat, op: WorkerOp, u: nat)
    requires Avail(s, u) && CanWork(s, w, op) && Holds(s.actors[w], u) && Has(s, s.actors[w].loc, u)
    requires !op.PutMerged? && !op.DropMergedParts?
    ensures Avail(DoWork(s, w, op), u)
  {
    var l, x := s.actors[w].loc, s.actors[w].(pc := WorkMove(op));
    var q := WorkRow(s.locations[l], op);
    assert RowOk(s, u, l);
    hide Avail, RowOk, Fits, Merges, Holds, CanWork, WorkRow, Stored;
    WorkLocations(s, w, op);
    WorkObjects(s, w, op);
    WorkFits(s, w, op, u, l);
    forall b | b in s.actors && b != w
      ensures Fits(s.actors[b], u, l, q, u in s.merged) && (Merges(x, u) ==> !Merges(s.actors[b], u))
    {
      WorkSuits(s, w, op, u, l, b);
    }
    RowMove(s, w, x, u, l, q);
    SameAvail(Set(WithRow(s, l, q), w, x), DoWork(s, w, op), u);
  }

  lemma SameAvail(s: State, t: State, u: nat)
    requires Avail(s, u) && t.locations == s.locations && t.merged == s.merged && t.parts == s.parts
    requires t.frozen == s.frozen && t.actors == s.actors
    ensures Avail(t, u)
  {
    assert PartsOf(t, u) == PartsOf(s, u);
    assert Calm(s, t, u);
    hide *;
    CalmKeeps(s, t, u);
  }

  /** A worker whose location is gone, or belongs to another folder. */
  lemma WorkElsewhere(s: State, w: nat, op: WorkerOp, u: nat)
    requires Avail(s, u) && CanWork(s, w, op) && !op.PutMerged? && !op.DropMergedParts?
    requires Placed(s, s.actors[w].loc, s.actors[w].folder)
    requires !Holds(s.actors[w], u) || !Has(s, s.actors[w].loc, u)
    ensures Avail(DoWork(s, w, op), u)
  {
    hide Avail, Calm, Holds, WorkEffect, WorkMove, Placed;
    var x := s.actors[w].(pc := WorkMove(op));
    WorkOthersCalm(s, w, op, u);
    if Holds(s.actors[w], u) {
      WorkHasLess(s, w, op, u);
      HolderGone(s, DoWork(s, w, op), w, u);
    } else {
      WorkStops(s, w, op, u);
      IdleMove(s, WorkEffect(s, w, op), w, x, u);
    }
  }

  lemma WorkHasLess(s: State, w: nat, op: WorkerOp, u: nat)
    requires CanWork(s, w, op) && Calm(s, WorkEffect(s, w, op), u)
    ensures forall l :: Has(DoWork(s, w, op), l, u) ==> Has(s, l, u)
  {
    hide WorkEffect;
    forall l ensures Has(DoWork(s, w, op), l, u) ==> Has(WorkEffect(s, w, op), l, u) {}
  }

  lemma WorkStops(s: State, w: nat, op: WorkerOp, u: nat)
    requires CanWork(s, w, op) && !Holds(s.actors[w], u)
    ensures !Holds(s.actors[w].(pc := WorkMove(op)), u)
  {
  }

  lemma WorkOthersCalm(s: State, w: nat, op: WorkerOp, u: nat)
    requires CanWork(s, w, op) && !op.PutMerged? && !op.DropMergedParts?
    requires Placed(s, s.actors[w].loc, s.actors[w].folder)
    requires !Holds(s.actors[w], u) || !Has(s, s.actors[w].loc, u)
    ensures Calm(s, WorkEffect(s, w, op), u)
  {
    var k := s.actors[w];
    match op
    case ResetMerge(_) => SetLocationCalm(s, k.loc, ResetRow, u); SelfCalm(s, u);
    case SetMerged(now, _, _) =>
      SetLocationCalm(s, k.loc, (r: Location) => r.(mergedAt := Some(now)), u);
      SelfCalm(s, u);
    case SetPartsDeleted(now, _) =>
      SetLocationCalm(s, k.loc, (r: Location) => r.(partsDeletedAt := Some(now)), u);
      SelfCalm(s, u);
    case DeregisterWorker => RegistryCalm(s, s.merges - {k.loc}, u);
    case _ => SelfCalm(s, u);
  }

  lemma RegistryCalm(s: State, merges: map<nat, nat>, u: nat)
    ensures Calm(s, s.(merges := merges), u)
  {
    assert PartsOf(s.(merges := merges), u) == PartsOf(s, u);
  }

  lemma PutMergedFits(s: State, w: nat, acked: bool, u: nat, l: nat)
    requires RowOk(s, u, l) && CanWork(s, w, PutMerged(acked))
    ensures var x := s.actors[w].(pc := WorkMove(PutMerged(acked)));
      Fits(x, u, l, s.locations[l], u in WorkEffect(s, w, PutMerged(acked)).merged)
  {
    assert Fits(s.actors[w], u, l, s.locations[l], u in s.merged);
  }

  lemma PutMergedIs(s: State, w: nat, acked: bool, u: nat)
    requires CanWork(s, w, PutMerged(acked))
    ensures var m, x := WorkEffect(s, w, PutMerged(acked)), s.actors[w].(pc := WorkMove(PutMerged(acked)));
      && DoWork(s, w, PutMerged(acked)) == Set(m, w, x) && Calm(s, m, u) && m.locations == s.locations
      && Continues(s, w, x, u)
  {
    assert PartsOf(WorkEffect(s, w, PutMerged(acked)), u) == PartsOf(s, u);
  }

  lemma PutMergedAvail(s: State, w: nat, acked: bool, u: nat)
    requires Avail(s, u) && CanWork(s, w, PutMerged(acked))
    ensures Avail(DoWork(s, w, PutMerged(acked)), u)
  {
    hide Avail, RowOk, Fits, WorkEffect, DoWork, Calm, Continues, WorkMove;
    var m, x := WorkEffect(s, w, PutMerged(acked)), s.actors[w].(pc := WorkMove(PutMerged(acked)));
    PutMergedIs(s, w, acked, u);
    forall l | Has(m, l, u) && RowOk(s, u, l) ensures Fits(x, u, l, m.locations[l], u in m.merged) {
      PutMergedFits(s, w, acked, u, l);
    }
    CalmMove(s, m, w, x, u);
  }

  /** The parts of a merged location may go. */
  lemma DropPartsAvail(s: State, v: nat, keep: set<int>, a: nat, x: Actor, u: nat)
    requires Avail(s, u) && Continues(s, a, x, u)
    requires v == u ==> forall l :: Has(s, l, u) && RowOk(s, u, l) ==> s.locations[l].mergedAt.Some?
    requires forall l :: Has(s, l, u) && RowOk(s, u, l) ==> Fits(x, u, l, s.locations[l], u in s.merged)
    ensures Avail(Set(KeepParts(s, v, keep), a, x), u)
  {
    var m := KeepParts(s, v, keep);
    if v != u {
      OtherPartsCalm(s, v, keep, u);
      CalmMove(s, m, a, x, u);
    } else {
      forall l | Has(Set(m, a, x), l, u) ensures RowOk(Set(m, a, x), u, l) {
        assert Has(s, l, u) && RowOk(s, u, l);
        RowMerges(s, u, l);
        DroppedMoved(s, m, a, x, u, l);
      }
    }
  }

  lemma DroppedMoved(s: State, m: State, a: nat, x: Actor, u: nat, l: nat)
    requires RowOk(s, u, l) && s.locations[l].mergedAt.Some? && Continues(s, a, x, u)
    requires m.locations == s.locations && m.merged == s.merged && m.frozen == s.frozen && m.actors == s.actors
    requires Fits(x, u, l, s.locations[l], u in s.merged)
    ensures RowOk(Set(m, a, x), u, l)
  {
    hide Fits, Continues, Only;
    forall k ensures Has(m, k, u) ==> Has(s, k, u) {}
    OnlyKept(s, m, l, u);
    Moved(s, m, a, x, u, l);
  }

  lemma DropMergedFacts(s: State, w: nat, op: WorkerOp, u: nat)
    requires Avail(s, u) && CanWork(s, w, op) && op.DropMergedParts?
    ensures var v, x := s.actors[w].folder, s.actors[w].(pc := WorkMove(op));
      && DoWork(s, w, op) == Set(KeepParts(s, v, op.keep), w, x) && !Merges(x, u)
      && (v == u ==> forall l :: Has(s, l, u) && RowOk(s, u, l) ==> s.locations[l].mergedAt.Some?)
      && (forall l :: Has(s, l, u) && RowOk(s, u, l) ==> Fits(x, u, l, s.locations[l], u in s.merged))
  {
    forall l | Has(s, l, u) && RowOk(s, u, l)
      ensures s.actors[w].folder == u ==> s.locations[l].mergedAt.Some?
      ensures Fits(s.actors[w].(pc := WorkMove(op)), u, l, s.locations[l], u in s.merged)
    {
      assert Fits(s.actors[w], u, l, s.locations[l], u in s.merged);
    }
  }

  lemma WorkAvail(s: State, w: nat, op: WorkerOp, u: nat)
    requires Safe(s) && Avail(s, u) && CanWork(s, w, op)
    ensures Avail(DoWork(s, w, op), u)
  {
    WorkerPlaced(s, w, op);
    hide Safe, Avail, DoWork, Holds, Fits, RowOk, Placed;
    match op
    case PutMerged(acked) => PutMergedAvail(s, w, acked, u);
    case DropMergedParts(keep, _) =>
      DropMergedFacts(s, w, op, u);
      DropPartsAvail(s, s.actors[w].folder, keep, w, s.actors[w].(pc := WorkMove(op)), u);
    case _ =>
      if Holds(s.actors[w], u) && Has(s, s.actors[w].loc, u) {
        WorkRowAvail(s, w, op, u);
      } else {
        WorkElsewhere(s, w, op, u);
      }
  }

  lemma WorkerPlaced(s: State, w: nat, op: WorkerOp)
    requires Safe(s) && CanWork(s, w, op)
    ensures w in s.actors && s.actors[w].Worker? && Placed(s, s.actors[w].loc, s.actors[w].folder)
  {
    assert ActorOk(s, s.actors[w]);
  }

  // ---------- cleanup tasks ----------

  lemma CleanMarkAvail(s: State, a: nat, now: int, acked: bool, u: nat)
    requires ActorsOk(s) && Avail(s, u) && CanSweep(s, a, CleanMark(now, acked))
    ensures Avail(DoSweep(s, a, CleanMark(now, acked)), u)
  {
    var op := CleanMark(now, acked);
    var k, x := s.actors[a], SweepMove(s.actors[a], op);
    assert ActorOk(s, k);
    if !acked {
      assert !Holds(x, u) && DoSweep(s, a, op) == Set(s, a, x);
      SelfCalm(s, u);
      IdleMove(s, s, a, x, u);
    } else if Has(s, k.loc, u) {
      var q := s.locations[k.loc].(partsDeletedAt := Some(now));
      assert RowOk(s, u, k.loc) && Fits(k, u, k.loc, s.locations[k.loc], u in s.merged);
      assert DoSweep(s, a, op) == Set(WithRow(s, k.loc, q), a, x);
      CleanFits(s, a, u, k.loc, now);
      hide Avail, Fits, RowOk;
      RowMove(s, a, x, u, k.loc, q);
    } else {
      var m := SetLocation(s, k.loc, (r: Location) => r.(partsDeletedAt := Some(now)));
      SetLocationCalm(s, k.loc, (r: Location) => r.(partsDeletedAt := Some(now)), u);
      CleanElsewhere(s, m, a, u, x);
    }
  }

  lemma CleanElsewhere(s: State, m: State, a: nat, u: nat, x: Actor)
    requires Avail(s, u) && Calm(s, m, u) && a in s.actors && s.actors[a].PartsCleaner? && !Has(s, s.actors[a].loc, u)
    requires x.PartsCleaner? && x.folder == s.actors[a].folder
    ensures Avail(Set(m, a, x), u)
  {
    hide Avail, Calm, Set;
    CalmHas(s, m, u);
    if x.folder == u {
      SetHas(m, a, x, u);
      HolderGone(s, Set(m, a, x), a, u);
    } else {
      IdleMove(s, m, a, x, u);
    }
  }

  lemma CleanFits(s: State, a: nat, u: nat, l: nat, now: int)
    requires RowOk(s, u, l) && s.locations[l].mergedAt.Some? && a in s.actors && s.actors[a].PartsCleaner?
    requires s.actors[a].loc == l
    ensures var q := s.locations[l].(partsDeletedAt := Some(now));
      && q.folder == u && InPhase(q) && Stored(s, q)
      && (forall b :: b in s.actors ==> Fits(s.actors[b], u, l, q, u in s.merged))
      && Fits(s.actors[a].(cleaning := DropFiles), u, l, q, u in s.merged)
  {
    forall b | b in s.actors
      ensures Fits(s.actors[b], u, l, s.locations[l].(partsDeletedAt := Some(now)), u in s.merged)
    {
      assert Fits(s.actors[b], u, l, s.locations[l], u in s.merged);
    }
  }

  lemma CleanDropFacts(s: State, a: nat, op: SweepOp, u: nat)
    requires Avail(s, u) && CanSweep(s, a, op) && op.CleanDrop?
    ensures var v, x := s.actors[a].folder, SweepMove(s.actors[a], op);
      && DoSweep(s, a, op) == Set(KeepParts(s, v, op.keep), a, x) && !Merges(x, u)
      && (v == u ==> forall l :: Has(s, l, u) && RowOk(s, u, l) ==> s.locations[l].mergedAt.Some?)
      && (forall l :: Has(s, l, u) && RowOk(s, u, l) ==> Fits(x, u, l, s.locations[l], u in s.merged))
  {
    forall l | Has(s, l, u) && RowOk(s, u, l)
      ensures s.actors[a].folder == u ==> s.locations[l].mergedAt.Some?
      ensures Fits(SweepMove(s.actors[a], op), u, l, s.locations[l], u in s.merged)
    {
      assert Fits(s.actors[a], u, l, s.locations[l], u in s.merged);
    }
  }

  lemma SweepRowsCalm(s: State, a: nat, op: SweepOp, u: nat)
    requires CanSweep(s, a, op) && (op.SweepRow? || op.SweepUploadRow?)
    ensures DoSweep(s, a, op) == Set(SweepEffect(s, a, op), a, SweepMove(s.actors[a], op))
    ensures Calm(s, SweepEffect(s, a, op), u) && !Holds(SweepMove(s.actors[a], op), u)
  {
    hide Calm, DropLocation, DropUploadRow;
    SelfCalm(s, u);
    if op.SweepRow? {
      DropLocationCalm(s, s.actors[a].loc, u);
    } else {
      DropUploadCalm(s, s.actors[a].upload, u);
    }
  }

  lemma DropUploadCalm(s: State, v: nat, u: nat)
    ensures Calm(s, DropUploadRow(s, v), u)
  {
    assert PartsOf(DropUploadRow(s, v), u) == PartsOf(s, u);
  }

  lemma SweepFolderAvail(s: State, a: nat, op: SweepOp, u: nat)
    requires Avail(s, u) && CanSweep(s, a, op) && (op.SweepFolder? || op.SweepUploadFolder?)
    requires !DropsFolder(s, SweepStep(a, op), u)
    ensures Avail(DoSweep(s, a, op), u)
  {
    var k, x := s.actors[a], SweepMove(s.actors[a], op);
    var v := if k.Sweeper? then k.folder else k.upload;
    assert !Holds(x, u) && DoSweep(s, a, op) == Set(KeepFolder(s, v, op.keep, op.keepMerged), a, x);
    KeepFolderAvail(s, v, op.keep, op.keepMerged, a, x, u);
  }

  lemma SweepAvail(s: State, a: nat, op: SweepOp, u: nat)
    requires Safe(s) && Avail(s, u) && CanSweep(s, a, op) && !Harms(s, SweepStep(a, op), u)
    ensures Avail(DoSweep(s, a, op), u)
  {
    hide Avail, DoSweep, SweepEffect, DropsFolder, Calm, Fits, RowOk, Merges;
    match op
    case SweepFolder(_, _, _) => SweepFolderAvail(s, a, op, u);
    case SweepUploadFolder(_, _, _) => SweepFolderAvail(s, a, op, u);
    case CleanMark(now, acked) => CleanMarkAvail(s, a, now, acked, u);
    case CleanDrop(keep, _) =>
      CleanDropFacts(s, a, op, u);
      DropPartsAvail(s, s.actors[a].folder, keep, a, SweepMove(s.actors[a], op), u);
    case _ =>
      SweepRowsCalm(s, a, op, u);
      IdleMove(s, SweepEffect(s, a, op), a, SweepMove(s.actors[a], op), u);
  }

  /** A stalled merge that nobody is working on may be reset. */
  lemma ResetStalledAvail(s: State, before: int, u: nat)
    requires Avail(s, u) && !ResetsLiveMerge(s, ResetStalled(before), u)
    ensures Avail(ResetRows(s, before), u)
  {
    var m := ResetRows(s, before);
    assert PartsOf(m, u) == PartsOf(s, u);
    forall k ensures Has(m, k, u) ==> Has(s, k, u) {}
    forall l | Has(m, l, u) ensures RowOk(m, u, l) {
      assert Has(s, l, u) && RowOk(s, u, l);
      OnlyKept(s, m, l, u);
      ResetFits(s, before, u, l);
    }
  }

  lemma ResetFits(s: State, before: int, u: nat, l: nat)
    requires RowOk(s, u, l) && !ResetsLiveMerge(s, ResetStalled(before), u)
    ensures var q := if Stalled(s.locations[l], before) then ResetRow(s.locations[l]) else s.locations[l];
      InPhase(q) && Stored(s, q) && forall b :: b in s.actors ==> Fits(s.actors[b], u, l, q, u in s.merged)
  {
    var q := if Stalled(s.locations[l], before) then ResetRow(s.locations[l]) else s.locations[l];
    forall b | b in s.actors ensures Fits(s.actors[b], u, l, q, u in s.merged) {
      assert Fits(s.actors[b], u, l, s.locations[l], u in s.merged);
    }
  }

  // ---------- every step, every run ----------

  lemma StatementOf(s: State, step: Step)
    requires Enabled(s, step)
    ensures step.ResetStalled? ==> Next(s, step) == ResetRows(s, step.before)
  {
  }

  lemma HarmsOf(s: State, step: Step, u: nat)
    requires !Harms(s, step, u)
    ensures step.DownloadStep? ==> !Harms(s, DownloadStep(step.a, step.download), u)
    ensures step.FinalizeStep? ==> !Harms(s, FinalizeStep(step.a, step.finalize), u)
    ensures step.SweepStep? ==> !Harms(s, SweepStep(step.a, step.sweep), u)
    ensures step.ResetStalled? ==> !ResetsLiveMerge(s, ResetStalled(step.before), u)
  {
  }

  /** Every step that does not harm folder u keeps its archive available. */
  lemma StepKeepsAvail(s: State, step: Step, u: nat)
    requires Safe(s) && Avail(s, u) && Enabled(s, step) && !Harms(s, step, u)
    ensures Avail(Next(s, step), u)
  {
    hide *;
    NextOf(s, step);
    StatementOf(s, step);
    HarmsOf(s, step, u);
    match step
    case StartStep(a, op) => StartAvail(s, a, op, u);
    case PartStep(a, op) => PartAvail(s, a, op, u);
    case FinalizeStep(a, op) => FinalizeAvail(s, a, op, u);
    case DownloadStep(a, op) => DownloadAvail(s, a, op, u);
    case CopyStep(a, op) => CopyAvail(s, a, op, u);
    case WorkerStep(a, op) => WorkAvail(s, a, op, u);
    case SweepStep(a, op) => SweepAvail(s, a, op, u);
    case StartPart(a, v, index, body) => StartPartAvail(s, a, v, index, body, u);
    case ResetStalled(before) => ResetStalledAvail(s, before, u);
    case _ =>
      StatementCalm(s, step, u);
      CalmKeeps(s, Next(s, step), u);
  }

  /** A run in which nothing harms folder u. */
  ghost predicate QuietRun(s: State, run: seq<Step>, u: nat)
    decreases |run|
  {
    run == [] || (Enabled(s, run[0]) && !Harms(s, run[0], u) && QuietRun(Next(s, run[0]), run[1..], u))
  }

  lemma {:induction false} RunKeepsAvail(s: State, run: seq<Step>, u: nat)
    requires Safe(s) && Avail(s, u) && QuietRun(s, run, u)
    ensures ValidRun(s, run) && Safe(After(s, run)) && Avail(After(s, run), u)
    decreases |run|
  {
    if run != [] {
      StepKeepsSafe(s, run[0]);
      StepKeepsAvail(s, run[0], u);
      hide Safe, Avail, Harms, Enabled, Next;
      RunKeepsAvail(Next(s, run[0]), run[1..], u);
    }
  }

  /** Some interleaving leads from s to t and does not harm folder u. */
  ghost predicate LeadsQuietly(s: State, t: State, u: nat) {
    exists run :: QuietRun(s, run, u) && ValidRun(s, run) && After(s, run) == t
  }

  /** States some interleaving leads to that never harmed folder u. */
  ghost predicate ReachableQuietly(s: State, u: nat) {
    LeadsQuietly(Init(), s, u)
  }

  lemma QuietlyIsReachable(s: State, u: nat)
    requires ReachableQuietly(s, u)
    ensures Reachable(s)
  {
  }

  lemma LeadsKeepsAvail(s: State, t: State, u: nat)
    requires Safe(s) && Avail(s, u) && LeadsQuietly(s, t, u)
    ensures Safe(t) && Avail(t, u)
  {
    var run :| QuietRun(s, run, u) && ValidRun(s, run) && After(s, run) == t;
    RunKeepsAvail(s, run, u);
  }

  lemma ReachableAvail(s: State, u: nat)
    requires ReachableQuietly(s, u)
    ensures Safe(s) && Avail(s, u)
  {
    assert Safe(Init()) && Avail(Init(), u);
    LeadsKeepsAvail(Init(), s, u);
  }

  // ---------- availability ----------

  ghost predicate ExactlyParts(stored: map<int, Bytes>, parts: map<int, Bytes>) {
    forall i :: (i in stored <==> i in parts) && (i in parts ==> stored[i] == parts[i])
  }

  /** Location row r can be read from exactly the objects its timestamps point a reader to: before the merge
      is marked all of its partCount parts are there, with the finalized bytes; afterwards the merged object
      is, holding all of them in order. */
  ghost predicate Readable(s: State, r: Location) {
    && r.folder in s.frozen && r.partCount == |s.frozen[r.folder]|
    && (r.mergedAt.None? ==> ExactlyParts(PartsOf(s, r.folder), s.frozen[r.folder]))
    && (r.mergedAt.Some? ==> r.folder in s.merged && CompleteCopy(s, r.folder, s.merged[r.folder]))
  }

  /** Availability: a location can be read, unless an event of `Harms` hit its own folder. */
  lemma Availability(s: State, l: nat)
    requires l in s.locations && ReachableQuietly(s, s.locations[l].folder)
    ensures Readable(s, s.locations[l]) && InPhase(s.locations[l])
  {
    hide ReachableQuietly, Safe, Avail, Readable, InPhase;
    ReachableAvail(s, s.locations[l].folder);
    SafeIsReadable(s, l);
  }

  lemma GoodIsReadable(s: State, r: Location)
    requires Stored(s, r) && Finalized(s, r.folder, r.partCount) && FrozenOk(s, r.folder)
    ensures Readable(s, r)
  {
  }

  lemma SafeIsReadable(s: State, l: nat)
    requires Safe(s) && l in s.locations && Avail(s, s.locations[l].folder)
    ensures Readable(s, s.locations[l]) && InPhase(s.locations[l])
  {
    hide Readable;
    var u := s.locations[l].folder;
    assert Has(s, l, u) && RowOk(s, u, l) && Finalized(s, u, s.locations[l].partCount);
    assert FrozenOk(s, u);
    GoodIsReadable(s, s.locations[l]);
  }

  /** Replacing an entry is gap-free for readers too: at every statement of a finalize each existing entry keeps
      its id and key and points to a location that can be read, if nothing harmed the location's folder. */
  lemma ReplaceKeepsReadable(s: State, a: nat, op: FinalizeOp, e: nat, u: nat)
    requires CanFinalize(s, a, op) && e in s.entries && ReachableQuietly(s, u) && !Harms(s, FinalizeStep(a, op), u)
    ensures var t := DoFinalize(s, a, op);
      && e in t.entries && t.entries[e].key == s.entries[e].key && t.entries[e].location in t.locations
      && (t.locations[t.entries[e].location].folder == u ==> Readable(t, t.locations[t.entries[e].location]))
  {
    hide Safe, Avail, CanFinalize, DoFinalize, Readable, Refs, Harms, ReachableQuietly, Reachable;
    ReachableAvail(s, u);
    QuietlyIsReachable(s, u);
    ReplaceIsGapFree(s, a, op, e);
    FinalizeIsStep(s, a, op);
    StepKeepsSafe(s, FinalizeStep(a, op));
    StepKeepsAvail(s, FinalizeStep(a, op), u);
    var t := DoFinalize(s, a, op);
    if t.locations[t.entries[e].location].folder == u {
      SafeIsReadable(t, t.entries[e].location);
    }
  }

  lemma FinalizeIsStep(s: State, a: nat, op: FinalizeOp)
    requires CanFinalize(s, a, op)
    ensures Enabled(s, FinalizeStep(a, op)) && Next(s, FinalizeStep(a, op)) == DoFinalize(s, a, op)
  {
  }

  /** A download that found its location merged finds the merged object, as long as the row exists; so it is
      reported stale only if the location was deleted meanwhile. */
  lemma MergedReadNeverStale(s: State, a: nat)
    requires CanDownload(s, a, OpenObject) && s.actors[a].loc in s.locations && ReachableQuietly(s, s.actors[a].folder)
    ensures DoDownload(s, a, OpenObject).actors[a].MergedReader?
  {
    var d := s.actors[a];
    ReachableAvail(s, d.folder);
    assert ActorOk(s, d);
    assert Has(s, d.loc, d.folder) && RowOk(s, d.folder, d.loc);
    assert Fits(d, d.folder, d.loc, s.locations[d.loc], d.folder in s.merged);
  }

  /** A download that found its location unmerged finds all parts, unless another download has merged them
      meanwhile: then, the row being merged, it may be reported stale although the archive is there. */
  lemma PartsReadStaleOnlyIfMerged(s: State, a: nat)
    requires CanDownload(s, a, CheckAllParts) && s.actors[a].loc in s.locations
    requires ReachableQuietly(s, s.actors[a].folder)
    requires DoDownload(s, a, CheckAllParts).actors[a] == Ended
    ensures s.locations[s.actors[a].loc].mergedAt.Some?
  {
    var d := s.actors[a];
    ReachableAvail(s, d.folder);
    assert ActorOk(s, d) && Finalized(s, d.folder, d.partCount) && s.locations[d.loc].folder == d.folder;
    Availability(s, d.loc);
    hide Safe, Avail, ActorOk, ReachableQuietly;
    if s.locations[d.loc].mergedAt.None? { ExactSize(PartsOf(s, d.folder), s.frozen[d.folder]); }
  }

  lemma ExactSize(stored: map<int, Bytes>, parts: map<int, Bytes>)
    requires ExactlyParts(stored, parts)
    ensures |stored| == |parts|
  {
    forall i | i in stored.Keys ensures i in parts.Keys { assert i in stored; }
    forall i | i in parts.Keys ensures i in stored.Keys { assert i in parts; }
    assert stored.Keys == parts.Keys;
    assert |stored| == |stored.Keys| && |parts| == |parts.Keys|;
  }

  // ---------- the phase automaton ----------

  datatype Phase = Unmerged | InProgress | Merged | PartsDropped | Improper

  function PhaseOf(r: Location): Phase {
    match (r.mergeStartedAt, r.mergedAt, r.partsDeletedAt)
    case (None, None, None) => Unmerged
    case (Some(_), None, None) => InProgress
    case (Some(_), Some(_), None) => Merged
    case (Some(_), Some(_), Some(_)) => PartsDropped
    case _ => Improper
  }

  /** Forward by one, or back from a merge that failed or stalled. */
  predicate MayFollow(p: Phase, q: Phase) {
    || q == p
    || (p == Unmerged && q == InProgress)
    || (p == InProgress && (q == Merged || q == Unmerged))
    || (p == Merged && q == PartsDropped)
  }

  predicate ProperStep(r: Location, q: Location) {
    PhaseOf(r) != Improper && PhaseOf(q) != Improper && MayFollow(PhaseOf(r), PhaseOf(q))
  }

  /** Only the four proper phases occur, and they follow one another as in MayFollow: the only way back is
      from InProgress, and a merged location never loses mergedAt. */
  lemma PhaseAutomaton(s: State, step: Step, l: nat)
    requires l in s.locations && ReachableQuietly(s, s.locations[l].folder)
    requires Enabled(s, step) && !Harms(s, step, s.locations[l].folder) && l in Next(s, step).locations
    ensures ProperStep(s.locations[l], Next(s, step).locations[l])
  {
    var u := s.locations[l].folder;
    ReachableAvail(s, u);
    assert Has(s, l, u) && RowOk(s, u, l) && LocationsOk(s) && ActorsOk(s);
    hide *;
    PhaseStep(s, step, l, u);
  }

  lemma PhaseStep(s: State, step: Step, l: nat, u: nat)
    requires Enabled(s, step) && !Harms(s, step, u) && RowOk(s, u, l) && l in Next(s, step).locations
    requires LocationsOk(s) && ActorsOk(s)
    ensures l in s.locations && ProperStep(s.locations[l], Next(s, step).locations[l])
  {
    hide *;
    NextOf(s, step);
    HarmsOf(s, step, u);
    RowPhase(s, u, l);
    match step
    case WorkerStep(w, op) => WorkPhase(s, w, op, u, l);
    case DownloadStep(a, op) => DownloadPhase(s, a, op, u, l);
    case SweepStep(a, op) => SweepPhase(s, a, op, u, l);
    case FinalizeStep(a, op) => FinalizePhase(s, a, op, l);
    case StartStep(a, op) => StartPhase(s, a, op, l);
    case PartStep(a, op) => PartPhase(s, a, op, l);
    case CopyStep(a, op) => CopyPhase(s, a, op, l);
    case _ => StatementPhase(s, step, l);
  }

  lemma RowPhase(s: State, u: nat, l: nat)
    requires RowOk(s, u, l)
    ensures l in s.locations && s.locations[l].folder == u && InPhase(s.locations[l])
  {
  }

  lemma StartPhase(s: State, a: nat, op: StartOp, l: nat)
    requires CanStart(s, a, op) && l in s.locations && InPhase(s.locations[l])
    ensures l in DoStart(s, a, op).locations && ProperStep(s.locations[l], DoStart(s, a, op).locations[l])
  {
    SamePhaseFollows(s.locations[l], s.locations[l]);
  }

  lemma PartPhase(s: State, a: nat, op: PartOp, l: nat)
    requires CanPart(s, a, op) && l in s.locations && InPhase(s.locations[l])
    ensures l in DoPart(s, a, op).locations && ProperStep(s.locations[l], DoPart(s, a, op).locations[l])
  {
    SamePhaseFollows(s.locations[l], s.locations[l]);
  }

  lemma CopyPhase(s: State, a: nat, op: CopyOp, l: nat)
    requires a in s.actors && s.actors[a].Copier? && CanCopy(s.actors[a].stream, op)
    requires l in s.locations && InPhase(s.locations[l])
    ensures l in DoCopyStep(s, a, op).locations && ProperStep(s.locations[l], DoCopyStep(s, a, op).locations[l])
  {
    SamePhaseFollows(s.locations[l], s.locations[l]);
  }

  lemma SamePhaseFollows(r: Location, q: Location)
    requires InPhase(r) && SamePhase(r, q)
    ensures ProperStep(r, q)
  {
  }

  lemma WorkPhase(s: State, w: nat, op: WorkerOp, u: nat, l: nat)
    requires CanWork(s, w, op) && RowOk(s, u, l) && ActorsOk(s) && l in DoWork(s, w, op).locations
    ensures ProperStep(s.locations[l], DoWork(s, w, op).locations[l])
  {
    hide DoWork, WorkRow, ProperStep, InPhase, AllFit, OneMerge, Only, Stored;
    RowPhase(s, u, l);
    WorkRows(s, w, op, l);
    if s.actors[w].loc == l {
      assert ActorOk(s, s.actors[w]);
      WorkRowPhase(s, w, op, u, l);
    } else {
      SamePhaseFollows(s.locations[l], s.locations[l]);
    }
  }

  lemma WorkRowPhase(s: State, w: nat, op: WorkerOp, u: nat, l: nat)
    requires CanWork(s, w, op) && RowOk(s, u, l) && s.actors[w].folder == u
    ensures ProperStep(s.locations[l], WorkRow(s.locations[l], op))
  {
    assert Fits(s.actors[w], u, l, s.locations[l], u in s.merged);
  }

  lemma WorkRows(s: State, w: nat, op: WorkerOp, l: nat)
    requires CanWork(s, w, op) && l in s.locations
    ensures l in DoWork(s, w, op).locations && w in s.actors && s.actors[w].Worker?
    ensures DoWork(s, w, op).locations[l]
           == if s.actors[w].loc == l then WorkRow(s.locations[l], op) else s.locations[l]
  {
    hide WorkEffect, WorkRow;
    WorkLocations(s, w, op);
  }

  lemma DownloadPhase(s: State, a: nat, op: DownloadOp, u: nat, l: nat)
    requires CanDownload(s, a, op) && !Harms(s, DownloadStep(a, op), u) && RowOk(s, u, l)
    requires l in DoDownload(s, a, op).locations
    ensures ProperStep(s.locations[l], DoDownload(s, a, op).locations[l])
  {
    hide DropsFolder, LocatesAgain, ResetsLiveMerge, DoDownload, ProperStep;
    DownloadRow(s, a, op, l);
    if op.MarkMergeStarted? && s.actors[a].loc == l {
      MarkPhase(s.locations[l], op.now);
    } else {
      SamePhaseFollows(s.locations[l], s.locations[l]);
    }
  }

  lemma DownloadRow(s: State, a: nat, op: DownloadOp, l: nat)
    requires CanDownload(s, a, op) && l in s.locations
    ensures l in DoDownload(s, a, op).locations
    ensures op.MarkMergeStarted? ==> a in s.actors && s.actors[a].Downloader?
    ensures DoDownload(s, a, op).locations[l]
         == if op.MarkMergeStarted? && s.actors[a].loc == l
                then s.locations[l].(mergeStartedAt := Some(op.now))
                else s.locations[l]
  {
    hide DownloadMove, SetLocation;
    if op.MarkMergeStarted? {
      SetLocationRow(s, s.actors[a].loc, (r: Location) => r.(mergeStartedAt := Some(op.now)), l);
    }
  }

  lemma MarkPhase(r: Location, now: int)
    requires InPhase(r) && r.mergedAt.None?
    ensures ProperStep(r, r.(mergeStartedAt := Some(now)))
  {
  }

  lemma SweepPhase(s: State, a: nat, op: SweepOp, u: nat, l: nat)
    requires CanSweep(s, a, op) && RowOk(s, u, l) && ActorsOk(s) && l in DoSweep(s, a, op).locations
    ensures ProperStep(s.locations[l], DoSweep(s, a, op).locations[l])
  {
    hide DoSweep, ProperStep, InPhase, AllFit, OneMerge, Only, Stored;
    RowPhase(s, u, l);
    SweepRows(s, a, op, l);
    if op.CleanMark? && op.acked && s.actors[a].loc == l {
      CleanPhase(s, a, u, l, op.now);
    } else {
      SamePhaseFollows(s.locations[l], s.locations[l]);
    }
  }

  lemma SweepRows(s: State, a: nat, op: SweepOp, l: nat)
    requires CanSweep(s, a, op) && l in s.locations && l in DoSweep(s, a, op).locations
    ensures op.CleanMark? ==> a in s.actors && s.actors[a].PartsCleaner?
    ensures DoSweep(s, a, op).locations[l]
         == if op.CleanMark? && op.acked && s.actors[a].loc == l then s.locations[l].(partsDeletedAt := Some(op.now))
            else s.locations[l]
  {
    hide SweepMove, SetLocation, KeepFolder, KeepParts;
    var k := s.actors[a];
    match op
    case CleanMark(now, _) => SetLocationRow(s, k.loc, (r: Location) => r.(partsDeletedAt := Some(now)), l);
    case CleanDrop(keep, _) => SameLocationsKept(s, k.folder, keep, true);
    case SweepFolder(keep, keepMerged, _) => SameLocationsKept(s, k.folder, keep, keepMerged);
    case SweepUploadFolder(keep, keepMerged, _) => SameLocationsKept(s, k.upload, keep, keepMerged);
    case _ =>
  }

  lemma SetLocationRow(s: State, k: nat, row: Location -> Location, l: nat)
    requires l in s.locations
    ensures l in SetLocation(s, k, row).locations
    ensures SetLocation(s, k, row).locations[l] == if k == l then row(s.locations[l]) else s.locations[l]
  {
    if k in s.locations {
      var q := row(s.locations[k]);
      assert SetLocation(s, k, row) == s.(locations := s.locations[k := q]);
      assert s.(locations := s.locations[k := q]).locations == s.locations[k := q];
      hide SetLocation;
    }
  }

  lemma SameLocationsKept(s: State, v: nat, keep: set<int>, keepMerged: bool)
    ensures KeepParts(s, v, keep).locations == s.locations
    ensures KeepFolder(s, v, keep, keepMerged).locations == s.locations
  {
  }

  lemma CleanPhase(s: State, a: nat, u: nat, l: nat, now: int)
    requires RowOk(s, u, l) && ActorsOk(s) && a in s.actors && s.actors[a].PartsCleaner? && s.actors[a].loc == l
    ensures ProperStep(s.locations[l], s.locations[l].(partsDeletedAt := Some(now)))
  {
    assert ActorOk(s, s.actors[a]);
    assert Fits(s.actors[a], u, l, s.locations[l], u in s.merged);
  }

  lemma FinalizePhase(s: State, a: nat, op: FinalizeOp, l: nat)
    requires CanFinalize(s, a, op) && l in s.locations && l in DoFinalize(s, a, op).locations
    requires LocationsOk(s) && InPhase(s.locations[l])
    ensures ProperStep(s.locations[l], DoFinalize(s, a, op).locations[l])
  {
    hide ProperStep, InPhase, DoFinalize;
    FinalizeRow(s, a, op, l);
    SamePhaseFollows(s.locations[l], DoFinalize(s, a, op).locations[l]);
  }

  lemma FinalizeRow(s: State, a: nat, op: FinalizeOp, l: nat)
    requires CanFinalize(s, a, op) && l in s.locations && l in DoFinalize(s, a, op).locations && LocationsOk(s)
    ensures DoFinalize(s, a, op).locations[l] == s.locations[l]
  {
    hide FinalizeMove;
  }

  lemma StatementPhase(s: State, step: Step, l: nat)
    requires Enabled(s, step) && l in s.locations && l in Next(s, step).locations && InPhase(s.locations[l])
    requires step.CreateUpload? || step.StartPart? || step.Touch? || step.ResetStalled? || step.DeleteEntry?
    ensures ProperStep(s.locations[l], Next(s, step).locations[l])
  {
    hide ProperStep, InPhase;
    StatementRow(s, step, l);
    if step.ResetStalled? && Stalled(s.locations[l], step.before) {
      ResetPhase(s.locations[l], step.before);
    } else {
      SamePhaseFollows(s.locations[l], Next(s, step).locations[l]);
    }
  }

  lemma StatementRow(s: State, step: Step, l: nat)
    requires Enabled(s, step) && l in s.locations && l in Next(s, step).locations
    requires step.CreateUpload? || step.StartPart? || step.Touch? || step.ResetStalled? || step.DeleteEntry?
    ensures if step.ResetStalled? && Stalled(s.locations[l], step.before)
            then Next(s, step).locations[l] == ResetRow(s.locations[l])
            else SamePhase(s.locations[l], Next(s, step).locations[l])
  {
    hide DoStart, DoPart, DoFinalize, DoDownload, DoWork, DoSweep, DoCopyStep, CanStart, CanPart, CanFinalize;
    hide CanDownload, CanWork, CanSweep;
  }

  lemma ResetPhase(r: Location, before: int)
    requires InPhase(r) && Stalled(r, before)
    ensures ProperStep(r, ResetRow(r))
  {
  }
}
