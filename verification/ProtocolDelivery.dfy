/** A merge is as good as the download it copies: whatever a client or part error does to the copier, nothing is
    merged unless a client was sent the whole archive. */
module ProtocolDelivery {
  import opened Protocol
  import opened ProtocolSafety
  import opened Types

  /** The merge upload has succeeded. */
  predicate Succeeded(pc: WorkerPc) {
    pc == MarkMerged || pc == MarkPartsDeleted || pc == DropParts
  }

  /** A copier of folder u that reached the end of the last part. */
  predicate Clean(x: Actor, u: nat) {
    x.Copier? && x.stream.lockstep && x.stream.folder == u && x.stream.end == CleanEof
  }

  ghost predicate Delivered(s: State, u: nat) {
    exists c :: c in s.actors && Clean(s.actors[c], u)
  }

  predicate Touched(r: Location) {
    r.mergedAt.Some? || r.partsDeletedAt.Some?
  }

  ghost predicate ActorEarned(s: State, x: Actor) {
    && (x.Worker? && Succeeded(x.pc) ==> x.copier in s.actors && Clean(s.actors[x.copier], x.folder))
    && (x.PartsCleaner? ==> Delivered(s, x.folder))
  }

  /** Workers past their upload, merged rows, deleted parts and merged objects all have a client that was sent
      everything. */
  ghost predicate Earned(s: State) {
    && (forall a :: a in s.actors ==> ActorEarned(s, s.actors[a]))
    && (forall l :: l in s.locations && Touched(s.locations[l]) ==> Delivered(s, s.locations[l].folder))
    && (forall u :: u in s.merged ==> Delivered(s, u))
  }

  /** Copiers that have ended cleanly stay. */
  ghost predicate CleanStay(s: State, t: State) {
    forall c, u :: c in s.actors && Clean(s.actors[c], u) ==> c in t.actors && t.actors[c] == s.actors[c]
  }

  lemma StillDelivered(s: State, t: State, u: nat)
    requires CleanStay(s, t) && Delivered(s, u)
    ensures Delivered(t, u)
  {
    var c :| c in s.actors && Clean(s.actors[c], u);
    assert Clean(t.actors[c], u);
  }

  /** No row is merged, no merged object made. */
  ghost predicate NoneEarned(s: State, m: State) {
    && m.actors == s.actors
    && (forall l :: l in m.locations && Touched(m.locations[l]) ==>
          l in s.locations && Touched(s.locations[l]) && m.locations[l].folder == s.locations[l].folder)
    && (forall u :: u in m.merged ==> u in s.merged)
  }

  lemma EarnedSet(s: State, m: State, a: nat, x: Actor)
    requires Earned(s) && NoneEarned(s, m) && ActorEarned(s, x)
    requires a in s.actors ==> forall u :: !Clean(s.actors[a], u)
    ensures Earned(Set(m, a, x))
  {
    var t := Set(m, a, x);
    assert CleanStay(s, t);
    ActorsStay(s, t, a, a);
    RowsStay(s, t, m);
  }

  lemma ActorsStay(s: State, t: State, a: nat, w: nat)
    requires Earned(s) && CleanStay(s, t)
    requires forall b :: b in t.actors && b != a && b != w ==> b in s.actors && t.actors[b] == s.actors[b]
    requires a in t.actors ==> ActorEarned(s, t.actors[a])
    requires w in t.actors ==> ActorEarned(s, t.actors[w])
    ensures forall b :: b in t.actors ==> ActorEarned(t, t.actors[b])
  {
    forall b | b in t.actors ensures ActorEarned(t, t.actors[b]) {
      var x := t.actors[b];
      assert ActorEarned(s, x);
      if x.PartsCleaner? {
        StillDelivered(s, t, x.folder);
      }
    }
  }

  lemma RowsStay(s: State, t: State, m: State)
    requires Earned(s) && CleanStay(s, t) && NoneEarned(s, m) && t.locations == m.locations && t.merged == m.merged
    ensures forall l :: l in t.locations && Touched(t.locations[l]) ==> Delivered(t, t.locations[l].folder)
    ensures forall u :: u in t.merged ==> Delivered(t, u)
  {
    hide ActorEarned, CleanStay, Delivered;
    forall l | l in t.locations && Touched(t.locations[l]) ensures Delivered(t, t.locations[l].folder) {
      StillDelivered(s, t, s.locations[l].folder);
    }
    forall u | u in t.merged ensures Delivered(t, u) {
      StillDelivered(s, t, u);
    }
  }

  lemma EarnedKeeps(s: State, m: State)
    requires Earned(s) && NoneEarned(s, m)
    ensures Earned(m)
  {
    hide ActorEarned, Clean;
    assert CleanStay(s, m);
    forall a | a in m.actors ensures ActorEarned(m, m.actors[a]) {
      SameActorEarned(s, m, m.actors[a]);
    }
    RowsStay(s, m, m);
  }

  lemma SameActorEarned(s: State, m: State, x: Actor)
    requires ActorEarned(s, x) && m.actors == s.actors
    ensures ActorEarned(m, x)
  {
  }

  // ---------- steps ----------

  lemma StatementEarned(s: State, step: Step)
    requires Earned(s) && Enabled(s, step)
    requires step.CreateUpload? || step.Touch? || step.ResetStalled? || step.DeleteEntry?
    ensures Earned(Next(s, step))
  {
    hide Earned;
    StatementNoneEarned(s, step);
    EarnedKeeps(s, Next(s, step));
  }

  lemma StatementNoneEarned(s: State, step: Step)
    requires Enabled(s, step) && (step.CreateUpload? || step.Touch? || step.ResetStalled? || step.DeleteEntry?)
    ensures NoneEarned(s, Next(s, step))
  {
    hide SetLocation;
    if step.Touch? {
      MarkNoneEarned(s, step.l, (r: Location) => r.(lastDownloadedAt := Some(step.now)));
    }
  }

  lemma StartPartEarned(s: State, a: nat, u: nat, index: int, body: Bytes)
    requires Earned(s) && Enabled(s, StartPart(a, u, index, body))
    ensures Earned(Next(s, StartPart(a, u, index, body)))
  {
    hide Earned;
    var m := s.(uploads := s.uploads[u := Started(s.uploads[u])]);
    assert NoneEarned(s, m);
    EarnedSet(s, m, a, PartUpload(u, index, body, false));
  }

  lemma PartEarned(s: State, a: nat, op: PartOp)
    requires Earned(s) && CanPart(s, a, op)
    ensures Earned(DoPart(s, a, op))
  {
    hide Earned;
    assert NoneEarned(s, PartEffect(s, a, op));
    EarnedSet(s, PartEffect(s, a, op), a, if op.StorePart? then s.actors[a].(stored := true) else Ended);
  }

  lemma StartEarned(s: State, a: nat, op: StartOp)
    requires Earned(s) && CanStart(s, a, op)
    ensures Earned(DoStart(s, a, op))
  {
    if op.ListMerged? {
      assert Touched(s.locations[op.l]);
    }
    StartMoves(s, a, op);
    hide Earned, DoStart, StartMove, StartEffect;
    EarnedSet(s, StartEffect(s, op), a, StartMove(s, a, op));
  }

  lemma StartMoves(s: State, a: nat, op: StartOp)
    requires CanStart(s, a, op) && (op.ListMerged? ==> Delivered(s, s.locations[op.l].folder))
    ensures NoneEarned(s, StartEffect(s, op)) && ActorEarned(s, StartMove(s, a, op))
    ensures DoStart(s, a, op) == Set(StartEffect(s, op), a, StartMove(s, a, op))
  {
  }

  lemma FinalizeEarned(s: State, a: nat, op: FinalizeOp)
    requires Earned(s) && CanFinalize(s, a, op)
    ensures Earned(DoFinalize(s, a, op))
  {
    hide Earned, FinalizeMove, ActorEarned;
    FinalizeMoves(s, a, op);
    EarnedSet(s, FinalizeEffect(s, a, op), a, FinalizeMove(s, a, op));
  }

  lemma FinalizeMoves(s: State, a: nat, op: FinalizeOp)
    requires CanFinalize(s, a, op)
    ensures NoneEarned(s, FinalizeEffect(s, a, op)) && ActorEarned(s, FinalizeMove(s, a, op))
  {
  }

  lemma CopyEarned(s: State, a: nat, op: CopyOp)
    requires Earned(s) && a in s.actors && s.actors[a].Copier? && CanCopy(s.actors[a].stream, op)
    ensures Earned(DoCopyStep(s, a, op))
  {
    hide Earned, DoCopy;
    EarnedSet(s, s, a, Copier(DoCopy(s.actors[a].stream, PartsOf(s, s.actors[a].stream.folder), op)));
  }

  lemma DownloadEarned(s: State, a: nat, op: DownloadOp)
    requires Earned(s) && CanDownload(s, a, op)
    ensures Earned(DoDownload(s, a, op))
  {
    if op.SpawnMerge? {
      var t := DoDownload(s, a, op);
      assert CleanStay(s, t) && ActorEarned(s, t.actors[a]) && ActorEarned(s, t.actors[op.w]);
      ActorsStay(s, t, a, op.w);
      assert NoneEarned(s, s);
      RowsStay(s, t, s);
    } else {
      hide Earned, DownloadMove;
      DownloadMoves(s, a, op);
      EarnedSet(s, DownloadEffect(s, a, op), a, DownloadMove(s, a, op));
    }
  }

  lemma DownloadMoves(s: State, a: nat, op: DownloadOp)
    requires CanDownload(s, a, op) && !op.SpawnMerge?
    ensures NoneEarned(s, DownloadEffect(s, a, op)) && ActorEarned(s, DownloadMove(s, a, op))
  {
    hide NoneEarned, SetLocation;
    SelfNoneEarned(s);
    if op.MarkMergeStarted? {
      MarkNoneEarned(s, s.actors[a].loc, (r: Location) => r.(mergeStartedAt := Some(op.now)));
    }
  }

  lemma MarkNoneEarned(s: State, l: nat, row: Location -> Location)
    requires l in s.locations ==> row(s.locations[l]).folder == s.locations[l].folder
    requires l in s.locations ==> (Touched(row(s.locations[l])) ==> Touched(s.locations[l]))
    ensures NoneEarned(s, SetLocation(s, l, row))
  {
  }

  lemma SweepEarned(s: State, a: nat, op: SweepOp)
    requires ActorsOk(s) && Earned(s) && CanSweep(s, a, op)
    ensures Earned(DoSweep(s, a, op))
  {
    assert ActorOk(s, s.actors[a]) && ActorEarned(s, s.actors[a]);
    hide ActorsOk, SweepMove, SweepEffect, DropLocation, KeepFolder, KeepParts, SetLocation, DropUploadRow;
    var k, x := s.actors[a], SweepMove(s.actors[a], op);
    assert ActorEarned(s, x) by { SweepMoves(s, k, op); }
    if op.CleanMark? {
      EarnedSet(s, s, a, x);
      if op.acked {
        MarkedRow(s, k.loc, k.folder, (r: Location) => r.(partsDeletedAt := Some(op.now)), a, x);
      }
      CleanMarkIs(s, a, op);
    } else {
      SweepEffects(s, a, op);
      EarnedSet(s, SweepEffect(s, a, op), a, x);
    }
  }

  lemma SweepMoves(s: State, k: Actor, op: SweepOp)
    requires (k.Sweeper? || k.UploadSweeper? || k.PartsCleaner?) && ActorEarned(s, k)
    ensures ActorEarned(s, SweepMove(k, op))
  {
  }

  lemma CleanMarkIs(s: State, a: nat, op: SweepOp)
    requires CanSweep(s, a, op) && op.CleanMark?
    ensures var x, row := SweepMove(s.actors[a], op), (r: Location) => r.(partsDeletedAt := Some(op.now));
      DoSweep(s, a, op) == Set(if op.acked then SetLocation(s, s.actors[a].loc, row) else s, a, x)
  {
  }

  lemma SweepEffects(s: State, a: nat, op: SweepOp)
    requires CanSweep(s, a, op) && !op.CleanMark?
    ensures NoneEarned(s, SweepEffect(s, a, op))
  {
    hide NoneEarned, DropLocation, KeepFolder, KeepParts;
    var k := s.actors[a];
    match op
    case SweepRow(_) => DropNoneEarned(s, k.loc); SelfNoneEarned(s);
    case SweepFolder(keep, keepMerged, _) => KeepNoneEarned(s, k.folder, keep, keepMerged);
    case SweepUploadFolder(keep, keepMerged, _) => KeepNoneEarned(s, k.upload, keep, keepMerged);
    case CleanDrop(keep, _) => KeepNoneEarned(s, k.folder, keep, true);
    case SweepUploadRow(_) => SelfNoneEarned(s);
  }

  lemma SelfNoneEarned(s: State)
    ensures NoneEarned(s, s) && forall u :: NoneEarned(s, DropUploadRow(s, u))
  {
  }

  lemma DropNoneEarned(s: State, l: nat)
    ensures NoneEarned(s, DropLocation(s, l))
  {
  }

  lemma KeepNoneEarned(s: State, folder: nat, keep: set<int>, keepMerged: bool)
    ensures NoneEarned(s, KeepFolder(s, folder, keep, keepMerged)) && NoneEarned(s, KeepParts(s, folder, keep))
  {
  }

  /** The row of a delivered folder may be marked. */
  lemma MarkedRow(s: State, l: nat, u: nat, row: Location -> Location, a: nat, x: Actor)
    requires Earned(s) && Delivered(s, u) && ActorEarned(s, x) && (a in s.actors ==> forall v :: !Clean(s.actors[a], v))
    requires l in s.locations ==> s.locations[l].folder == u && row(s.locations[l]).folder == u
    ensures Earned(Set(SetLocation(s, l, row), a, x))
  {
    var t := Set(SetLocation(s, l, row), a, x);
    assert CleanStay(s, t);
    ActorsStay(s, t, a, a);
    hide ActorEarned, CleanStay, Delivered;
    StillDelivered(s, t, u);
    forall k | k in t.locations && Touched(t.locations[k]) ensures Delivered(t, t.locations[k].folder) {
      if k != l {
        StillDelivered(s, t, s.locations[k].folder);
      }
    }
    forall v | v in t.merged ensures Delivered(t, v) {
      StillDelivered(s, t, v);
    }
  }

  lemma WorkEarned(s: State, w: nat, op: WorkerOp)
    requires ActorsOk(s) && Earned(s) && CanWork(s, w, op)
    ensures Earned(DoWork(s, w, op))
  {
    var k, x := s.actors[w], s.actors[w].(pc := WorkMove(op));
    assert ActorOk(s, k) && ActorEarned(s, k);
    assert op.PutMerged? ==> Clean(s.actors[k.copier], k.folder);
    hide ActorsOk, ActorOk, Placed, WorkEffect, SetLocation, Earned;
    WorkMoves(s, w, op);
    match op
    case PutMerged(_) => PutMergedEarned(s, w, op);
    case SetMerged(now, applied, _) =>
      EarnedSet(s, s, w, x);
      MarkedRow(s, k.loc, k.folder, (r: Location) => r.(mergedAt := Some(now)), w, x);
    case SetPartsDeleted(now, applied) =>
      EarnedSet(s, s, w, x);
      MarkedRow(s, k.loc, k.folder, (r: Location) => r.(partsDeletedAt := Some(now)), w, x);
    case _ =>
      WorkEffects(s, w, op);
      EarnedSet(s, WorkEffect(s, w, op), w, x);
  }

  lemma WorkMoves(s: State, w: nat, op: WorkerOp)
    requires CanWork(s, w, op) && ActorEarned(s, s.actors[w])
    requires op.PutMerged? ==> Clean(s.actors[s.actors[w].copier], s.actors[w].folder)
    ensures var k, x := s.actors[w], s.actors[w].(pc := WorkMove(op));
      && ActorEarned(s, x)
      && (op.SetMerged? || op.SetPartsDeleted? ==> k.copier in s.actors && Clean(s.actors[k.copier], k.folder))
      && (op.SetMerged? ==> DoWork(s, w, op) == Set(
        if op.applied then SetLocation(s, k.loc, (r: Location) => r.(mergedAt := Some(op.now))) else s, w, x))
      && (op.SetPartsDeleted? ==> DoWork(s, w, op) == Set(
        if op.applied then SetLocation(s, k.loc, (r: Location) => r.(partsDeletedAt := Some(op.now))) else s, w, x))
  {
  }

  lemma WorkEffects(s: State, w: nat, op: WorkerOp)
    requires CanWork(s, w, op) && !op.PutMerged? && !op.SetMerged? && !op.SetPartsDeleted?
    ensures NoneEarned(s, WorkEffect(s, w, op))
  {
  }

  lemma PutMergedEarned(s: State, w: nat, op: WorkerOp)
    requires Earned(s) && CanWork(s, w, op) && op.PutMerged?
    requires Clean(s.actors[s.actors[w].copier], s.actors[w].folder)
    ensures Earned(DoWork(s, w, op))
  {
    var t, u := DoWork(s, w, op), s.actors[w].folder;
    assert CleanStay(s, t) && ActorEarned(s, t.actors[w]) && Delivered(s, u);
    ActorsStay(s, t, w, w);
    hide ActorEarned, CleanStay, Delivered;
    forall l | l in t.locations && Touched(t.locations[l]) ensures Delivered(t, t.locations[l].folder) {
      StillDelivered(s, t, s.locations[l].folder);
    }
    forall v | v in t.merged ensures Delivered(t, v) {
      StillDelivered(s, t, v);
    }
  }

  lemma StepKeepsEarned(s: State, step: Step)
    requires Safe(s) && Earned(s) && Enabled(s, step)
    ensures Earned(Next(s, step))
  {
    assert ActorsOk(s);
    hide *;
    NextOf(s, step);
    match step
    case StartStep(a, op) => StartEarned(s, a, op);
    case PartStep(a, op) => PartEarned(s, a, op);
    case FinalizeStep(a, op) => FinalizeEarned(s, a, op);
    case DownloadStep(a, op) => DownloadEarned(s, a, op);
    case CopyStep(a, op) => CopyEarned(s, a, op);
    case WorkerStep(a, op) => WorkEarned(s, a, op);
    case SweepStep(a, op) => SweepEarned(s, a, op);
    case StartPart(a, u, index, body) => StartPartEarned(s, a, u, index, body);
    case _ => StatementEarned(s, step);
  }

  lemma {:induction false} RunKeepsEarned(s: State, run: seq<Step>)
    requires Safe(s) && Earned(s) && ValidRun(s, run)
    ensures Earned(After(s, run))
    decreases |run|
  {
    if run != [] {
      StepKeepsSafe(s, run[0]);
      StepKeepsEarned(s, run[0]);
      hide Safe, Earned, Enabled, Next;
      RunKeepsEarned(Next(s, run[0]), run[1..]);
    }
  }

  lemma ReachableEarned(s: State)
    requires Reachable(s)
    ensures Safe(s) && Earned(s)
  {
    ReachableSafe(s);
    var run :| ValidRun(Init(), run) && After(Init(), run) == s;
    assert Safe(Init()) && Earned(Init());
    RunKeepsEarned(Init(), run);
  }

  // ---------- what it means ----------

  /** Some row of folder u is or will be marked merged, some parts of it are or will be deleted, or its merged
      object is there. */
  ghost predicate BeyondParts(s: State, u: nat) {
    || u in s.merged
    || (exists l :: l in s.locations && s.locations[l].folder == u && Touched(s.locations[l]))
    || (exists a :: a in s.actors && Replaces(s.actors[a], u))
  }

  predicate Replaces(x: Actor, u: nat) {
    (x.Worker? && x.folder == u && Succeeded(x.pc)) || (x.PartsCleaner? && x.folder == u)
  }

  /** A client or part error yields no mergedAt.  Whatever goes beyond the parts of a folder, a client has been
      sent every part of it in order. */
  lemma MergedOnlyIfDelivered(s: State, u: nat)
    requires Reachable(s) && BeyondParts(s, u)
    ensures exists c :: c in s.actors && Clean(s.actors[c], u) && CompleteCopy(s, u, s.actors[c].stream.client)
  {
    hide Earned, Reachable, Safe, BeyondParts;
    ReachableEarned(s);
    SomeoneDelivered(s, u);
    var c :| c in s.actors && Clean(s.actors[c], u);
    CleanIsComplete(s, c, u);
  }

  lemma CleanIsComplete(s: State, c: nat, u: nat)
    requires Safe(s) && c in s.actors && Clean(s.actors[c], u)
    ensures CompleteCopy(s, u, s.actors[c].stream.client)
  {
    assert ActorOk(s, s.actors[c]);
  }

  lemma SomeoneDelivered(s: State, u: nat)
    requires Earned(s) && BeyondParts(s, u)
    ensures Delivered(s, u)
  {
    if a :| a in s.actors && Replaces(s.actors[a], u) {
      assert ActorEarned(s, s.actors[a]);
    }
  }

  /** The worker of a successful merge upload knows its client: it was the one it copied from. */
  lemma MergeWorkerDelivered(s: State, w: nat)
    requires Reachable(s) && w in s.actors && s.actors[w].Worker? && Succeeded(s.actors[w].pc)
    ensures var k := s.actors[w];
      && k.copier in s.actors && Clean(s.actors[k.copier], k.folder)
      && CompleteCopy(s, k.folder, s.actors[k.copier].stream.client)
  {
    hide Safe, Reachable;
    ReachableEarned(s);
    assert ActorEarned(s, s.actors[w]);
    CleanIsComplete(s, s.actors[w].copier, s.actors[w].folder);
  }
}
