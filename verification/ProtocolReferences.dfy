/** Entries and their locations under every interleaving: each location serves at most one entry, and
    replacing an entry's archive never leaves a moment in which the entry is gone. */
module ProtocolReferences {
  import opened Protocol
  import opened ProtocolSafety
  import opened Types

  /** A finalizer that inserted location l and has not yet pointed an entry at it. */
  predicate Pending(x: Actor, l: nat) {
    x.Finalizer? && (x.step.FindExisting? || x.step.Repoint? || x.step.InsertEntry?) && x.step.loc == l
  }

  /** A finalizer that is replacing location l, still served to entry e at most. */
  predicate Replacing(x: Actor, l: nat) {
    x.Finalizer? && (x.step.Repoint? || x.step.DropOldRow?) && x.step.oldLoc == l
  }

  ghost predicate OneEntryEach(s: State) {
    forall d, e :: d in s.entries && e in s.entries && s.entries[d].location == s.entries[e].location ==> d == e
  }

  ghost predicate PendingUnused(s: State) {
    && (forall a, e :: a in s.actors && e in s.entries ==> !Pending(s.actors[a], s.entries[e].location))
    && (forall a, b, l ::
          a in s.actors && b in s.actors && Pending(s.actors[a], l) && Pending(s.actors[b], l) ==> a == b)
  }

  ghost predicate ReplacedSettled(s: State) {
    && (forall a, l :: a in s.actors && Replacing(s.actors[a], l) ==> l in s.usedLocations)
    && (forall a, b, l :: a in s.actors && b in s.actors && Replacing(s.actors[a], l) ==> !Pending(s.actors[b], l))
    && (forall a, e :: a in s.actors && e in s.entries && Replacing(s.actors[a], s.entries[e].location) ==>
      s.actors[a].step.Repoint? && s.actors[a].step.entry == e)
  }

  ghost predicate Refs(s: State) {
    OneEntryEach(s) && PendingUnused(s) && ReplacedSettled(s)
  }

  /** No entry is added or moved; no finalizer takes hold of a location. */
  ghost predicate RefsShrink(s: State, t: State) {
    && s.usedLocations <= t.usedLocations
    && (forall e :: e in t.entries ==> e in s.entries && t.entries[e].location == s.entries[e].location)
    && (forall a, l :: a in t.actors && Pending(t.actors[a], l) ==> a in s.actors && Pending(s.actors[a], l))
    && (forall a, l :: a in t.actors && Replacing(t.actors[a], l) ==> a in s.actors && t.actors[a] == s.actors[a])
  }

  lemma ShrinkKeepsRefs(s: State, t: State)
    requires Refs(s) && RefsShrink(s, t)
    ensures Refs(t)
  {
  }

  predicate Calm(x: Actor) {
    x.Finalizer? ==> !x.step.FindExisting? && !x.step.Repoint? && !x.step.InsertEntry? && !x.step.DropOldRow?
  }

  /** m moves no entry; then goroutine a becomes x, holding no location. */
  lemma CalmSet(s: State, m: State, a: nat, x: Actor)
    requires Refs(s) && EntriesCalm(s, m) && m.actors == s.actors && Calm(x)
    ensures Refs(Set(m, a, x))
  {
    assert RefsShrink(s, Set(m, a, x));
    hide Refs, RefsShrink;
    ShrinkKeepsRefs(s, Set(m, a, x));
  }

  ghost predicate EntriesCalm(s: State, m: State) {
    && s.usedLocations <= m.usedLocations
    && (forall e :: e in m.entries ==> e in s.entries && m.entries[e].location == s.entries[e].location)
  }

  predicate TakesReference(op: FinalizeOp) {
    op.AddLocation? || op.LookExisting? || op.RepointEntry? || op.AddEntry?
  }

  lemma PartCalm(s: State, a: nat, op: PartOp)
    requires CanPart(s, a, op)
    ensures EntriesCalm(s, PartEffect(s, a, op)) && PartEffect(s, a, op).actors == s.actors
  {
  }

  lemma PartKeepsRefs(s: State, a: nat, op: PartOp)
    requires CanPart(s, a, op) && Refs(s)
    ensures Refs(DoPart(s, a, op))
  {
    var x := if op.StorePart? then s.actors[a].(stored := true) else Ended;
    PartCalm(s, a, op);
    assert DoPart(s, a, op) == Set(PartEffect(s, a, op), a, x) && Calm(x);
    hide *;
    CalmSet(s, PartEffect(s, a, op), a, x);
  }

  lemma WorkCalm(s: State, a: nat, op: WorkerOp)
    requires CanWork(s, a, op)
    ensures EntriesCalm(s, WorkEffect(s, a, op)) && WorkEffect(s, a, op).actors == s.actors
  {
  }

  lemma WorkKeepsRefs(s: State, a: nat, op: WorkerOp)
    requires CanWork(s, a, op) && Refs(s)
    ensures Refs(DoWork(s, a, op))
  {
    var x := s.actors[a].(pc := WorkMove(op));
    WorkCalm(s, a, op);
    assert DoWork(s, a, op) == Set(WorkEffect(s, a, op), a, x) && Calm(x);
    hide *;
    CalmSet(s, WorkEffect(s, a, op), a, x);
  }

  lemma SweepCalm(s: State, a: nat, op: SweepOp)
    requires CanSweep(s, a, op)
    ensures EntriesCalm(s, SweepEffect(s, a, op)) && SweepEffect(s, a, op).actors == s.actors
  {
    hide SetLocation, KeepFolder, KeepParts, DropLocation;
    var k := s.actors[a];
    match op
    case SweepRow(_) => DropLocationCalm(s, k.loc);
    case SweepFolder(keep, keepMerged, _) => KeepCalm(s, k.folder, keep, keepMerged);
    case SweepUploadFolder(keep, keepMerged, _) => KeepCalm(s, k.upload, keep, keepMerged);
    case CleanMark(now, _) => SetLocationCalm(s, k.loc, (r: Location) => r.(partsDeletedAt := Some(now)));
    case CleanDrop(keep, _) => KeepCalm(s, k.folder, keep, true);
    case SweepUploadRow(_) =>
  }

  lemma DropLocationCalm(s: State, l: nat)
    ensures EntriesCalm(s, DropLocation(s, l)) && DropLocation(s, l).actors == s.actors
  {
  }

  lemma SetLocationCalm(s: State, l: nat, row: Location -> Location)
    ensures EntriesCalm(s, SetLocation(s, l, row)) && SetLocation(s, l, row).actors == s.actors
  {
  }

  lemma KeepCalm(s: State, folder: nat, keep: set<int>, keepMerged: bool)
    ensures EntriesCalm(s, KeepFolder(s, folder, keep, keepMerged))
    ensures KeepFolder(s, folder, keep, keepMerged).actors == s.actors
    ensures EntriesCalm(s, KeepParts(s, folder, keep)) && KeepParts(s, folder, keep).actors == s.actors
  {
  }

  lemma SweepKeepsRefs(s: State, a: nat, op: SweepOp)
    requires CanSweep(s, a, op) && Refs(s)
    ensures Refs(DoSweep(s, a, op))
  {
    var x := SweepMove(s.actors[a], op);
    SweepCalm(s, a, op);
    assert DoSweep(s, a, op) == Set(SweepEffect(s, a, op), a, x) && Calm(x);
    hide *;
    CalmSet(s, SweepEffect(s, a, op), a, x);
  }

  lemma DownloadCalm(s: State, a: nat, op: DownloadOp)
    requires CanDownload(s, a, op) && !op.SpawnMerge?
    ensures EntriesCalm(s, DownloadEffect(s, a, op)) && DownloadEffect(s, a, op).actors == s.actors
  {
  }

  lemma DownloadKeepsRefs(s: State, a: nat, op: DownloadOp)
    requires CanDownload(s, a, op) && Refs(s) && !op.SpawnMerge?
    ensures Refs(DoDownload(s, a, op))
  {
    var x := DownloadMove(s, a, op);
    DownloadCalm(s, a, op);
    assert DoDownload(s, a, op) == Set(DownloadEffect(s, a, op), a, x) && Calm(x);
    hide *;
    CalmSet(s, DownloadEffect(s, a, op), a, x);
  }

  lemma FinalizeCalm(s: State, a: nat, op: FinalizeOp)
    requires CanFinalize(s, a, op) && !TakesReference(op)
    ensures EntriesCalm(s, FinalizeEffect(s, a, op)) && FinalizeEffect(s, a, op).actors == s.actors
  {
  }

  lemma FinalizeKeepsRefs(s: State, a: nat, op: FinalizeOp)
    requires CanFinalize(s, a, op) && Refs(s) && !TakesReference(op)
    ensures Refs(DoFinalize(s, a, op))
  {
    var x := FinalizeMove(s, a, op);
    FinalizeCalm(s, a, op);
    assert DoFinalize(s, a, op) == Set(FinalizeEffect(s, a, op), a, x) && Calm(x);
    hide *;
    CalmSet(s, FinalizeEffect(s, a, op), a, x);
  }

  lemma StartKeepsRefs(s: State, a: nat, op: StartOp)
    requires CanStart(s, a, op) && Refs(s)
    ensures Refs(DoStart(s, a, op))
  {
    var m, x := StartEffect(s, op), StartMove(s, a, op);
    assert EntriesCalm(s, m) && m.actors == s.actors && Calm(x) && DoStart(s, a, op) == Set(m, a, x);
    hide *;
    CalmSet(s, m, a, x);
  }

  lemma CopyKeepsRefs(s: State, a: nat, op: CopyOp)
    requires a in s.actors && s.actors[a].Copier? && CanCopy(s.actors[a].stream, op) && Refs(s)
    ensures Refs(DoCopyStep(s, a, op))
  {
    var x := Copier(DoCopy(s.actors[a].stream, PartsOf(s, s.actors[a].stream.folder), op));
    assert EntriesCalm(s, s) && Calm(x) && DoCopyStep(s, a, op) == Set(s, a, x);
    hide *;
    CalmSet(s, s, a, x);
  }

  /** Statements outside any of the calls above, and the first step of a part upload. */
  lemma StatementKeepsRefs(s: State, step: Step)
    requires Enabled(s, step) && Refs(s)
    requires step.CreateUpload? || step.StartPart? || step.Touch? || step.ResetStalled? || step.DeleteEntry?
    ensures Refs(Next(s, step))
  {
    assert RefsShrink(s, Next(s, step)) by { hide Refs; }
    hide *;
    ShrinkKeepsRefs(s, Next(s, step));
  }

  lemma SpawnKeepsRefs(s: State, a: nat, w: nat)
    requires CanDownload(s, a, SpawnMerge(w)) && Refs(s)
    ensures Refs(DoDownload(s, a, SpawnMerge(w)))
  {
    assert RefsShrink(s, DoDownload(s, a, SpawnMerge(w)));
    hide *;
    ShrinkKeepsRefs(s, DoDownload(s, a, SpawnMerge(w)));
  }

  // ---------- the four steps that take or move a reference ----------

  lemma AddLocationRefs(s: State, a: nat, l: nat)
    requires Safe(s) && Refs(s) && CanFinalize(s, a, AddLocation(l))
    ensures Refs(DoFinalize(s, a, AddLocation(l)))
  {
    PendingUsed(s, l);
    TakeNew(s, DoFinalize(s, a, AddLocation(l)), a, l);
  }

  /** Nobody has, serves or replaces a location id that was never handed out. */
  lemma PendingUsed(s: State, l: nat)
    requires Safe(s) && l !in s.usedLocations
    ensures forall a :: a in s.actors ==> !Pending(s.actors[a], l)
    ensures forall e :: e in s.entries ==> s.entries[e].location != l
  {
    forall a | a in s.actors ensures !Pending(s.actors[a], l) { assert ActorOk(s, s.actors[a]); }
    forall e | e in s.entries ensures s.entries[e].location != l { assert EntryOk(s, e); }
  }

  lemma TakeNew(s: State, t: State, a: nat, l: nat)
    requires Refs(s) && a in s.actors && l !in s.usedLocations && t.entries == s.entries
    requires t.usedLocations == s.usedLocations + {l}
    requires a in t.actors && t.actors == s.actors[a := t.actors[a]] && t.actors[a].Finalizer?
    requires t.actors[a].step == FindExisting(l)
    requires forall b :: b in s.actors ==> !Pending(s.actors[b], l)
    requires forall e :: e in s.entries ==> s.entries[e].location != l
    ensures Refs(t)
  {
    assert PendingUnused(t);
    assert ReplacedSettled(t);
  }

  lemma LookExistingRefs(s: State, a: nat, found: Option<nat>)
    requires Safe(s) && Refs(s) && CanFinalize(s, a, LookExisting(found))
    ensures Refs(DoFinalize(s, a, LookExisting(found)))
  {
    if found.Some? { assert s.entries[found.value].location in s.usedLocations; }
    LookTakes(s, DoFinalize(s, a, LookExisting(found)), a, found);
  }

  lemma LookTakes(s: State, t: State, a: nat, found: Option<nat>)
    requires Refs(s) && a in s.actors && s.actors[a].Finalizer? && s.actors[a].step.FindExisting?
    requires t.entries == s.entries && t.usedLocations == s.usedLocations && a in t.actors
    requires t.actors == s.actors[a := t.actors[a]]
    requires found.Some? ==> found.value in s.entries && s.entries[found.value].location in s.usedLocations
    requires t.actors[a].Finalizer?
    requires var x := t.actors[a].step;
      if found.Some? then
        && x.Repoint? && x.loc == s.actors[a].step.loc && x.entry == found.value
        && x.oldLoc == s.entries[found.value].location
      else x == InsertEntry(s.actors[a].step.loc)
    ensures Refs(t)
  {
    assert forall l :: Pending(t.actors[a], l) ==> Pending(s.actors[a], l);
    assert OneEntryEach(t) && PendingUnused(t);
    assert ReplacedSettled(t);
  }

  /** The finalizer a points entry e to the location l it was keeping for it. */
  ghost predicate Points(s: State, t: State, a: nat, e: nat, l: nat) {
    && a in s.actors && Pending(s.actors[a], l)
    && e in t.entries && t.entries == s.entries[e := t.entries[e]] && t.entries[e].location == l
    && t.usedLocations == s.usedLocations && a in t.actors && t.actors == s.actors[a := t.actors[a]]
    && t.actors[a].Finalizer?
    && (|| (t.actors[a].step == DropUpload && s.actors[a].step.InsertEntry?)
        || (s.actors[a].step.Repoint? && s.actors[a].step.entry == e && t.actors[a].step.DropOldRow?
            && t.actors[a].step.oldLoc == s.actors[a].step.oldLoc))
  }

  lemma PointEntries(s: State, t: State, a: nat, e: nat, l: nat)
    requires OneEntryEach(s) && PendingUnused(s) && Points(s, t, a, e, l)
    ensures OneEntryEach(t) && PendingUnused(t)
  {
  }

  lemma PointSettled(s: State, t: State, a: nat, e: nat, l: nat)
    requires ReplacedSettled(s) && Points(s, t, a, e, l)
    ensures ReplacedSettled(t)
  {
    forall b, k | b in t.actors && Replacing(t.actors[b], k)
      ensures b in s.actors && Replacing(s.actors[b], k) && k != l
    {
    }
  }

  lemma PointRefs(s: State, t: State, a: nat, e: nat, l: nat)
    requires Refs(s) && Points(s, t, a, e, l)
    ensures Refs(t)
  {
    hide OneEntryEach, PendingUnused, ReplacedSettled, Points;
    PointEntries(s, t, a, e, l);
    PointSettled(s, t, a, e, l);
  }

  lemma RepointRefs(s: State, a: nat, now: int)
    requires Refs(s) && CanFinalize(s, a, RepointEntry(now))
    ensures Refs(DoFinalize(s, a, RepointEntry(now)))
  {
    var f := s.actors[a];
    var t := DoFinalize(s, a, RepointEntry(now));
    if f.step.entry in s.entries {
      assert Pending(f, f.step.loc);
      assert t.actors == s.actors[a := t.actors[a]];
      hide Refs;
      PointRefs(s, t, a, f.step.entry, f.step.loc);
    } else {
      LetGo(s, t, a);
    }
  }

  /** The entry to repoint has been deleted meanwhile. */
  lemma LetGo(s: State, t: State, a: nat)
    requires Refs(s) && a in s.actors && s.actors[a].Finalizer? && s.actors[a].step.Repoint?
    requires s.actors[a].step.entry !in s.entries
    requires t.entries == s.entries && t.usedLocations == s.usedLocations && a in t.actors
    requires t.actors == s.actors[a := t.actors[a]]
    requires t.actors[a].Finalizer? && t.actors[a].step.DropOldRow?
    requires t.actors[a].step.oldLoc == s.actors[a].step.oldLoc
    ensures Refs(t)
  {
    assert OneEntryEach(t) && PendingUnused(t);
    assert ReplacedSettled(t) by {
      forall b, k | b in t.actors && Replacing(t.actors[b], k) ensures b in s.actors && Replacing(s.actors[b], k) {}
    }
  }

  lemma AddEntryRefs(s: State, a: nat, e: nat, now: int)
    requires Refs(s) && CanFinalize(s, a, AddEntry(e, now))
    ensures Refs(DoFinalize(s, a, AddEntry(e, now)))
  {
    var t := DoFinalize(s, a, AddEntry(e, now));
    assert Pending(s.actors[a], s.actors[a].step.loc);
    assert t.actors == s.actors[a := t.actors[a]];
    hide Refs;
    PointRefs(s, t, a, e, s.actors[a].step.loc);
  }

  lemma FinalizerKeepsRefs(s: State, a: nat, op: FinalizeOp)
    requires Safe(s) && Refs(s) && CanFinalize(s, a, op)
    ensures Refs(DoFinalize(s, a, op))
  {
    hide Safe, Refs, CanFinalize, DoFinalize;
    match op
    case AddLocation(l) => AddLocationRefs(s, a, l);
    case LookExisting(found) => LookExistingRefs(s, a, found);
    case RepointEntry(now) => RepointRefs(s, a, now);
    case AddEntry(e, now) => AddEntryRefs(s, a, e, now);
    case _ => FinalizeKeepsRefs(s, a, op);
  }

  lemma StepKeepsRefs(s: State, step: Step)
    requires Safe(s) && Refs(s) && Enabled(s, step)
    ensures Refs(Next(s, step))
  {
    hide Safe, Refs, Enabled, Next, RefsShrink;
    NextOf(s, step);
    match step
    case PartStep(a, op) => PartKeepsRefs(s, a, op);
    case WorkerStep(a, op) => WorkKeepsRefs(s, a, op);
    case SweepStep(a, op) => SweepKeepsRefs(s, a, op);
    case DownloadStep(a, op) => if op.SpawnMerge? { SpawnKeepsRefs(s, a, op.w); } else { DownloadKeepsRefs(s, a, op); }
    case FinalizeStep(a, op) => FinalizerKeepsRefs(s, a, op);
    case StartStep(a, op) => StartKeepsRefs(s, a, op);
    case CopyStep(a, op) => CopyKeepsRefs(s, a, op);
    case _ => StatementKeepsRefs(s, step);
  }

  lemma {:induction false} RunKeepsRefs(s: State, run: seq<Step>)
    requires Safe(s) && Refs(s) && ValidRun(s, run)
    ensures Safe(After(s, run)) && Refs(After(s, run))
    decreases |run|
  {
    if run != [] {
      StepKeepsSafe(s, run[0]);
      StepKeepsRefs(s, run[0]);
      hide Safe, Refs;
      RunKeepsRefs(Next(s, run[0]), run[1..]);
    }
  }

  lemma ReachableRefs(s: State)
    requires Reachable(s)
    ensures Safe(s) && Refs(s)
  {
    var run :| ValidRun(Init(), run) && After(Init(), run) == s;
    RunKeepsRefs(Init(), run);
  }

  /** No step of a finalize takes an entry away, whatever runs beside it: in particular deleting the old
      location cascades to nothing, and every entry keeps its key and has a location row throughout. */
  lemma ReplaceIsGapFree(s: State, a: nat, op: FinalizeOp, e: nat)
    requires Reachable(s) && CanFinalize(s, a, op) && e in s.entries
    ensures var t := DoFinalize(s, a, op);
      e in t.entries && t.entries[e].key == s.entries[e].key && t.entries[e].location in t.locations
  {
    ReachableRefs(s);
    GapFreeStep(s, a, op, e);
  }

  lemma GapFreeStep(s: State, a: nat, op: FinalizeOp, e: nat)
    requires EntriesOk(s) && Refs(s) && CanFinalize(s, a, op) && e in s.entries
    ensures var t := DoFinalize(s, a, op);
      e in t.entries && t.entries[e].key == s.entries[e].key && t.entries[e].location in t.locations
  {
    hide FinalizeMove, HasKey, OneEntryEach, PendingUnused;
    assert EntryOk(s, e);
    if op.DropOldLocation? {
      assert Replacing(s.actors[a], s.actors[a].step.oldLoc);
    }
  }

  /** In every reachable state each entry has a location row, and no two entries share one. */
  lemma EntriesResolve(s: State, d: nat, e: nat)
    requires Reachable(s) && d in s.entries && e in s.entries
    ensures s.entries[e].location in s.locations && (d != e ==> s.entries[d].location != s.entries[e].location)
  {
    ReachableRefs(s);
    assert EntryOk(s, e);
  }
}
