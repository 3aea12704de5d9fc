/** How the parts of a folder are lost while a location still needs them: for every goroutine that may delete
    them, a run that does the folder no other harm and ends with an unreadable location. */
module ProtocolLosses {
  import opened Protocol
  import opened ProtocolAvailability
  import opened ProtocolGaps
  import opened ProtocolKeeping
  import opened ProtocolRaces
  import opened ProtocolRuns
  import opened ProtocolSafety
  import opened Types

  ghost predicate AllReadable(s: State, u: nat) {
    forall l :: Has(s, l, u) ==> Readable(s, s.locations[l])
  }

  /** From s on, every location of folder u stays readable in every run that does not harm the folder. */
  ghost predicate StaysReadable(s: State, u: nat) {
    forall z :: LeadsQuietly(s, z, u) ==> AllReadable(z, u)
  }

  lemma Back(s: State, t: State, u: nat)
    requires LeadsQuietly(s, t, u) && !StaysReadable(t, u)
    ensures !StaysReadable(s, u)
  {
    hide LeadsQuietly, AllReadable;
    var z :| LeadsQuietly(t, z, u) && !AllReadable(z, u);
    LeadsFurther(s, t, z, u);
  }

  lemma BackStep(s: State, step: Step, u: nat)
    requires Enabled(s, step) && !Harms(s, step, u) && !StaysReadable(Next(s, step), u)
    ensures !StaysReadable(s, u)
  {
    hide *;
    LeadsNowhere(s, u);
    LeadsOn(s, s, step, u);
    Back(s, Next(s, step), u);
  }

  lemma {:induction false} QuietKeepsSafe(s: State, run: seq<Step>, u: nat)
    requires Safe(s) && QuietRun(s, run, u)
    ensures ValidRun(s, run) && Safe(After(s, run))
    decreases |run|
  {
    if run != [] {
      StepKeepsSafe(s, run[0]);
      hide Safe, Enabled, Next, Harms;
      QuietKeepsSafe(Next(s, run[0]), run[1..], u);
    }
  }

  lemma LeadsSafe(s: State, t: State, u: nat)
    requires Safe(s) && LeadsQuietly(s, t, u)
    ensures Safe(t)
  {
    hide Safe, ValidRun;
    var run :| QuietRun(s, run, u) && ValidRun(s, run) && After(s, run) == t;
    QuietKeepsSafe(s, run, u);
  }

  /** An unmerged row some of whose parts are missing. */
  lemma LostPart(s: State, l: nat, u: nat)
    requires Has(s, l, u) && s.locations[l].mergedAt.None? && !AllParts(s, u)
    ensures !StaysReadable(s, u)
  {
    LeadsNowhere(s, u);
    hide LeadsQuietly;
    assert !Readable(s, s.locations[l]);
    assert !AllReadable(s, u);
  }

  ghost predicate Nonempty(s: State, u: nat) {
    u in s.frozen && exists i :: i in s.frozen[u]
  }

  lemma FinalizedNonempty(s: State, u: nat, n: nat)
    requires Finalized(s, u, n)
    ensures Nonempty(s, u)
  {
    var i := s.history[u].completed[0];
    assert i in s.frozen[u].Keys;
    assert i in s.frozen[u];
  }

  lemma NothingLeft(s: State, u: nat)
    requires Nonempty(s, u) && PartsOf(s, u) == map[]
    ensures !AllParts(s, u)
  {
    var i :| i in s.frozen[u];
    assert i !in PartsOf(s, u);
  }

  /** Location l of folder u needs its parts, which are all there and have no gap. */
  ghost predicate Needs(s: State, l: nat, u: nat) {
    Has(s, l, u) && s.locations[l].mergedAt.None? && AllParts(s, u) && Contiguous(s, u) && Nonempty(s, u)
  }

  /** What location l needs is as it was. */
  ghost predicate Leaves(s: State, t: State, l: nat, u: nat) {
    && t.frozen == s.frozen && PartsOf(t, u) == PartsOf(s, u)
    && (l in s.locations ==> l in t.locations && t.locations[l] == s.locations[l])
  }

  lemma StillNeeds(s: State, t: State, l: nat, u: nat)
    requires Needs(s, l, u) && Leaves(s, t, l, u)
    ensures Needs(t, l, u)
  {
  }

  lemma NeedsAll(s: State, l: nat, u: nat)
    requires Needs(s, l, u)
    ensures HasFirst(PartsOf(s, u), |s.frozen[u]|)
  {
  }

  // ---------- those who delete parts ----------

  predicate Drops(x: Actor, u: nat) {
    || (x.PartsCleaner? && x.folder == u)
    || (x.Worker? && x.folder == u && (x.pc == MarkPartsDeleted || x.pc == DropParts))
  }

  /** Goroutine b deletes the parts of folder u. */
  ghost predicate Emptied(s: State, t: State, b: nat, u: nat) {
    && t.frozen == s.frozen && t.locations.Keys == s.locations.Keys && PartsOf(t, u) == map[]
    && (forall l :: l in s.locations && l in t.locations ==>
          t.locations[l].folder == s.locations[l].folder && t.locations[l].mergedAt == s.locations[l].mergedAt)
    && (forall c :: c in s.actors && c != b ==> c in t.actors && t.actors[c] == s.actors[c])
  }

  /** What goroutine b does before it deletes them. */
  ghost predicate Prepared(s: State, t: State, b: nat) {
    && t.frozen == s.frozen && t.locations.Keys == s.locations.Keys
    && (forall l :: l in s.locations && l in t.locations ==>
          t.locations[l].folder == s.locations[l].folder && t.locations[l].mergedAt == s.locations[l].mergedAt)
    && (forall c :: c in s.actors && c != b ==> c in t.actors && t.actors[c] == s.actors[c])
  }

  lemma PreparedEmptied(s: State, m: State, t: State, b: nat, u: nat)
    requires Prepared(s, m, b) && Emptied(m, t, b, u)
    ensures Emptied(s, t, b, u)
  {
  }

  lemma DropBy(s: State, b: nat, u: nat) returns (t: State)
    requires b in s.actors && Drops(s.actors[b], u)
    ensures LeadsQuietly(s, t, u) && Emptied(s, t, b, u)
  {
    if s.actors[b].Worker? {
      t := WorkerDrops(s, b, u);
    } else {
      t := CleanerDrops(s, b, u);
    }
  }

  lemma WorkerDrops(s: State, w: nat, u: nat) returns (t: State)
    requires w in s.actors && s.actors[w].Worker? && Drops(s.actors[w], u)
    ensures LeadsQuietly(s, t, u) && Emptied(s, t, w, u)
  {
    hide LeadsQuietly, Emptied, Prepared, DoWork, CanWork;
    if s.actors[w].pc == MarkPartsDeleted {
      WorkerMarksParts(s, w);
      var s1 := DoWork(s, w, SetPartsDeleted(0, true));
      WorkLeads(s, w, SetPartsDeleted(0, true), u);
      WorkerDropsThem(s1, w, u);
      t := DoWork(s1, w, DropMergedParts({}, false));
      WorkLeadsOn(s, s1, w, DropMergedParts({}, false), u);
      PreparedEmptied(s, s1, t, w, u);
    } else {
      WorkerDropsThem(s, w, u);
      t := DoWork(s, w, DropMergedParts({}, false));
      WorkLeads(s, w, DropMergedParts({}, false), u);
    }
  }

  lemma WorkerMarksParts(s: State, w: nat)
    requires WorkerAt(s, w, MarkPartsDeleted)
    ensures CanWork(s, w, SetPartsDeleted(0, true))
    ensures var t := DoWork(s, w, SetPartsDeleted(0, true));
      Prepared(s, t, w) && WorkerAt(t, w, DropParts) && t.actors[w].folder == s.actors[w].folder
  {
    hide SetLocation, Prepared;
    var row := (r: Location) => r.(partsDeletedAt := Some(0));
    MarkPrepares(s, s.actors[w].loc, row, w, s.actors[w].(pc := DropParts));
  }

  /** A row is marked, but not as merged, and goroutine b moves. */
  lemma MarkPrepares(s: State, l: nat, row: Location -> Location, b: nat, x: Actor)
    requires l in s.locations ==> row(s.locations[l]).folder == s.locations[l].folder
    requires l in s.locations ==> row(s.locations[l]).mergedAt == s.locations[l].mergedAt
    ensures Prepared(s, Set(SetLocation(s, l, row), b, x), b)
  {
  }

  lemma WorkerDropsThem(s: State, w: nat, u: nat)
    requires WorkerAt(s, w, DropParts) && s.actors[w].folder == u
    ensures CanWork(s, w, DropMergedParts({}, false)) && Emptied(s, DoWork(s, w, DropMergedParts({}, false)), w, u)
  {
  }

  lemma SweepLeads(s: State, a: nat, op: SweepOp, u: nat)
    requires CanSweep(s, a, op) && !op.SweepFolder? && !op.SweepUploadFolder?
    ensures LeadsQuietly(s, DoSweep(s, a, op), u)
  {
    assert Enabled(s, SweepStep(a, op)) && Next(s, SweepStep(a, op)) == DoSweep(s, a, op);
    hide *;
    Harmless(s, SweepStep(a, op), u);
    LeadsNowhere(s, u);
    LeadsOn(s, s, SweepStep(a, op), u);
  }

  lemma StartLeads(s: State, a: nat, op: StartOp, u: nat)
    requires CanStart(s, a, op)
    ensures LeadsQuietly(s, DoStart(s, a, op), u)
  {
    assert Enabled(s, StartStep(a, op)) && Next(s, StartStep(a, op)) == DoStart(s, a, op);
    hide *;
    Harmless(s, StartStep(a, op), u);
    LeadsNowhere(s, u);
    LeadsOn(s, s, StartStep(a, op), u);
  }

  lemma CleanerDrops(s: State, a: nat, u: nat) returns (t: State)
    requires a in s.actors && s.actors[a].PartsCleaner? && s.actors[a].folder == u
    ensures LeadsQuietly(s, t, u) && Emptied(s, t, a, u)
  {
    hide LeadsQuietly, Emptied, Prepared, DoSweep, CanSweep;
    if s.actors[a].cleaning == MarkRow {
      CleanerMarksRow(s, a);
      var s1 := DoSweep(s, a, CleanMark(0, true));
      SweepLeads(s, a, CleanMark(0, true), u);
      CleanerDropsThem(s1, a, u);
      t := DoSweep(s1, a, CleanDrop({}, false));
      SweepLeads(s1, a, CleanDrop({}, false), u);
      LeadsFurther(s, s1, t, u);
      PreparedEmptied(s, s1, t, a, u);
    } else {
      CleanerDropsThem(s, a, u);
      t := DoSweep(s, a, CleanDrop({}, false));
      SweepLeads(s, a, CleanDrop({}, false), u);
    }
  }

  predicate CleanerAt(s: State, a: nat, u: nat, pc: CleanPc) {
    a in s.actors && s.actors[a].PartsCleaner? && s.actors[a].folder == u && s.actors[a].cleaning == pc
  }

  lemma CleanerMarksRow(s: State, a: nat)
    requires a in s.actors && s.actors[a].PartsCleaner? && s.actors[a].cleaning == MarkRow
    ensures CanSweep(s, a, CleanMark(0, true))
    ensures var t := DoSweep(s, a, CleanMark(0, true));
      Prepared(s, t, a) && CleanerAt(t, a, s.actors[a].folder, DropFiles)
  {
    hide SetLocation, Prepared;
    var row := (r: Location) => r.(partsDeletedAt := Some(0));
    MarkPrepares(s, s.actors[a].loc, row, a, s.actors[a].(cleaning := DropFiles));
  }

  lemma CleanerDropsThem(s: State, a: nat, u: nat)
    requires CleanerAt(s, a, u, DropFiles)
    ensures CanSweep(s, a, CleanDrop({}, false)) && Emptied(s, DoSweep(s, a, CleanDrop({}, false)), a, u)
  {
  }

  /** CleanupParts lists a merged row whose parts are not marked as deleted. */
  lemma List(s: State, l: nat, u: nat) returns (t: State, c: nat)
    requires Has(s, l, u) && s.locations[l].mergedAt.Some? && s.locations[l].partsDeletedAt.None?
    ensures LeadsQuietly(s, t, u) && c !in s.actors && t == Set(s, c, PartsCleaner(l, u, MarkRow))
  {
    c := Unused(s.actors.Keys);
    t := DoStart(s, c, ListMerged(l));
    StartLeads(s, c, ListMerged(l), u);
  }

  lemma DropperBreaks(s: State, b: nat, l: nat, u: nat)
    requires Needs(s, l, u) && b in s.actors && Drops(s.actors[b], u)
    ensures !StaysReadable(s, u)
  {
    hide StaysReadable, LeadsQuietly, PartsOf, Drops;
    var t := DropBy(s, b, u);
    NothingLeft(t, u);
    LostPart(t, l, u);
    Back(s, t, u);
  }

  lemma CleanableBreaks(s: State, k: nat, l: nat, u: nat)
    requires Needs(s, l, u) && Has(s, k, u) && s.locations[k].mergedAt.Some? && s.locations[k].partsDeletedAt.None?
    ensures !StaysReadable(s, u)
  {
    hide StaysReadable, LeadsQuietly, PartsOf, Needs;
    var t, c := List(s, k, u);
    ProtocolRuns.SetParts(s, c, PartsCleaner(k, u, MarkRow), u);
    StillNeeds(s, t, l, u);
    DropperBreaks(t, c, l, u);
    Back(s, t, u);
  }

  // ---------- those who will delete parts once they have merged ----------

  predicate OtherWorker(s: State, w: nat, l: nat, u: nat, pc: WorkerPc) {
    w in s.actors && s.actors[w].Worker? && s.actors[w].folder == u && s.actors[w].loc != l && s.actors[w].pc == pc
  }

  lemma MergedWorkerBreaks(s: State, w: nat, l: nat, u: nat)
    requires Needs(s, l, u) && OtherWorker(s, w, l, u, MarkMerged)
    ensures !StaysReadable(s, u)
  {
    var t := DoWork(s, w, SetMerged(0, true, true));
    MergedStep(s, w, l, u);
    hide *;
    WorkLeads(s, w, SetMerged(0, true, true), u);
    StillNeeds(s, t, l, u);
    DropperBreaks(t, w, l, u);
    Back(s, t, u);
  }

  lemma MergedStep(s: State, w: nat, l: nat, u: nat)
    requires OtherWorker(s, w, l, u, MarkMerged)
    ensures CanWork(s, w, SetMerged(0, true, true))
    ensures var t := DoWork(s, w, SetMerged(0, true, true));
      Leaves(s, t, l, u) && w in t.actors && Drops(t.actors[w], u)
  {
    hide SetLocation, Leaves;
    var row := (r: Location) => r.(mergedAt := Some(0));
    MarkLeaves(s, s.actors[w].loc, row, w, s.actors[w].(pc := MarkPartsDeleted), l, u);
  }

  lemma MarkLeaves(s: State, k: nat, row: Location -> Location, b: nat, x: Actor, l: nat, u: nat)
    requires k != l
    ensures Leaves(s, Set(SetLocation(s, k, row), b, x), l, u)
  {
    hide SetLocation, Set, PartsOf;
    var m := SetLocation(s, k, row);
    SetLocationRest(s, k, row);
    SameParts(s, m, u);
    ProtocolAvailability.SetParts(m, b, x, u);
    if l in s.locations {
      SetLocationRow(s, k, row, l);
    }
  }

  lemma StoringBreaks(s: State, w: nat, l: nat, u: nat)
    requires Needs(s, l, u) && OtherWorker(s, w, l, u, Uploading) && CanWork(s, w, PutMerged(true))
    ensures !StaysReadable(s, u)
  {
    var t := DoWork(s, w, PutMerged(true));
    StoredStep(s, w, l, u);
    hide *;
    WorkLeads(s, w, PutMerged(true), u);
    StillNeeds(s, t, l, u);
    MergedWorkerBreaks(t, w, l, u);
    Back(s, t, u);
  }

  lemma StoredStep(s: State, w: nat, l: nat, u: nat)
    requires OtherWorker(s, w, l, u, Uploading) && CanWork(s, w, PutMerged(true))
    ensures var t := DoWork(s, w, PutMerged(true)); Leaves(s, t, l, u) && OtherWorker(t, w, l, u, MarkMerged)
  {
  }

  /** A copier in the middle of a part finishes it. */
  lemma FinishPart(s: State, a: nat, c: Stream, u: nat) returns (d: Stream)
    requires c.lockstep && c.end == Running && c.folder in s.frozen && StreamOk(s.frozen[c.folder], c)
    ensures Between(d) && SameStream(c, d) && LeadsQuietly(Set(s, a, Copier(c)), Set(s, a, Copier(d)), u)
  {
    var parts := PartsOf(s, c.folder);
    hide LeadsQuietly, PartsOf, Set;
    if !c.open {
      d := c;
      LeadsNowhere(Set(s, a, Copier(c)), u);
    } else {
      var c1 := CatchUp(s, a, c, u);
      var n := |c1.rest|;
      if n == 0 {
        CopyLeadsOn(s, a, c, c1, ClosePart, u);
        d := DoCopy(c1, parts, ClosePart);
      } else {
        CopyLeadsOn(s, a, c, c1, ReadChunk(n), u);
        var c2 := DoCopy(c1, parts, ReadChunk(n));
        assert c1.rest[..n] == c1.rest && c2.rest == [];
        var c3 := CatchUp(s, a, c2, u);
        LeadsFurther(Set(s, a, Copier(c)), Set(s, a, Copier(c2)), Set(s, a, Copier(c3)), u);
        CopyLeadsOn(s, a, c, c3, ClosePart, u);
        d := DoCopy(c3, parts, ClosePart);
      }
    }
  }

  /** Both pipes take what was read. */
  lemma CatchUp(s: State, a: nat, c: Stream, u: nat) returns (d: Stream)
    requires c.lockstep && c.end == Running && c.client <= c.read && c.merge <= c.client
    ensures d == c.(client := c.read, merge := c.read)
    ensures LeadsQuietly(Set(s, a, Copier(c)), Set(s, a, Copier(d)), u)
  {
    var parts := PartsOf(s, c.folder);
    hide LeadsQuietly, PartsOf, Set;
    var k := |c.read| - |c.client|;
    var c1 := DoCopy(c, parts, ClientTake(k));
    CopyLeads(s, a, c, ClientTake(k), u);
    assert c1.client == c.read;
    var m := |c.read| - |c.merge|;
    CopyLeadsOn(s, a, c, c1, MergeTake(m), u);
    d := DoCopy(c1, parts, MergeTake(m));
    assert d.merge == c.read;
  }

  /** A worker whose copier may still reach the end. */
  lemma CopyingBreaks(s: State, w: nat, l: nat, u: nat)
    requires Safe(s) && Needs(s, l, u) && OtherWorker(s, w, l, u, Uploading) && !Doomed(s, s.actors[w])
    ensures !StaysReadable(s, u)
  {
    CopierOf(s, w, u);
    var a := s.actors[w].copier;
    var c := s.actors[a].stream;
    if c.end == CleanEof {
      StoringBreaks(s, w, l, u);
    } else {
      NeedsAll(s, l, u);
      assert c.end == Running && OtherWorker(s, w, l, u, Uploading);
      hide LeadsQuietly, Needs, StaysReadable, PartsOf, Safe, StreamOk, HasFirst, CanWork, Doomed, Set, Between, Leaves;
      var c1 := FinishPart(s, a, c, u);
      var c2 := CopyAll(s, a, c1, u);
      var t := Set(s, a, Copier(c2));
      SetSelf(s, a);
      LeadsFurther(s, Set(s, a, Copier(c1)), t, u);
      MovedLeaves(s, a, Copier(c2), l, u);
      StillNeeds(s, t, l, u);
      CopiedStep(s, a, c2, w, l, u);
      StoringBreaks(t, w, l, u);
      Back(s, t, u);
    }
  }

  lemma CopiedStep(s: State, a: nat, c: Stream, w: nat, l: nat, u: nat)
    requires OtherWorker(s, w, l, u, Uploading) && s.actors[w].copier == a && a != w && c.end == CleanEof
    ensures OtherWorker(Set(s, a, Copier(c)), w, l, u, Uploading) && CanWork(Set(s, a, Copier(c)), w, PutMerged(true))
  {
  }

  lemma SetSelf(s: State, a: nat)
    requires a in s.actors
    ensures Set(s, a, s.actors[a]) == s
  {
    assert s.actors[a := s.actors[a]] == s.actors;
  }

  lemma CopierOf(s: State, w: nat, u: nat)
    requires Safe(s) && w in s.actors && s.actors[w].Worker? && s.actors[w].folder == u
    ensures var a := s.actors[w].copier;
      && a in s.actors && s.actors[a].Copier? && s.actors[a].stream.lockstep && s.actors[a].stream.folder == u
      && u in s.frozen && StreamOk(s.frozen[u], s.actors[a].stream) && s.actors[a].stream.partCount == |s.frozen[u]|
  {
    assert ActorOk(s, s.actors[w]) && ActorOk(s, s.actors[s.actors[w].copier]);
  }

  // ---------- downloads of another location, even of a deleted one ----------

  predicate OtherDownload(s: State, a: nat, l: nat, u: nat, at: DownloadPc) {
    a in s.actors && s.actors[a].Downloader? && s.actors[a].folder == u && s.actors[a].loc != l && s.actors[a].at == at
  }

  lemma RegisterBreaks(s: State, a: nat, l: nat, u: nat)
    requires Safe(s) && Needs(s, l, u) && OtherDownload(s, a, l, u, Register)
    ensures !StaysReadable(s, u)
  {
    hide LeadsQuietly, Needs, StaysReadable, PartsOf, Safe, Beside;
    var w := Unused(s.actors.Keys);
    var t := SpawnWorker(s, a, w, s.actors[a].loc, u);
    BesideEntries(s, t, s.actors[a].loc, {a, w});
    LeadsSafe(s, t, u);
    StillNeeds(s, t, l, u);
    CopyingBreaks(t, w, l, u);
    Back(s, t, u);
  }

  /** The mark of a location that is gone has no effect. */
  lemma MarkingBreaks(s: State, a: nat, l: nat, u: nat)
    requires OtherDownload(s, a, l, u, MarkStarted)
    requires Safe(s) && Needs(s, l, u) && s.actors[a].loc !in s.locations
    ensures !StaysReadable(s, u)
  {
    hide Safe, Needs, StaysReadable, Harms, Enabled, Next, Leaves, Set;
    var step := DownloadStep(a, MarkMergeStarted(0));
    var t := Set(s, a, s.actors[a].(at := Register));
    MarkGone(s, a, l, u);
    MovedLeaves(s, a, s.actors[a].(at := Register), l, u);
    StillNeeds(s, t, l, u);
    StepKeepsSafe(s, step);
    RegisterBreaks(t, a, l, u);
    BackStep(s, step, u);
  }

  lemma MarkGone(s: State, a: nat, l: nat, u: nat)
    requires OtherDownload(s, a, l, u, MarkStarted) && s.actors[a].loc !in s.locations
    ensures var step, t := DownloadStep(a, MarkMergeStarted(0)), Set(s, a, s.actors[a].(at := Register));
      Enabled(s, step) && Next(s, step) == t && !Harms(s, step, u) && OtherDownload(t, a, l, u, Register)
  {
  }

  lemma MovedLeaves(s: State, a: nat, x: Actor, l: nat, u: nat)
    ensures Leaves(s, Set(s, a, x), l, u)
  {
  }

  /** A sweep deletes the row of another location. */
  lemma SweepOther(s: State, k: nat, u: nat) returns (t: State, c: nat)
    requires k in s.locations
    ensures LeadsQuietly(s, t, u) && k !in t.locations && t.frozen == s.frozen && PartsOf(t, u) == PartsOf(s, u)
    ensures forall l :: l in s.locations && l != k ==> l in t.locations && t.locations[l] == s.locations[l]
    ensures forall b :: b in s.actors ==> b in t.actors && t.actors[b] == s.actors[b]
  {
    hide Harms, LeadsQuietly, DoStart, DoSweep, CanSweep, PartsOf;
    c := Unused(s.actors.Keys);
    ListedStep(s, k, c);
    var s1 := DoStart(s, c, ListLocation(k));
    SweptStep(s1, k, c, u);
    t := DoSweep(s1, c, SweepRow(true));
    ProtocolRuns.SetParts(s, c, Sweeper(k, s.locations[k].folder, DropRow), u);
    StartLeads(s, c, ListLocation(k), u);
    SweepLeads(s1, c, SweepRow(true), u);
    LeadsFurther(s, s1, t, u);
  }

  lemma ListedStep(s: State, k: nat, c: nat)
    requires k in s.locations && c !in s.actors
    ensures CanStart(s, c, ListLocation(k))
    ensures DoStart(s, c, ListLocation(k)) == Set(s, c, Sweeper(k, s.locations[k].folder, DropRow))
  {
  }

  lemma SweptStep(s: State, k: nat, c: nat, u: nat)
    requires c in s.actors && s.actors[c].Sweeper? && s.actors[c].loc == k && s.actors[c].dropping == DropRow
    ensures CanSweep(s, c, SweepRow(true))
    ensures var t := DoSweep(s, c, SweepRow(true));
      && t.locations == s.locations - {k} && t.frozen == s.frozen && PartsOf(t, u) == PartsOf(s, u)
      && (forall b :: b in s.actors && b != c ==> b in t.actors && t.actors[b] == s.actors[b])
  {
  }

  lemma UnmarkedBreaks(s: State, a: nat, l: nat, u: nat)
    requires Safe(s) && Needs(s, l, u) && OtherDownload(s, a, l, u, MarkStarted)
    ensures !StaysReadable(s, u)
  {
    hide LeadsQuietly, Needs, StaysReadable, PartsOf, Safe;
    var k := s.actors[a].loc;
    if k in s.locations {
      var t, c := SweepOther(s, k, u);
      LeadsSafe(s, t, u);
      StillNeeds(s, t, l, u);
      MarkingBreaks(t, a, l, u);
      Back(s, t, u);
    } else {
      MarkingBreaks(s, a, l, u);
    }
  }

  lemma UncheckedBreaks(s: State, a: nat, l: nat, u: nat)
    requires Safe(s) && Needs(s, l, u) && OtherDownload(s, a, l, u, CheckParts)
    ensures !StaysReadable(s, u)
  {
    hide Safe, AllParts, PartsOf, StaysReadable, Harms, Enabled, Next, Leaves, Contiguous, Set;
    var step := DownloadStep(a, CheckAllParts);
    var x := s.actors[a].(at := MarkStarted);
    EnoughThere(s, a, u);
    CheckedStep(s, a, u);
    assert OtherDownload(Set(s, a, x), a, l, u, MarkStarted) by { SetIs(s, a, x); }
    Harmless(s, step, u);
    MovedLeaves(s, a, x, l, u);
    StillNeeds(s, Set(s, a, x), l, u);
    StepKeepsSafe(s, step);
    UnmarkedBreaks(Set(s, a, x), a, l, u);
    BackStep(s, step, u);
  }

  lemma CheckedStep(s: State, a: nat, u: nat)
    requires a in s.actors && s.actors[a].Downloader? && s.actors[a].folder == u && s.actors[a].at == CheckParts
    requires |PartsOf(s, u)| >= s.actors[a].partCount
    ensures var step := DownloadStep(a, CheckAllParts);
      Enabled(s, step) && Next(s, step) == Set(s, a, s.actors[a].(at := MarkStarted))
  {
  }

  lemma SetIs(s: State, a: nat, x: Actor)
    ensures Set(s, a, x).actors == s.actors[a := x]
  {
  }

  lemma EnoughThere(s: State, a: nat, u: nat)
    requires Safe(s) && AllParts(s, u) && a in s.actors && s.actors[a].Downloader? && s.actors[a].folder == u
    ensures |PartsOf(s, u)| >= s.actors[a].partCount
  {
    assert ActorOk(s, s.actors[a]) && FrozenOk(s, u);
    ExactSize(PartsOf(s, u), s.frozen[u]);
  }

  // ---------- a merged row that is taken back ----------

  predicate Registers(s: State, a: nat, l: nat, u: nat) {
    a in s.actors && s.actors[a].Downloader? && s.actors[a].at == Register && s.actors[a].loc == l
    && s.actors[a].folder == u
  }

  /** The worker of a marked location fails: an archive of which parts are missing is unmerged. */
  lemma TakenBack(s: State, a: nat, l: nat, u: nat)
    requires Registers(s, a, l, u) && Has(s, l, u) && !AllParts(s, u)
    ensures !StaysReadable(s, u)
  {
    hide LeadsQuietly, StaysReadable, PartsOf, Beside;
    var w := Unused(s.actors.Keys);
    var s1 := SpawnWorker(s, a, w, l, u);
    BesideEntries(s, s1, l, {a, w});
    var s2 := FailingMerge(s1, w, l, u);
    BesideEntries(s1, s2, l, {w});
    LeadsFurther(s, s1, s2, u);
    LostPart(s2, l, u);
    Back(s, s2, u);
  }

  lemma DroppedAndTakenBack(s: State, a: nat, b: nat, l: nat, u: nat)
    requires Registers(s, a, l, u) && Has(s, l, u) && Nonempty(s, u) && b in s.actors && Drops(s.actors[b], u)
    ensures !StaysReadable(s, u)
  {
    assert b != a;
    hide LeadsQuietly, StaysReadable, PartsOf, Drops;
    var t := DropBy(s, b, u);
    NothingLeft(t, u);
    TakenBack(t, a, l, u);
    Back(s, t, u);
  }

  lemma CleanedAndTakenBack(s: State, a: nat, l: nat, u: nat)
    requires Registers(s, a, l, u) && Has(s, l, u) && Nonempty(s, u)
    requires s.locations[l].mergedAt.Some? && s.locations[l].partsDeletedAt.None?
    ensures !StaysReadable(s, u)
  {
    hide LeadsQuietly, StaysReadable, PartsOf;
    var t, c := List(s, l, u);
    DroppedAndTakenBack(t, a, c, l, u);
    Back(s, t, u);
  }

  // ---------- two merges of one location ----------

  /** Goroutines a and b merge the same location: one of them completes its merge and deletes the parts, and then
      the other one fails. */
  lemma OverlapBreaks(s: State, a: nat, b: nat, l: nat, u: nat)
    requires Registers(s, a, l, u) && Has(s, l, u) && HasFirst(PartsOf(s, u), s.actors[a].partCount) && Nonempty(s, u)
    requires b in s.actors && b != a && Merges(s.actors[b], u) && HeldLocation(s.actors[b]) == l
    ensures !StaysReadable(s, u)
  {
    hide LeadsQuietly, StaysReadable, Beside, PartsOf;
    var s1, v := ItsWorker(s, b, l, u);
    BesideEntries(s, s1, l, {b, v});
    OthersStay(s, s1, l, b, v, a);
    var w := Unused(s1.actors.Keys);
    var s2 := SpawnWorker(s1, a, w, l, u);
    BesideEntries(s1, s2, l, {a, w});
    OthersStay(s1, s2, l, a, w, v);
    LeadsFurther(s, s1, s2, u);
    BothBreak(s2, w, v, l, u);
    Back(s, s2, u);
  }

  lemma BothBreak(s: State, w: nat, v: nat, l: nat, u: nat)
    requires WorkerOf(s, w, l, u) && WorkerReady(s, w, s.actors[w].copier, l, u) && v != w
    requires Has(s, l, u) && Nonempty(s, u)
    requires WorkerOf(s, v, l, u) && MergingPc(s.actors[v].pc)
    ensures !StaysReadable(s, u)
  {
    hide LeadsQuietly, StaysReadable, PartsOf;
    var t := OneFails(s, w, v, l, u);
    NothingLeft(t, u);
    LostPart(t, l, u);
    Back(s, t, u);
  }

  /** A new download of a location that goroutine b is merging. */
  lemma ReopenedBreaks(s: State, e: nat, l: nat, u: nat, b: nat)
    requires Fresh(s, e, l, u) && b in s.actors && Merges(s.actors[b], u) && HeldLocation(s.actors[b]) == l
    requires Nonempty(s, u)
    ensures !StaysReadable(s, u)
  {
    hide StaysReadable, LeadsQuietly, PartsOf, Beside;
    var s1, v := ItsWorker(s, b, l, u);
    BesideEntries(s, s1, l, {b, v});
    var a := Unused(s1.actors.Keys);
    var w := Unused(s1.actors.Keys + {a});
    var s2 := NewDownload(s1, e, l, u, a, w);
    BesideEntries(s1, s2, l, {a, w});
    OthersStay(s1, s2, l, a, w, v);
    LeadsFurther(s, s1, s2, u);
    BothBreak(s2, w, v, l, u);
    Back(s, s2, u);
  }

  /** A download that is about to mark it. */
  lemma MarkAgainBreaks(s: State, a: nat, l: nat, u: nat, b: nat)
    requires Needs(s, l, u) && s.locations[l].mergeStartedAt.None?
    requires a in s.actors && s.actors[a].Downloader? && s.actors[a].loc == l && s.actors[a].folder == u
    requires s.actors[a].at == MarkStarted && s.actors[a].partCount == |s.frozen[u]|
    requires b in s.actors && Merges(s.actors[b], u) && HeldLocation(s.actors[b]) == l
    ensures !StaysReadable(s, u)
  {
    var step := DownloadStep(a, MarkMergeStarted(0));
    var t := DoDownload(s, a, MarkMergeStarted(0));
    assert a != b;
    assert Enabled(s, step) && Next(s, step) == t && !Harms(s, step, u);
    NeedsAll(s, l, u);
    MarkSetsRow(s, a, 0);
    SameParts(s, t, u);
    hide StaysReadable, Harms, LeadsQuietly, PartsOf, Enabled, Next, DoDownload, HasFirst;
    OverlapBreaks(t, a, b, l, u);
    BackStep(s, step, u);
  }

  lemma OkActor(s: State, a: nat)
    requires Safe(s) && a in s.actors
    ensures ActorOk(s, s.actors[a])
  {
  }

  lemma DownloadsHere(s: State, a: nat, l: nat, u: nat)
    requires Safe(s) && Needs(s, l, u) && a in s.actors && s.actors[a].Downloader? && s.actors[a].loc == l
    ensures s.actors[a].folder == u && s.actors[a].partCount == |s.frozen[u]|
  {
    OkActor(s, a);
  }

  lemma CheckAgainBreaks(s: State, a: nat, l: nat, u: nat, b: nat)
    requires Safe(s) && Needs(s, l, u) && s.locations[l].mergeStartedAt.None?
    requires a in s.actors && s.actors[a].Downloader? && s.actors[a].loc == l && s.actors[a].at == CheckParts
    requires b in s.actors && Merges(s.actors[b], u) && HeldLocation(s.actors[b]) == l
    ensures !StaysReadable(s, u)
  {
    var step := DownloadStep(a, CheckAllParts);
    var x := s.actors[a].(at := MarkStarted);
    assert a != b;
    DownloadsHere(s, a, l, u);
    EnoughThere(s, a, u);
    CheckedStep(s, a, u);
    hide StaysReadable, Harms, LeadsQuietly, PartsOf, Enabled, Next, Safe, Leaves;
    Harmless(s, step, u);
    MovedLeaves(s, a, x, l, u);
    StillNeeds(s, Set(s, a, x), l, u);
    MarkAgainBreaks(Set(s, a, x), a, l, u, b);
    BackStep(s, step, u);
  }

  // ---------- pointing an entry to a location ----------

  lemma FinalizeLeads(s: State, f: nat, op: FinalizeOp, u: nat)
    requires CanFinalize(s, f, op) && !op.AddLocation? && !op.DropOldFiles?
    ensures LeadsQuietly(s, DoFinalize(s, f, op), u)
  {
    assert Enabled(s, FinalizeStep(f, op)) && Next(s, FinalizeStep(f, op)) == DoFinalize(s, f, op);
    hide *;
    Harmless(s, FinalizeStep(f, op), u);
    LeadsNowhere(s, u);
    LeadsOn(s, s, FinalizeStep(f, op), u);
  }

  /** Only entries and goroutine f change. */
  ghost predicate Pointed(s: State, t: State, f: nat) {
    && t.locations == s.locations && t.parts == s.parts && t.frozen == s.frozen
    && (forall b :: b in s.actors && b != f ==> b in t.actors && t.actors[b] == s.actors[b])
  }

  /** Goroutine f points some entry to location l. */
  lemma PointEntry(s: State, f: nat, l: nat, u: nat) returns (t: State, e: nat)
    requires EntriesOk(s) && f in s.actors && Points(s, s.actors[f], l) && l in s.locations
    ensures LeadsQuietly(s, t, u) && Pointed(s, t, f) && e in t.entries && t.entries[e].location == l
  {
    var x := s.actors[f];
    if x.step.FindExisting? {
      hide LeadsQuietly;
      var s1 := LookFor(s, f, l, u);
      t, e := PointNow(s1, f, l, u);
      LeadsFurther(s, s1, t, u);
    } else {
      t, e := PointNow(s, f, l, u);
    }
  }

  lemma LookFor(s: State, f: nat, l: nat, u: nat) returns (t: State)
    requires EntriesOk(s) && f in s.actors && s.actors[f].Finalizer? && s.actors[f].step == FindExisting(l)
    ensures LeadsQuietly(s, t, u) && Pointed(s, t, f) && f in t.actors && Points(t, t.actors[f], l)
    ensures !t.actors[f].step.FindExisting?
  {
    var key := s.actors[f].key;
    if d :| d in s.entries && s.entries[d].key == key {
      assert EntryOk(s, d);
      hide EntriesOk, EntryOk, LeadsQuietly, DoFinalize, CanFinalize;
      t := DoFinalize(s, f, LookExisting(Some(d)));
      FoundStep(s, f, l, Some(d));
      FinalizeLeads(s, f, LookExisting(Some(d)), u);
    } else {
      t := DoFinalize(s, f, LookExisting(None));
      FoundStep(s, f, l, None);
      FinalizeLeads(s, f, LookExisting(None), u);
    }
  }

  lemma FoundStep(s: State, f: nat, l: nat, found: Option<nat>)
    requires f in s.actors && s.actors[f].Finalizer? && s.actors[f].step == FindExisting(l)
    requires CanFinalize(s, f, LookExisting(found))
    ensures var t := DoFinalize(s, f, LookExisting(found));
      Pointed(s, t, f) && f in t.actors && Points(t, t.actors[f], l) && !t.actors[f].step.FindExisting?
  {
  }

  lemma PointNow(s: State, f: nat, l: nat, u: nat) returns (t: State, e: nat)
    requires f in s.actors && Points(s, s.actors[f], l) && !s.actors[f].step.FindExisting? && l in s.locations
    ensures LeadsQuietly(s, t, u) && Pointed(s, t, f) && e in t.entries && t.entries[e].location == l
  {
    hide LeadsQuietly, DoFinalize, CanFinalize;
    if s.actors[f].step.Repoint? {
      e := s.actors[f].step.entry;
      PointStep(s, f, l, RepointEntry(0), e);
      t := DoFinalize(s, f, RepointEntry(0));
      FinalizeLeads(s, f, RepointEntry(0), u);
    } else {
      e := Unused(s.usedEntries);
      PointStep(s, f, l, AddEntry(e, 0), e);
      t := DoFinalize(s, f, AddEntry(e, 0));
      FinalizeLeads(s, f, AddEntry(e, 0), u);
    }
  }

  lemma PointStep(s: State, f: nat, l: nat, op: FinalizeOp, e: nat)
    requires f in s.actors && Points(s, s.actors[f], l) && l in s.locations
    requires || (s.actors[f].step.Repoint? && op.RepointEntry? && e == s.actors[f].step.entry)
             || (s.actors[f].step.InsertEntry? && op.AddEntry? && e == op.e && e !in s.usedEntries)
    ensures CanFinalize(s, f, op)
    ensures var t := DoFinalize(s, f, op); Pointed(s, t, f) && e in t.entries && t.entries[e].location == l
  {
  }

  predicate Unstarted(r: Location) {
    r.mergeStartedAt.None? && r.mergedAt.None? && r.partsDeletedAt.None?
  }

  /** An entry of a location on which no merge has begun, all of whose parts are there. */
  lemma FreshNow(s: State, e: nat, l: nat, u: nat)
    requires Safe(s) && Needs(s, l, u) && Unstarted(s.locations[l])
    requires e in s.entries && s.entries[e].location == l
    ensures Fresh(s, e, l, u)
  {
    assert Finalized(s, u, s.locations[l].partCount) && FrozenOk(s, u);
    NeedsAll(s, l, u);
    ExactSize(PartsOf(s, u), s.frozen[u]);
  }

  /** A second unmerged location: the new one is downloaded and merged. */
  lemma SecondBreaks(s: State, f: nat, k: nat, l: nat, u: nat)
    requires Safe(s) && Needs(s, l, u) && Unstarted(s.locations[l]) && Has(s, k, u) && k != l
    requires s.locations[k].mergedAt.None? && f in s.actors && Points(s, s.actors[f], l)
    ensures !StaysReadable(s, u)
  {
    assert EntriesOk(s);
    hide LeadsQuietly, Needs, StaysReadable, PartsOf, Safe, Points;
    assert Has(s, l, u) && Nonempty(s, u) by { NeedsHas(s, l, u); }
    var s1, e := PointEntry(s, f, l, u);
    LeadsSafe(s, s1, u);
    SameParts(s, s1, u);
    StillNeeds(s, s1, l, u);
    FreshNow(s1, e, l, u);
    MergeEmpties(s1, e, k, l, u);
    Back(s, s1, u);
  }

  lemma NeedsHas(s: State, l: nat, u: nat)
    requires Needs(s, l, u)
    ensures Has(s, l, u) && Nonempty(s, u)
  {
  }

  lemma MergeEmpties(s: State, e: nat, k: nat, l: nat, u: nat)
    requires Fresh(s, e, l, u) && Nonempty(s, u) && Has(s, k, u) && k != l && s.locations[k].mergedAt.None?
    ensures !StaysReadable(s, u)
  {
    hide LeadsQuietly, StaysReadable, PartsOf, Fresh;
    var a := Unused(s.actors.Keys);
    var w := Unused(s.actors.Keys + {a});
    var s1 := NewDownload(s, e, l, u, a, w);
    var s2 := CompleteMerge(s1, w, l, u);
    LeadsFurther(s, s1, s2, u);
    NothingLeft(s2, u);
    LostPart(s2, k, u);
    Back(s, s2, u);
  }

  /** A worker of another, merged location that may fail makes it a second unmerged one. */
  lemma ResettingBreaks(s: State, f: nat, w: nat, k: nat, l: nat, u: nat)
    requires Safe(s) && Needs(s, l, u) && Unstarted(s.locations[l]) && Has(s, k, u) && k != l && WorkerOf(s, w, k, u)
    requires s.actors[w].pc == Uploading || s.actors[w].pc == Resetting
    requires f in s.actors && Points(s, s.actors[f], l)
    ensures !StaysReadable(s, u)
  {
    assert f != w && Points(s, s.actors[f], l);
    hide LeadsQuietly, Needs, StaysReadable, PartsOf, Safe, Points, Beside;
    NeedsHas(s, l, u);
    var t := FailingMerge(s, w, k, u);
    BesideEntries(s, t, k, {w});
    BesideOther(s, t, k, w, f, l);
    PointsStill(s, t, s.actors[f], l);
    LeadsSafe(s, t, u);
    StillNeeds(s, t, l, u);
    SecondBreaks(t, f, k, l, u);
    Back(s, t, u);
  }

  lemma BesideOther(s: State, t: State, k: nat, w: nat, f: nat, l: nat)
    requires Beside(s, t, k, {w}) && f in s.actors && f != w && l in s.locations && l != k
    ensures f in t.actors && t.actors[f] == s.actors[f] && l in t.locations && t.locations[l] == s.locations[l]
  {
  }

  lemma PointsStill(s: State, t: State, x: Actor, l: nat)
    requires Points(s, x, l) && t.entries == s.entries
    ensures Points(t, x, l)
  {
  }
}
