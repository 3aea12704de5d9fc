/** The registry of ongoing merges, and a race in it that merge exclusivity does not exclude. */
module ProtocolRegistry {
  import opened Protocol
  import opened ProtocolAvailability
  import opened ProtocolRaces
  import opened ProtocolRuns
  import opened ProtocolSafety

  /** A worker of location l that has not yet removed itself from the registry. */
  predicate Registered(x: Actor, l: nat) {
    x.Worker? && x.loc == l && x.pc != Closing && x.pc != Closed
  }

  /** The registry lists exactly the workers whose object and table steps may still be running. */
  ghost predicate Agreement(s: State) {
    && (forall w :: w in s.actors && s.actors[w].Worker? && Registered(s.actors[w], s.actors[w].loc) ==>
      s.actors[w].loc in s.merges && s.merges[s.actors[w].loc] == w)
    && (forall l :: l in s.merges ==> s.merges[l] in s.actors && Registered(s.actors[s.merges[l]], l))
  }

  /** A registration overwrites the entry of another worker of the same location. */
  predicate Overwrites(s: State, step: Step) {
    step.DownloadStep? && step.download.SpawnMerge? && step.a in s.actors && s.actors[step.a].Downloader?
    && s.actors[step.a].loc in s.merges
  }

  /** Registration status of the goroutines and the registry itself stay as they are. */
  ghost predicate SameRegistry(s: State, t: State) {
    && t.merges == s.merges
    && (forall w, l :: w in t.actors && Registered(t.actors[w], l) ==> w in s.actors && Registered(s.actors[w], l))
    && (forall w, l :: w in s.actors && Registered(s.actors[w], l) ==> w in t.actors && Registered(t.actors[w], l))
  }

  lemma SameRegistryKeeps(s: State, t: State)
    requires Agreement(s) && SameRegistry(s, t)
    ensures Agreement(t)
  {
    forall w | w in t.actors && t.actors[w].Worker? && Registered(t.actors[w], t.actors[w].loc)
      ensures t.actors[w].loc in t.merges && t.merges[t.actors[w].loc] == w
    {
      assert Registered(s.actors[w], t.actors[w].loc);
    }
  }

  /** Goroutine a, not a registered worker, becomes x, not one either. */
  lemma BystanderMoves(s: State, m: State, a: nat, x: Actor)
    requires Agreement(s) && m.actors == s.actors && m.merges == s.merges && !x.Worker?
    requires a in s.actors ==> !s.actors[a].Worker?
    ensures Agreement(Set(m, a, x))
  {
    assert SameRegistry(s, Set(m, a, x));
    hide Agreement, SameRegistry;
    SameRegistryKeeps(s, Set(m, a, x));
  }

  lemma StartAgrees(s: State, a: nat, op: StartOp)
    requires Agreement(s) && CanStart(s, a, op)
    ensures Agreement(DoStart(s, a, op))
  {
    hide Agreement;
    BystanderMoves(s, StartEffect(s, op), a, StartMove(s, a, op));
  }

  lemma PartAgrees(s: State, a: nat, op: PartOp)
    requires Agreement(s) && CanPart(s, a, op)
    ensures Agreement(DoPart(s, a, op))
  {
    hide Agreement;
    BystanderMoves(s, PartEffect(s, a, op), a, if op.StorePart? then s.actors[a].(stored := true) else Ended);
  }

  lemma FinalizeAgrees(s: State, a: nat, op: FinalizeOp)
    requires Agreement(s) && CanFinalize(s, a, op)
    ensures Agreement(DoFinalize(s, a, op))
  {
    hide Agreement;
    BystanderMoves(s, FinalizeEffect(s, a, op), a, FinalizeMove(s, a, op));
  }

  lemma SweepQuiet(s: State, a: nat, op: SweepOp)
    requires CanSweep(s, a, op)
    ensures a in s.actors && !s.actors[a].Worker?
    ensures DoSweep(s, a, op) == Set(SweepEffect(s, a, op), a, SweepMove(s.actors[a], op))
    ensures SweepEffect(s, a, op).actors == s.actors && SweepEffect(s, a, op).merges == s.merges
    ensures !SweepMove(s.actors[a], op).Worker?
  {
  }

  lemma SweepAgrees(s: State, a: nat, op: SweepOp)
    requires Agreement(s) && CanSweep(s, a, op)
    ensures Agreement(DoSweep(s, a, op))
  {
    hide Agreement, DoSweep, SweepEffect, SweepMove, Set;
    SweepQuiet(s, a, op);
    BystanderMoves(s, SweepEffect(s, a, op), a, SweepMove(s.actors[a], op));
  }

  lemma CopyAgrees(s: State, a: nat, op: CopyOp)
    requires Agreement(s) && a in s.actors && s.actors[a].Copier? && CanCopy(s.actors[a].stream, op)
    ensures Agreement(DoCopyStep(s, a, op))
  {
    hide Agreement, DoCopy;
    BystanderMoves(s, s, a, Copier(DoCopy(s.actors[a].stream, PartsOf(s, s.actors[a].stream.folder), op)));
  }

  lemma DownloadQuiet(s: State, a: nat, op: DownloadOp)
    requires CanDownload(s, a, op) && !op.SpawnMerge?
    ensures a in s.actors && !s.actors[a].Worker?
    ensures DoDownload(s, a, op) == Set(DownloadEffect(s, a, op), a, DownloadMove(s, a, op))
    ensures DownloadEffect(s, a, op).actors == s.actors && DownloadEffect(s, a, op).merges == s.merges
    ensures !DownloadMove(s, a, op).Worker?
  {
  }

  lemma DownloadAgrees(s: State, a: nat, op: DownloadOp)
    requires Agreement(s) && CanDownload(s, a, op) && !op.SpawnMerge?
    ensures Agreement(DoDownload(s, a, op))
  {
    hide Agreement, CanDownload, DoDownload, DownloadEffect, DownloadMove, Set;
    DownloadQuiet(s, a, op);
    BystanderMoves(s, DownloadEffect(s, a, op), a, DownloadMove(s, a, op));
  }

  /** Registering keeps the agreement exactly when the location has no registered worker yet. */
  lemma SpawnAgrees(s: State, a: nat, w: nat)
    requires Agreement(s) && CanDownload(s, a, SpawnMerge(w))
    ensures Agreement(DoDownload(s, a, SpawnMerge(w))) <==> s.actors[a].loc !in s.merges
  {
    hide DoDownload;
    var t, l := DoDownload(s, a, SpawnMerge(w)), s.actors[a].loc;
    Spawns(s, a, w);
    if l in s.merges {
      var v := s.merges[l];
      assert v in t.actors && Registered(t.actors[v], l) && t.merges[l] == w != v;
    } else {
      assert forall v :: v in t.actors && t.actors[v].Worker? && v != w ==> v in s.actors && t.actors[v] == s.actors[v];
    }
  }

  lemma Spawns(s: State, a: nat, w: nat)
    requires CanDownload(s, a, SpawnMerge(w))
    ensures a in s.actors && w !in s.actors && a != w && s.actors[a].Downloader?
    ensures var t, l := DoDownload(s, a, SpawnMerge(w)), s.actors[a].loc;
      && t.merges == s.merges[l := w] && w in t.actors && Registered(t.actors[w], l)
      && a in t.actors && t.actors[a].Copier?
      && (forall b :: b in t.actors && b != w && b != a ==> b in s.actors && t.actors[b] == s.actors[b])
      && (forall b :: b in s.actors && b != a ==> b in t.actors && t.actors[b] == s.actors[b])
  {
  }

  lemma WorkAgrees(s: State, w: nat, op: WorkerOp)
    requires Agreement(s) && CanWork(s, w, op)
    ensures Agreement(DoWork(s, w, op))
  {
    var t := DoWork(s, w, op);
    if op.DeregisterWorker? {
      assert Registered(s.actors[w], s.actors[w].loc);
    } else {
      WorkRegistry(s, w, op);
      hide *;
      SameRegistryKeeps(s, t);
    }
  }

  lemma WorkRegistry(s: State, w: nat, op: WorkerOp)
    requires CanWork(s, w, op) && !op.DeregisterWorker?
    ensures SameRegistry(s, DoWork(s, w, op))
  {
    hide WorkEffect;
    WorkQuiet(s, w, op);
  }

  lemma WorkQuiet(s: State, w: nat, op: WorkerOp)
    requires CanWork(s, w, op) && !op.DeregisterWorker?
    ensures WorkEffect(s, w, op).actors == s.actors && WorkEffect(s, w, op).merges == s.merges
    ensures w in s.actors && s.actors[w].Worker?
  {
  }

  lemma StatementAgrees(s: State, step: Step)
    requires Agreement(s) && Enabled(s, step)
    requires step.CreateUpload? || step.StartPart? || step.Touch? || step.ResetStalled? || step.DeleteEntry?
    ensures Agreement(Next(s, step))
  {
    hide Agreement, DoStart, DoPart, DoFinalize, DoDownload, DoWork, DoSweep, DoCopyStep;
    assert SameRegistry(s, Next(s, step));
    hide SameRegistry;
    SameRegistryKeeps(s, Next(s, step));
  }

  /** The registry agrees with the workers after a step if and only if the step does not register a merge of
      a location that is still registered. */
  lemma AgreementStep(s: State, step: Step)
    requires Agreement(s) && Enabled(s, step)
    ensures Agreement(Next(s, step)) <==> !Overwrites(s, step)
  {
    assert step.DownloadStep? && step.download.SpawnMerge? ==> step.a in s.actors && s.actors[step.a].Downloader?;
    hide Agreement, Enabled, Next;
    NextOf(s, step);
    match step
    case StartStep(a, op) => StartAgrees(s, a, op);
    case PartStep(a, op) => PartAgrees(s, a, op);
    case FinalizeStep(a, op) => FinalizeAgrees(s, a, op);
    case DownloadStep(a, op) => if op.SpawnMerge? { SpawnAgrees(s, a, op.w); } else { DownloadAgrees(s, a, op); }
    case CopyStep(a, op) => CopyAgrees(s, a, op);
    case WorkerStep(w, op) => WorkAgrees(s, w, op);
    case SweepStep(a, op) => SweepAgrees(s, a, op);
    case _ => StatementAgrees(s, step);
  }

  /** A run in which no registration overwrites another. */
  ghost predicate TidyRun(s: State, run: seq<Step>)
    decreases |run|
  {
    run == [] || (Enabled(s, run[0]) && !Overwrites(s, run[0]) && TidyRun(Next(s, run[0]), run[1..]))
  }

  lemma {:induction false} TidyRunAgrees(s: State, run: seq<Step>)
    requires Agreement(s) && TidyRun(s, run)
    ensures ValidRun(s, run) && Agreement(After(s, run))
    decreases |run|
  {
    if run != [] {
      AgreementStep(s, run[0]);
      hide Agreement, Enabled, Next, Overwrites;
      TidyRunAgrees(Next(s, run[0]), run[1..]);
    }
  }

  /** The channel of worker w has been closed. */
  predicate IsClosed(s: State, w: nat) {
    w in s.actors && s.actors[w].Worker? && s.actors[w].pc == Closed
  }

  /** WaitForOngoingMerges takes the workers registered at its call and returns when all their channels are
      closed; whatever runs meanwhile, every worker that was unfinished at the call has then done all its
      steps. */
  lemma WaitCoversAllWorkers(run: seq<Step>, meanwhile: seq<Step>, w: nat)
    requires TidyRun(Init(), run) && ValidRun(Init(), run) && ValidRun(After(Init(), run), meanwhile)
    requires var s, t := After(Init(), run), After(After(Init(), run), meanwhile);
      && w in s.actors && s.actors[w].Worker? && Registered(s.actors[w], s.actors[w].loc)
      && forall l :: l in s.merges ==> IsClosed(t, s.merges[l])
    ensures IsClosed(After(After(Init(), run), meanwhile), w)
  {
    TidyRunAgrees(Init(), run);
  }

  // ---------- the race ----------

  /** The registry race.  A worker resets its row before it removes itself, so another download may register
      the same location in between, with a row that looks as if no merge had begun; the registry then forgets a
      worker that is still running.  Nothing of this harms the folder. */
  lemma RegistryRace(s: State, e: nat, l: nat, u: nat) returns (t: State, w: nat)
    requires ReachableQuietly(s, u) && Fresh(s, e, l, u)
    ensures ReachableQuietly(t, u) && w in t.actors && Registered(t.actors[w], l)
    ensures l in t.merges && t.merges[l] != w && !Agreement(t)
  {
    hide LeadsQuietly, PartsOf, Beside;
    var a := Unused(s.actors.Keys);
    w := a + 1;
    var b, v := a + 2, a + 3;
    var s1 := NewDownload(s, e, l, u, a, w);
    BesideEntries(s, s1, l, {a, w});
    NotYet(s, s1, l, {a, w}, b);
    NotYet(s, s1, l, {a, w}, v);
    var s2 := FailingMerge(s1, w, l, u);
    BesideEntries(s1, s2, l, {w});
    NotYet(s1, s2, l, {w}, b);
    NotYet(s1, s2, l, {w}, v);
    t := NewDownload(s2, e, l, u, b, v);
    OthersStay(s2, t, l, b, v, w);
    LeadsFurther(Init(), s, s1, u);
    LeadsFurther(Init(), s1, s2, u);
    LeadsFurther(Init(), s2, t, u);
    assert Registered(t.actors[w], l);
  }

  lemma NotYet(s: State, t: State, l: nat, moving: set<nat>, b: nat)
    requires Beside(s, t, l, moving) && b !in s.actors && b !in moving
    ensures b !in t.actors
  {
  }
}
