/** Building runs step by step: the pieces from which the interleavings of ProtocolRaces are put together. */
module ProtocolRuns {
  import opened Protocol
  import opened ProtocolAvailability
  import opened ProtocolSafety
  import opened Types

  // ---------- runs end to end ----------

  lemma {:induction false} Append(s: State, run: seq<Step>, step: Step, u: nat)
    requires ValidRun(s, run) && Enabled(After(s, run), step)
    ensures ValidRun(s, run + [step]) && After(s, run + [step]) == Next(After(s, run), step)
    ensures QuietRun(s, run, u) && !Harms(After(s, run), step, u) ==> QuietRun(s, run + [step], u)
    decreases |run|
  {
    hide Harms, Enabled, Next;
    var longer := run + [step];
    if run == [] {
      assert longer[1..] == [];
    } else {
      assert longer[0] == run[0] && longer[1..] == run[1..] + [step];
      Append(Next(s, run[0]), run[1..], step, u);
    }
  }

  lemma Extend(s: State, step: Step)
    requires Reachable(s) && Enabled(s, step)
    ensures Reachable(Next(s, step))
  {
    hide Harms, Enabled, Next, QuietRun;
    var run :| ValidRun(Init(), run) && After(Init(), run) == s;
    Append(Init(), run, step, 0);
  }

  /** One more step that does not harm the folder. */
  lemma LeadsOn(s: State, t: State, step: Step, u: nat)
    requires LeadsQuietly(s, t, u) && Enabled(t, step) && !Harms(t, step, u)
    ensures LeadsQuietly(s, Next(t, step), u)
  {
    hide Harms, Enabled, Next, QuietRun;
    var run :| QuietRun(s, run, u) && ValidRun(s, run) && After(s, run) == t;
    Append(s, run, step, u);
  }

  lemma LeadsNowhere(s: State, u: nat)
    ensures LeadsQuietly(s, s, u)
  {
    assert QuietRun(s, [], u) && ValidRun(s, []) && After(s, []) == s;
  }

  lemma {:induction false} Concat(s: State, first: seq<Step>, rest: seq<Step>, u: nat)
    requires QuietRun(s, first, u) && ValidRun(s, first) && QuietRun(After(s, first), rest, u)
    requires ValidRun(After(s, first), rest)
    ensures QuietRun(s, first + rest, u) && ValidRun(s, first + rest)
    ensures After(s, first + rest) == After(After(s, first), rest)
    decreases |first|
  {
    hide Harms, Enabled, Next;
    var both := first + rest;
    if first == [] {
      assert both == rest;
    } else {
      assert both[0] == first[0] && both[1..] == first[1..] + rest;
      Concat(Next(s, first[0]), first[1..], rest, u);
    }
  }

  lemma LeadsFurther(s: State, t: State, z: State, u: nat)
    requires LeadsQuietly(s, t, u) && LeadsQuietly(t, z, u)
    ensures LeadsQuietly(s, z, u)
  {
    hide QuietRun, ValidRun, After;
    var first :| QuietRun(s, first, u) && ValidRun(s, first) && After(s, first) == t;
    var rest :| QuietRun(t, rest, u) && ValidRun(t, rest) && After(t, rest) == z;
    Concat(s, first, rest, u);
  }

  lemma LeadsReaches(s: State, t: State, u: nat)
    requires Reachable(s) && LeadsQuietly(s, t, u)
    ensures Reachable(t)
  {
    var first :| ValidRun(Init(), first) && After(Init(), first) == s;
    var rest :| QuietRun(s, rest, u) && ValidRun(s, rest) && After(s, rest) == t;
    JoinValid(Init(), first, rest);
  }

  lemma {:induction false} JoinValid(s: State, first: seq<Step>, rest: seq<Step>)
    requires ValidRun(s, first) && ValidRun(After(s, first), rest)
    ensures ValidRun(s, first + rest) && After(s, first + rest) == After(After(s, first), rest)
    decreases |first|
  {
    hide Harms, Enabled, Next;
    var both := first + rest;
    if first == [] {
      assert both == rest;
    } else {
      assert both[0] == first[0] && both[1..] == first[1..] + rest;
      JoinValid(Next(s, first[0]), first[1..], rest);
    }
  }

  /** A goroutine number that is not taken. */
  lemma {:induction false} Unused(taken: set<nat>) returns (n: nat)
    ensures n !in taken && forall x :: x in taken ==> x < n
    decreases |taken|
  {
    n := 0;
    if taken != {} {
      var x :| x in taken;
      var m := Unused(taken - {x});
      n := if x < m then m else x + 1;
      forall y | y in taken ensures y < n {
        assert y == x || y in taken - {x};
      }
    }
  }

  lemma SetSet(s: State, a: nat, x: Actor, y: Actor)
    ensures Set(Set(s, a, x), a, y) == Set(s, a, y)
  {
    assert s.actors[a := x][a := y] == s.actors[a := y];
  }

  lemma SetParts(s: State, a: nat, x: Actor, u: nat)
    ensures PartsOf(Set(s, a, x), u) == PartsOf(s, u)
  {
  }

  /** Copy and worker steps harm no folder. */
  lemma Harmless(s: State, step: Step, u: nat)
    requires step.CopyStep? || step.WorkerStep? || step.StartStep? || step.PartStep?
          || (step.DownloadStep? && !step.download.MarkMergeStarted?)
          || (step.SweepStep? && !step.sweep.SweepFolder? && !step.sweep.SweepUploadFolder?)
          || (step.FinalizeStep? && !step.finalize.AddLocation? && !step.finalize.DropOldFiles?)
    ensures !Harms(s, step, u)
  {
  }

  // ---------- a copier that streams every part ----------

  /** Between two parts. */
  predicate Between(c: Stream) {
    c.lockstep && c.end == Running && !c.open && c.rest == [] && CaughtUp(c) && c.next <= c.partCount
  }

  lemma CopyLeads(s: State, a: nat, c: Stream, op: CopyOp, u: nat)
    requires CanCopy(c, op)
    ensures var d := DoCopy(c, PartsOf(s, c.folder), op);
      LeadsQuietly(Set(s, a, Copier(c)), Set(s, a, Copier(d)), u)
  {
    var t, step := Set(s, a, Copier(c)), CopyStep(a, op);
    SetParts(s, a, Copier(c), c.folder);
    assert Enabled(t, step) && Next(t, step) == Set(t, a, Copier(DoCopy(c, PartsOf(s, c.folder), op)));
    SetSet(s, a, Copier(c), Copier(DoCopy(c, PartsOf(s, c.folder), op)));
    hide *;
    Harmless(t, step, u);
    LeadsNowhere(t, u);
    LeadsOn(t, t, step, u);
  }

  lemma CopyLeadsOn(s: State, a: nat, b: Stream, c: Stream, op: CopyOp, u: nat)
    requires LeadsQuietly(Set(s, a, Copier(b)), Set(s, a, Copier(c)), u) && CanCopy(c, op)
    ensures var d := DoCopy(c, PartsOf(s, c.folder), op);
      LeadsQuietly(Set(s, a, Copier(b)), Set(s, a, Copier(d)), u)
  {
    CopyLeads(s, a, c, op, u);
    hide *;
    LeadsFurther(Set(s, a, Copier(b)), Set(s, a, Copier(c)), Set(s, a, Copier(DoCopy(c, PartsOf(s, c.folder), op))), u);
  }

  /** One part, opened, read in one chunk, taken by both pipes, and closed. */
  lemma CopyOnePart(s: State, a: nat, c: Stream, u: nat) returns (d: Stream)
    requires Between(c) && c.next < c.partCount && c.next in PartsOf(s, c.folder)
    ensures Between(d) && d.next == c.next + 1 && SameStream(c, d)
    ensures LeadsQuietly(Set(s, a, Copier(c)), Set(s, a, Copier(d)), u)
  {
    var parts := PartsOf(s, c.folder);
    var c1 := DoCopy(c, parts, OpenPart);
    hide LeadsQuietly, PartsOf, Set;
    CopyLeads(s, a, c, OpenPart, u);
    if c1.rest == [] {
      CopyLeadsOn(s, a, c, c1, ClosePart, u);
      d := DoCopy(c1, parts, ClosePart);
    } else {
      var n := |c1.rest|;
      var c2 := DoCopy(c1, parts, ReadChunk(n));
      CopyLeadsOn(s, a, c, c1, ReadChunk(n), u);
      assert c1.rest[..n] == c1.rest && c2.read == c1.read + c1.rest && c2.rest == [];
      var c3 := DoCopy(c2, parts, ClientTake(n));
      CopyLeadsOn(s, a, c, c2, ClientTake(n), u);
      assert c3.client == c3.read;
      var c4 := DoCopy(c3, parts, MergeTake(n));
      CopyLeadsOn(s, a, c, c3, MergeTake(n), u);
      assert c4.merge == c4.read;
      CopyLeadsOn(s, a, c, c4, ClosePart, u);
      d := DoCopy(c4, parts, ClosePart);
    }
  }

  lemma {:induction false} CopyAll(s: State, a: nat, c: Stream, u: nat) returns (d: Stream)
    requires Between(c) && HasFirst(PartsOf(s, c.folder), c.partCount)
    ensures SameStream(c, d) && d.end == CleanEof
    ensures LeadsQuietly(Set(s, a, Copier(c)), Set(s, a, Copier(d)), u)
    decreases c.partCount - c.next
  {
    hide LeadsQuietly, PartsOf, Set;
    if c.next == c.partCount {
      CopyLeads(s, a, c, FinishCopy, u);
      d := DoCopy(c, PartsOf(s, c.folder), FinishCopy);
    } else {
      var c1 := CopyOnePart(s, a, c, u);
      d := CopyAll(s, a, c1, u);
      LeadsFurther(Set(s, a, Copier(c)), Set(s, a, Copier(c1)), Set(s, a, Copier(d)), u);
    }
  }

  // ---------- a worker that succeeds, a worker that fails ----------

  lemma WorkLeads(s: State, w: nat, op: WorkerOp, u: nat)
    requires CanWork(s, w, op)
    ensures LeadsQuietly(s, DoWork(s, w, op), u)
  {
    assert Enabled(s, WorkerStep(w, op)) && Next(s, WorkerStep(w, op)) == DoWork(s, w, op);
    hide *;
    Harmless(s, WorkerStep(w, op), u);
    LeadsNowhere(s, u);
    LeadsOn(s, s, WorkerStep(w, op), u);
  }

  lemma WorkLeadsOn(s: State, t: State, w: nat, op: WorkerOp, u: nat)
    requires LeadsQuietly(s, t, u) && CanWork(t, w, op)
    ensures LeadsQuietly(s, DoWork(t, w, op), u)
  {
    WorkLeads(t, w, op, u);
    hide *;
    LeadsFurther(s, t, DoWork(t, w, op), u);
  }

  /** What one goroutine does to its location: the others' states, the other rows and all entries stay. */
  ghost predicate Beside(s: State, t: State, l: nat, moving: set<nat>) {
    && t.entries == s.entries && t.frozen == s.frozen && t.usedLocations == s.usedLocations && t.uploads == s.uploads
    && t.usedEntries == s.usedEntries
    && t.locations.Keys == s.locations.Keys
    && (forall k :: k in s.locations && k in t.locations && k != l ==> t.locations[k] == s.locations[k])
    && (l in s.locations && l in t.locations ==> t.locations[l].folder == s.locations[l].folder
                                                 && t.locations[l].partCount == s.locations[l].partCount)
    && (forall b :: b in s.actors && b !in moving ==> b in t.actors && t.actors[b] == s.actors[b])
    && (forall b :: b in t.actors ==> b in s.actors || b in moving)
  }

  lemma BesideAgain(s: State, t: State, z: State, l: nat, some: set<nat>, others: set<nat>)
    requires Beside(s, t, l, some) && Beside(t, z, l, others)
    ensures Beside(s, z, l, some + others)
  {
  }

  predicate WorkerOf(s: State, w: nat, l: nat, u: nat) {
    w in s.actors && s.actors[w].Worker? && s.actors[w].loc == l && s.actors[w].folder == u
  }

  /** From the merge upload's success on: the row is marked, the parts are deleted. */
  lemma FinishMerge(s: State, w: nat, l: nat, u: nat) returns (t: State)
    requires WorkerOf(s, w, l, u) && s.actors[w].pc == MarkMerged && l in s.locations
    ensures LeadsQuietly(s, t, u) && Beside(s, t, l, {w}) && l in t.locations
    ensures t.locations[l].mergedAt.Some? && t.locations[l].partsDeletedAt.Some? && PartsOf(t, u) == map[]
    ensures WorkerOf(t, w, l, u) && t.actors[w].pc == Deregister
    ensures t.locations[l].mergeStartedAt == s.locations[l].mergeStartedAt
  {
    var s1 := DoWork(s, w, SetMerged(0, true, true));
    var s2 := DoWork(s1, w, SetPartsDeleted(0, true));
    t := DoWork(s2, w, DropMergedParts({}, false));
    FinishSteps(s, w, l, u);
    hide *;
    WorkLeads(s, w, SetMerged(0, true, true), u);
    WorkLeadsOn(s, s1, w, SetPartsDeleted(0, true), u);
    WorkLeadsOn(s, s2, w, DropMergedParts({}, false), u);
  }

  lemma FinishSteps(s: State, w: nat, l: nat, u: nat)
    requires WorkerOf(s, w, l, u) && s.actors[w].pc == MarkMerged && l in s.locations
    ensures CanWork(s, w, SetMerged(0, true, true))
    ensures var s1 := DoWork(s, w, SetMerged(0, true, true));
      && CanWork(s1, w, SetPartsDeleted(0, true))
      && var s2 := DoWork(s1, w, SetPartsDeleted(0, true));
      && CanWork(s2, w, DropMergedParts({}, false))
      && var t := DoWork(s2, w, DropMergedParts({}, false));
      && Beside(s, t, l, {w}) && l in t.locations
      && t.locations[l].mergedAt.Some? && t.locations[l].partsDeletedAt.Some? && PartsOf(t, u) == map[]
      && WorkerOf(t, w, l, u) && t.actors[w].pc == Deregister
      && t.locations[l].mergeStartedAt == s.locations[l].mergeStartedAt
  {
  }

  /** A worker whose copier ended cleanly stores the merged object. */
  lemma StoreMerge(s: State, w: nat, l: nat, u: nat) returns (t: State)
    requires WorkerOf(s, w, l, u) && s.actors[w].pc == Uploading && l in s.locations
    requires var a := s.actors[w].copier;
      a in s.actors && s.actors[a].Copier? && s.actors[a].stream.end == CleanEof
    ensures LeadsQuietly(s, t, u) && Beside(s, t, l, {w}) && t.locations == s.locations
    ensures WorkerOf(t, w, l, u) && t.actors[w].pc == MarkMerged && PartsOf(t, u) == PartsOf(s, u)
  {
    t := DoWork(s, w, PutMerged(true));
    WorkLeads(s, w, PutMerged(true), u);
  }

  /** A merge that fails resets its row, whatever it holds by then. */
  lemma FailingMerge(s: State, w: nat, l: nat, u: nat) returns (t: State)
    requires WorkerOf(s, w, l, u) && (s.actors[w].pc == Uploading || s.actors[w].pc == Resetting) && l in s.locations
    ensures LeadsQuietly(s, t, u) && Beside(s, t, l, {w}) && l in t.locations && PartsOf(t, u) == PartsOf(s, u)
    ensures t.locations[l] == ResetRow(s.locations[l])
    ensures WorkerOf(t, w, l, u) && t.actors[w].pc == Deregister
  {
    var s1 := if s.actors[w].pc == Uploading then DoWork(s, w, FailMerge) else s;
    t := DoWork(s1, w, ResetMerge(true));
    FailSteps(s, s1, w, l, u);
    hide *;
    LeadsNowhere(s, u);
    if s.actors[w].pc == Uploading {
      WorkLeads(s, w, FailMerge, u);
    }
    WorkLeadsOn(s, s1, w, ResetMerge(true), u);
  }

  lemma FailSteps(s: State, s1: State, w: nat, l: nat, u: nat)
    requires WorkerOf(s, w, l, u) && (s.actors[w].pc == Uploading || s.actors[w].pc == Resetting) && l in s.locations
    requires s.actors[w].pc == Uploading ==> CanWork(s, w, FailMerge) && s1 == DoWork(s, w, FailMerge)
    requires s.actors[w].pc == Resetting ==> s1 == s
    ensures CanWork(s1, w, ResetMerge(true))
    ensures var t := DoWork(s1, w, ResetMerge(true));
      && Beside(s, t, l, {w}) && l in t.locations && PartsOf(t, u) == PartsOf(s, u)
      && t.locations[l] == ResetRow(s.locations[l]) && WorkerOf(t, w, l, u) && t.actors[w].pc == Deregister
  {
  }

  // ---------- a download up to its worker ----------

  function FreshStream(d: Actor): Stream
    requires d.Downloader?
  {
    NewStream(d.key, d.folder, d.partCount, true)
  }

  /** Downloader a, its merge marked, starts worker w. */
  lemma SpawnWorker(s: State, a: nat, w: nat, l: nat, u: nat) returns (t: State)
    requires a in s.actors && s.actors[a].Downloader? && s.actors[a].at == Register && w !in s.actors
    requires s.actors[a].loc == l && s.actors[a].folder == u
    ensures LeadsQuietly(s, t, u) && Beside(s, t, l, {a, w}) && t.locations == s.locations
    ensures PartsOf(t, u) == PartsOf(s, u)
    ensures WorkerOf(t, w, l, u) && t.actors[w].pc == Uploading && t.actors[w].copier == a && a != w
    ensures a in t.actors && t.actors[a] == Copier(FreshStream(s.actors[a]))
    ensures t.merges == s.merges[l := w] && t.actors.Keys == s.actors.Keys + {w}
  {
    hide Harms, LeadsQuietly, Enabled, Next, DoDownload, Beside;
    var step := DownloadStep(a, SpawnMerge(w));
    t := DoDownload(s, a, SpawnMerge(w));
    SpawnStep(s, a, w);
    SpawnBeside(s, a, w);
    Harmless(s, step, u);
    LeadsNowhere(s, u);
    LeadsOn(s, s, step, u);
  }

  lemma SpawnStep(s: State, a: nat, w: nat)
    requires a in s.actors && s.actors[a].Downloader? && s.actors[a].at == Register && w !in s.actors
    ensures CanDownload(s, a, SpawnMerge(w)) && Enabled(s, DownloadStep(a, SpawnMerge(w)))
    ensures Next(s, DownloadStep(a, SpawnMerge(w))) == DoDownload(s, a, SpawnMerge(w))
  {
  }

  lemma SpawnBeside(s: State, a: nat, w: nat)
    requires CanDownload(s, a, SpawnMerge(w))
    ensures var t, d := DoDownload(s, a, SpawnMerge(w)), s.actors[a];
      && Beside(s, t, d.loc, {a, w}) && t.locations == s.locations && PartsOf(t, d.folder) == PartsOf(s, d.folder)
      && WorkerOf(t, w, d.loc, d.folder) && t.actors[w].pc == Uploading && t.actors[w].copier == a && a != w
      && a in t.actors && t.actors[a] == Copier(FreshStream(d))
      && t.merges == s.merges[d.loc := w] && t.actors.Keys == s.actors.Keys + {w}
  {
  }

  /** With all parts there, the copier of worker w reaches the end and w completes the merge. */
  lemma CompleteMerge(s: State, w: nat, l: nat, u: nat) returns (t: State)
    requires WorkerOf(s, w, l, u) && s.actors[w].pc == Uploading && l in s.locations
    requires var a := s.actors[w].copier;
      && a in s.actors && s.actors[a].Copier? && Between(s.actors[a].stream) && s.actors[a].stream.folder == u
      && HasFirst(PartsOf(s, u), s.actors[a].stream.partCount)
    ensures LeadsQuietly(s, t, u) && Beside(s, t, l, {w, s.actors[w].copier}) && l in t.locations
    ensures t.locations[l].mergedAt.Some? && t.locations[l].partsDeletedAt.Some? && PartsOf(t, u) == map[]
    ensures t.locations[l].mergeStartedAt == s.locations[l].mergeStartedAt
  {
    var a := s.actors[w].copier;
    var d := CopyAll(s, a, s.actors[a].stream, u);
    var s1 := Set(s, a, Copier(d));
    CopiedState(s, w, a, l, u, d);
    hide LeadsQuietly, Set, Beside, PartsOf;
    var s2 := StoreMerge(s1, w, l, u);
    t := FinishMerge(s2, w, l, u);
    LeadsFurther(s, s1, s2, u);
    LeadsFurther(s, s2, t, u);
    BesideAgain(s, s1, s2, l, {a}, {w});
    BesideAgain(s, s2, t, l, {a} + {w}, {w});
    assert {a} + {w} + {w} == {w, a};
  }

  lemma CopiedState(s: State, w: nat, a: nat, l: nat, u: nat, d: Stream)
    requires WorkerOf(s, w, l, u) && a in s.actors && s.actors[a].Copier?
    ensures var s1 := Set(s, a, Copier(d));
      && Set(s, a, s.actors[a]) == s && Beside(s, s1, l, {a}) && s1.locations == s.locations
      && WorkerOf(s1, w, l, u) && s1.actors[w] == s.actors[w] && a in s1.actors && s1.actors[a] == Copier(d)
  {
    assert s.actors[a := s.actors[a]] == s.actors;
  }

  /** Two workers of one location: one completes the merge, the other fails and resets the row.  The parts are
      gone and nothing points to the merged object any more. */
  lemma TwoWorkers(s: State, w: nat, v: nat, l: nat, u: nat) returns (t: State)
    requires WorkerOf(s, w, l, u) && s.actors[w].pc == Uploading && l in s.locations && v != w
    requires var a := s.actors[w].copier;
      && a in s.actors && s.actors[a].Copier? && Between(s.actors[a].stream) && s.actors[a].stream.folder == u
      && HasFirst(PartsOf(s, u), s.actors[a].stream.partCount)
    requires WorkerOf(s, v, l, u) && (s.actors[v].pc == Uploading || s.actors[v].pc == Resetting)
    ensures LeadsQuietly(s, t, u) && Beside(s, t, l, {w, v, s.actors[w].copier}) && l in t.locations
    ensures t.locations[l].mergedAt.None? && t.locations[l].partsDeletedAt.Some? && PartsOf(t, u) == map[]
  {
    hide LeadsQuietly, PartsOf;
    var a := s.actors[w].copier;
    var s1 := CompleteMerge(s, w, l, u);
    assert v != a && WorkerOf(s1, v, l, u) && s1.actors[v] == s.actors[v];
    t := FailingMerge(s1, v, l, u);
    LeadsFurther(s, s1, t, u);
    BesideAgain(s, s1, t, l, {w, a}, {v});
    assert {w, a} + {v} == {w, v, a};
  }
}
