/** What keeps a folder readable once harm has been done to it: its rows may be in no proper phase, it may have
    several locations, and goroutines of deleted locations may still run.  `Held` is kept by every step that does
    the folder no (further) harm, and module ProtocolExactness shows when a mark, a reset or a new location leads
    to it. */
module ProtocolKeeping {
  import opened Protocol
  import opened ProtocolAvailability
  import ProtocolGaps
  import opened ProtocolSafety
  import opened Types

  // ---------- who may take mergedAt back, who may begin a merge ----------

  /** Goroutine x may still take mergedAt back. */
  predicate Resetter(x: Actor, u: nat) {
    Merges(x, u) && !(x.Worker? && x.pc == MarkMerged)
  }

  /** Worker x can only fail. */
  predicate Doomed(s: State, x: Actor) {
    && x.Worker?
    && (x.pc == Resetting || (x.pc == Uploading && x.copier in s.actors && IsBroken(s.actors[x.copier])))
  }

  predicate IsBroken(x: Actor) {
    x.Copier? && x.stream.end == Broken
  }

  /** Goroutine x merges location l of folder u. */
  predicate Owns(x: Actor, u: nat, l: nat) {
    Merges(x, u) && HeldLocation(x) == l
  }

  /** Goroutine x is about to point an entry to location l.  An entry that was deleted meanwhile is not added
      again. */
  predicate Points(s: State, x: Actor, l: nat) {
    && x.Finalizer?
    && (|| (x.step.FindExisting? && x.step.loc == l)
        || (x.step.InsertEntry? && x.step.loc == l)
        || (x.step.Repoint? && x.step.loc == l && x.step.entry in s.entries))
  }

  /** Goroutine x may point an entry to location l, or mark a merge on it. */
  predicate Opens(s: State, x: Actor, l: nat) {
    Points(s, x, l) || (x.Downloader? && x.loc == l && (x.at == CheckParts || x.at == MarkStarted))
  }

  /** No merge of location l will ever begin. */
  ghost predicate Shut(s: State, l: nat) {
    && (forall e :: e in s.entries ==> s.entries[e].location != l)
    && (forall a :: a in s.actors ==> !Opens(s, s.actors[a], l))
  }

  // ---------- the two ways to stay readable ----------

  /** Every location of folder u is merged for good: its parts may go. */
  ghost predicate Free(s: State, u: nat) {
    && (forall l :: Has(s, l, u) ==> s.locations[l].mergedAt.Some? && u in s.merged)
    && (forall a :: a in s.actors && Resetter(s.actors[a], u) ==> HeldLocation(s.actors[a]) !in s.locations)
  }

  predicate IsSettled(r: Location) {
    r.mergedAt.Some? && r.partsDeletedAt.Some?
  }

  /** Goroutine x cannot delete parts of folder u, unless it is the one that merges location l first. */
  predicate Tamed(s: State, x: Actor, u: nat, l: nat) {
    && !(x.PartsCleaner? && x.folder == u)
    && (x.Downloader? && x.folder == u && x.at != OpenMerged ==> x.loc == l)
    && (x.Worker? && x.folder == u && LivePc(x.pc) ==>
          || (x.loc == l && MergingPc(x.pc) && (x.pc == MarkMerged ==> u in s.merged))
          || (x.loc !in s.locations && Doomed(s, x)))
  }

  ghost predicate OneOwner(s: State, u: nat, l: nat) {
    forall a, b :: a in s.actors && b in s.actors && Owns(s.actors[a], u, l) && Owns(s.actors[b], u, l) ==> a == b
  }

  ghost predicate NoOwner(s: State, u: nat, l: nat) {
    forall a :: a in s.actors ==> !Owns(s.actors[a], u, l)
  }

  predicate IsMarked(r: Location) {
    r.mergeStartedAt.Some? || r.mergedAt.Some?
  }

  ghost predicate OthersSettled(s: State, u: nat, l: nat) {
    forall k :: Has(s, k, u) && k != l ==> IsSettled(s.locations[k]) && u in s.merged
  }

  ghost predicate AllTamed(s: State, u: nat, l: nat) {
    forall a :: a in s.actors ==> Tamed(s, s.actors[a], u, l)
  }

  /** All parts are there and stay until location l, the only one of folder u that needs them, is merged. */
  ghost predicate Guarded(s: State, u: nat, l: nat) {
    && Has(s, l, u) && AllParts(s, u)
    && (s.locations[l].mergedAt.Some? ==> u in s.merged && s.locations[l].partsDeletedAt.Some?)
    && OthersSettled(s, u, l) && AllTamed(s, u, l) && OneOwner(s, u, l)
    && (NoOwner(s, u, l) || IsMarked(s.locations[l]) || Shut(s, l))
  }

  ghost predicate Held(s: State, u: nat) {
    Free(s, u) || exists l :: Guarded(s, u, l)
  }

  lemma HeldReadable(s: State, u: nat, l: nat)
    requires Safe(s) && Held(s, u) && Has(s, l, u)
    ensures Readable(s, s.locations[l])
  {
    assert Finalized(s, u, s.locations[l].partCount) && FrozenOk(s, u);
    HeldStored(s, u, l);
    GoodIsReadable(s, s.locations[l]);
  }

  lemma HeldStored(s: State, u: nat, l: nat)
    requires Held(s, u) && Has(s, l, u)
    ensures Stored(s, s.locations[l])
  {
    if !Free(s, u) {
      var k :| Guarded(s, u, k);
    }
  }

  // ---------- framing ----------

  ghost predicate NewLocations(s: State, m: State) {
    forall k :: k in m.locations ==>
      if k in s.locations then m.locations[k].folder == s.locations[k].folder else k !in s.usedLocations
  }

  ghost predicate HasPending(s: State, l: nat) {
    exists a :: a in s.actors && Points(s, s.actors[a], l)
  }

  /** New locations have new ids, and entries move only where a finalizer holds a location for them. */
  ghost predicate NewIds(s: State, m: State) {
    && NewLocations(s, m)
    && (forall e :: e in m.entries ==> e in s.entries || e !in s.usedEntries)
    && (forall e :: e in m.entries ==>
          || (e in s.entries && m.entries[e].location == s.entries[e].location)
          || HasPending(s, m.entries[e].location))
  }

  ghost predicate SameIds(s: State, m: State) {
    && (forall k :: k in m.locations ==> k in s.locations && m.locations[k].folder == s.locations[k].folder)
    && (forall e :: e in m.entries ==> e in s.entries && m.entries[e].location == s.entries[e].location)
  }

  lemma SameIsNew(s: State, m: State)
    requires SameIds(s, m)
    ensures NewIds(s, m)
  {
  }

  /** From s to m no location of folder u is added or unmerged. */
  ghost predicate StaysMerged(s: State, m: State, u: nat) {
    && (forall l :: Has(m, l, u) ==>
          Has(s, l, u) && (s.locations[l].mergedAt.Some? ==> m.locations[l].mergedAt.Some?))
    && (u in s.merged ==> u in m.merged)
    && m.actors == s.actors && NewLocations(s, m)
  }

  lemma CalmStaysMerged(s: State, m: State, u: nat)
    requires Calm(s, m, u) && NewIds(s, m)
    ensures StaysMerged(s, m, u)
  {
  }

  lemma UsedLocation(s: State, x: Actor)
    requires ActorOk(s, x) && (x.Downloader? || x.Worker? || x.PartsCleaner?)
    ensures HeldLocation(x) in s.usedLocations
  {
  }

  lemma FreeMove(s: State, m: State, a: nat, x: Actor, u: nat)
    requires ActorsOk(s) && Free(s, u) && StaysMerged(s, m, u)
    requires Resetter(x, u) ==> HeldLocation(x) !in m.locations
    ensures Free(Set(m, a, x), u)
  {
    var t := Set(m, a, x);
    forall b | b in t.actors && Resetter(t.actors[b], u) ensures HeldLocation(t.actors[b]) !in t.locations {
      if b != a {
        UsedLocation(s, s.actors[b]);
      }
    }
  }

  lemma FreeKeeps(s: State, m: State, u: nat)
    requires ActorsOk(s) && Free(s, u) && StaysMerged(s, m, u)
    ensures Free(m, u)
  {
    forall b | b in m.actors && Resetter(m.actors[b], u) ensures HeldLocation(m.actors[b]) !in m.locations {
      UsedLocation(s, s.actors[b]);
    }
  }

  /** A copier that broke stays as it is. */
  predicate Steady(s: State, a: nat, x: Actor) {
    a in s.actors && IsBroken(s.actors[a]) ==> x == s.actors[a]
  }

  lemma TamedStays(s: State, m: State, a: nat, x: Actor, b: Actor, u: nat, l: nat)
    requires Tamed(s, b, u, l) && ActorOk(s, b) && m.actors == s.actors && (u in s.merged ==> u in m.merged)
    requires NewLocations(s, m) && Steady(s, a, x)
    ensures Tamed(Set(m, a, x), b, u, l)
  {
    if b.Worker? {
      UsedLocation(s, b);
    }
  }

  lemma AllTamedSet(s: State, m: State, a: nat, x: Actor, u: nat, l: nat)
    requires ActorsOk(s) && AllTamed(s, u, l) && m.actors == s.actors && (u in s.merged ==> u in m.merged)
    requires NewLocations(s, m) && Steady(s, a, x)
    requires Tamed(Set(m, a, x), x, u, l)
    ensures AllTamed(Set(m, a, x), u, l)
  {
    hide Tamed, ActorOk, Steady;
    var t := Set(m, a, x);
    forall b | b in t.actors ensures Tamed(t, t.actors[b], u, l) {
      if b != a {
        TamedStays(s, m, a, x, s.actors[b], u, l);
      }
    }
  }

  /** Without location l there is nothing left to guard. */
  lemma GuardEnds(t: State, u: nat, l: nat)
    requires OthersSettled(t, u, l) && AllTamed(t, u, l)
    requires Has(t, l, u) ==> t.locations[l].mergedAt.Some? && u in t.merged
    requires l in t.locations ==> forall b :: b in t.actors && Resetter(t.actors[b], u) ==> !Owns(t.actors[b], u, l)
    ensures Free(t, u)
  {
    forall b | b in t.actors && Resetter(t.actors[b], u) ensures HeldLocation(t.actors[b]) !in t.locations {
      assert Tamed(t, t.actors[b], u, l);
    }
  }

  lemma OwnersStay(s: State, t: State, a: nat, x: Actor, u: nat, l: nat)
    requires t.actors == s.actors[a := x] && OneOwner(s, u, l)
    requires Owns(x, u, l) ==> a in s.actors && Owns(s.actors[a], u, l)
    ensures OneOwner(t, u, l) && (NoOwner(s, u, l) ==> NoOwner(t, u, l))
  {
    hide Owns;
  }

  lemma ShutStays(s: State, m: State, a: nat, x: Actor, l: nat)
    requires ActorsOk(s) && Shut(s, l) && NewIds(s, m) && m.actors == s.actors && !Opens(m, x, l)
    ensures Shut(Set(m, a, x), l)
  {
    forall b | b in s.actors ensures !Points(s, s.actors[b], l) && !Opens(m, s.actors[b], l) {
      assert !Opens(s, s.actors[b], l) && ActorOk(s, s.actors[b]);
    }
  }

  lemma SettledStays(s: State, m: State, a: nat, x: Actor, u: nat, l: nat)
    requires OthersSettled(s, u, l) && Calm(s, m, u)
    ensures OthersSettled(Set(m, a, x), u, l)
  {
  }

  lemma GuardedMove(s: State, m: State, a: nat, x: Actor, u: nat, l: nat)
    requires ActorsOk(s) && Guarded(s, u, l) && Calm(s, m, u) && NewIds(s, m) && Steady(s, a, x)
    requires Tamed(Set(m, a, x), x, u, l)
    requires Owns(x, u, l) ==> a in s.actors && Owns(s.actors[a], u, l)
    requires Shut(s, l) ==> !Opens(m, x, l)
    ensures Held(Set(m, a, x), u)
  {
    var t := Set(m, a, x);
    hide Tamed, Owns, Opens, Steady, ActorOk, NoOwner, OneOwner, OthersSettled, AllTamed, ActorsOk, Shut;
    AllTamedSet(s, m, a, x, u, l);
    SettledStays(s, m, a, x, u, l);
    if Has(m, l, u) {
      OwnersStay(s, t, a, x, u, l);
      SetParts(m, a, x, u);
      if Shut(s, l) {
        ShutStays(s, m, a, x, l);
      }
      assert Guarded(t, u, l);
    } else {
      NoneLeft(s, m, u, l);
      GuardEnds(t, u, l);
    }
  }

  lemma NoneLeft(s: State, m: State, u: nat, l: nat)
    requires Has(s, l, u) && Calm(s, m, u) && !Has(m, l, u) && NewIds(s, m)
    ensures l !in m.locations
  {
  }

  lemma IdleTamed(s: State, x: Actor, u: nat, l: nat)
    requires !Holds(x, u)
    ensures Tamed(s, x, u, l) && !Merges(x, u)
  {
  }

  /** Goroutine a becomes x, which holds no location of the folder. */
  lemma HeldMove(s: State, m: State, a: nat, x: Actor, u: nat)
    requires ActorsOk(s) && Held(s, u) && Calm(s, m, u) && NewIds(s, m) && Steady(s, a, x)
    requires !Holds(x, u)
    requires forall l :: Has(s, l, u) && Shut(s, l) ==> !Opens(m, x, l)
    ensures Held(Set(m, a, x), u)
  {
    hide Free, ActorsOk, Steady, Holds, Tamed, NewIds, Opens, Shut, Set, Merges;
    if Free(s, u) {
      IdleTamed(s, x, u, 0);
      CalmStaysMerged(s, m, u);
      FreeMove(s, m, a, x, u);
    } else {
      var l :| Guarded(s, u, l);
      IdleTamed(Set(m, a, x), x, u, l);
      GuardedMove(s, m, a, x, u, l);
    }
  }

  /** A statement outside of any goroutine modelled here. */
  lemma HeldKeeps(s: State, m: State, u: nat)
    requires ActorsOk(s) && Held(s, u) && Calm(s, m, u) && SameIds(s, m)
    requires forall l :: l in s.locations ==> l in m.locations
    ensures Held(m, u)
  {
    hide Free, ActorsOk, Guarded;
    if Free(s, u) {
      SameIsNew(s, m);
      CalmStaysMerged(s, m, u);
      FreeKeeps(s, m, u);
    } else {
      var l :| Guarded(s, u, l);
      GuardHas(s, u, l);
      GuardedKeeps(s, m, u, l);
    }
  }

  lemma GuardHas(s: State, u: nat, l: nat)
    requires Guarded(s, u, l)
    ensures Has(s, l, u) && AllParts(s, u) && OthersSettled(s, u, l) && AllTamed(s, u, l) && OneOwner(s, u, l)
  {
  }

  lemma GuardedKeeps(s: State, m: State, u: nat, l: nat)
    requires Guarded(s, u, l) && Calm(s, m, u) && SameIds(s, m) && l in m.locations
    ensures Guarded(m, u, l)
  {
    hide Owns, Opens;
    ShutKeeps(s, m, l);
    assert OneOwner(m, u, l) && (NoOwner(s, u, l) ==> NoOwner(m, u, l));
    TamedKeeps(s, m, u, l);
  }

  lemma ShutKeeps(s: State, m: State, l: nat)
    requires m.actors == s.actors
    requires forall e :: e in m.entries ==> e in s.entries && m.entries[e].location == s.entries[e].location
    ensures Shut(s, l) ==> Shut(m, l)
  {
    if Shut(s, l) {
      forall a | a in m.actors ensures !Opens(m, m.actors[a], l) {
        assert !Opens(s, s.actors[a], l);
      }
    }
  }

  lemma TamedKeeps(s: State, m: State, u: nat, l: nat)
    requires AllTamed(s, u, l) && m.actors == s.actors && SameIds(s, m) && (u in s.merged ==> u in m.merged)
    ensures AllTamed(m, u, l)
  {
    forall a | a in m.actors ensures Tamed(m, m.actors[a], u, l) {
      assert Tamed(s, s.actors[a], u, l);
    }
  }

  // ---------- steps that hold no location ----------

  lemma StatementHeld(s: State, step: Step, u: nat)
    requires ActorsOk(s) && Held(s, u) && Enabled(s, step) && (step.CreateUpload? || step.Touch? || step.DeleteEntry?)
    ensures Held(Next(s, step), u)
  {
    hide Held, Calm, SameIds;
    StatementCalm(s, step, u);
    StatementIds(s, step);
    HeldKeeps(s, Next(s, step), u);
  }

  lemma StatementIds(s: State, step: Step)
    requires Enabled(s, step) && (step.CreateUpload? || step.Touch? || step.DeleteEntry?)
    ensures SameIds(s, Next(s, step)) && forall l :: l in s.locations ==> l in Next(s, step).locations
  {
    hide SetLocation;
    if step.Touch? {
      SetLocationIds(s, step.l, (r: Location) => r.(lastDownloadedAt := Some(step.now)));
    }
  }

  lemma SetLocationIds(s: State, l: nat, row: Location -> Location)
    requires l in s.locations ==> row(s.locations[l]).folder == s.locations[l].folder
    ensures SameIds(s, SetLocation(s, l, row))
    ensures forall k :: k in s.locations ==> k in SetLocation(s, l, row).locations
  {
  }

  lemma StartPartHeld(s: State, a: nat, v: nat, index: int, body: Bytes, u: nat)
    requires ActorsOk(s) && Held(s, u) && Enabled(s, StartPart(a, v, index, body))
    ensures Held(Next(s, StartPart(a, v, index, body)), u)
  {
    hide Held;
    var m := s.(uploads := s.uploads[v := Started(s.uploads[v])]);
    assert PartsOf(m, u) == PartsOf(s, u);
    HeldMove(s, m, a, PartUpload(v, index, body, false), u);
  }

  lemma PartHeld(s: State, a: nat, op: PartOp, u: nat)
    requires ActorsOk(s) && Held(s, u) && CanPart(s, a, op)
    ensures Held(DoPart(s, a, op), u)
  {
    hide Held, Calm;
    PartCalm(s, a, op, u);
    HeldMove(s, PartEffect(s, a, op), a, if op.StorePart? then s.actors[a].(stored := true) else Ended, u);
  }

  lemma CopyHeld(s: State, a: nat, op: CopyOp, u: nat)
    requires ActorsOk(s) && Held(s, u) && a in s.actors && s.actors[a].Copier? && CanCopy(s.actors[a].stream, op)
    ensures Held(DoCopyStep(s, a, op), u)
  {
    hide Held, Calm, DoCopy;
    SelfCalm(s, u);
    SelfIds(s);
    HeldMove(s, s, a, Copier(DoCopy(s.actors[a].stream, PartsOf(s, s.actors[a].stream.folder), op)), u);
  }

  lemma SelfIds(s: State)
    ensures NewIds(s, s)
  {
  }

  // ---------- calls that begin ----------

  lemma StartIds(s: State, op: StartOp)
    ensures NewIds(s, StartEffect(s, op))
  {
  }

  /** A download that begins may have to mark a merge only on the row that is not merged. */
  lemma StartTamed(s: State, a: nat, op: StartOp, u: nat, l: nat)
    requires Guarded(s, u, l) && CanStart(s, a, op)
    ensures var t, x := DoStart(s, a, op), StartMove(s, a, op);
      Tamed(t, x, u, l) && !Merges(x, u) && (Opens(s, x, l) ==> !Shut(s, l)) && StartEffect(s, op).entries == s.entries
  {
  }

  lemma StartHeld(s: State, a: nat, op: StartOp, u: nat)
    requires ActorsOk(s) && Held(s, u) && CanStart(s, a, op)
    ensures Held(DoStart(s, a, op), u)
  {
    hide Free, ActorsOk, Guarded, Tamed, Calm, NewIds, Merges, StartMove, StartEffect, DoStart;
    var m, x := StartEffect(s, op), StartMove(s, a, op);
    StartIsMove(s, a, op, u);
    StartCalm(s, op, u);
    StartIds(s, op);
    if Free(s, u) {
      CalmStaysMerged(s, m, u);
      FreeMove(s, m, a, x, u);
    } else {
      var l :| Guarded(s, u, l);
      StartTamed(s, a, op, u, l);
      GuardedMove(s, m, a, x, u, l);
    }
  }

  // ---------- CompleteUpload ----------

  lemma FinalizeIds(s: State, a: nat, op: FinalizeOp)
    requires LocationsOk(s) && CanFinalize(s, a, op)
    ensures NewIds(s, FinalizeEffect(s, a, op)) && Steady(s, a, FinalizeMove(s, a, op))
  {
    hide FinalizeMove, NewIds, KeepFolder, DropLocation;
    match op
    case AddLocation(l) => LocatedIds(s, l, Location(s.actors[a].upload, s.actors[a].count, None, None, None, None));
    case RepointEntry(now) =>
      SelfIds(s);
      if s.actors[a].step.entry in s.entries {
        RepointedIds(s, a, now);
      }
    case DropOldLocation =>
      DropIds(s, s.actors[a].step.oldLoc);
      SameIsNew(s, DropLocation(s, s.actors[a].step.oldLoc));
    case DropOldFiles(keep, keepMerged, _) =>
      KeepIds(s, s.actors[a].step.oldFolder, keep, keepMerged);
      SameIsNew(s, KeepFolder(s, s.actors[a].step.oldFolder, keep, keepMerged));
    case AddEntry(e, now) => AddedIds(s, a, e, now);
    case FinishUpload => UploadIds(s, s.actors[a].upload);
    case _ => SelfIds(s);
  }

  lemma LocatedIds(s: State, l: nat, row: Location)
    requires l !in s.usedLocations && LocationsOk(s)
    ensures NewIds(s, s.(locations := s.locations[l := row], usedLocations := s.usedLocations + {l}))
  {
  }

  lemma RepointedIds(s: State, a: nat, now: int)
    requires CanFinalize(s, a, RepointEntry(now)) && s.actors[a].step.entry in s.entries
    ensures NewIds(s, FinalizeEffect(s, a, RepointEntry(now)))
  {
    assert Points(s, s.actors[a], s.actors[a].step.loc);
  }

  lemma AddedIds(s: State, a: nat, e: nat, now: int)
    requires CanFinalize(s, a, AddEntry(e, now))
    ensures NewIds(s, FinalizeEffect(s, a, AddEntry(e, now)))
  {
    assert Points(s, s.actors[a], s.actors[a].step.loc);
  }

  lemma UploadIds(s: State, v: nat)
    ensures NewIds(s, DropUploadRow(s, v))
  {
  }

  lemma FinalizeOpens(s: State, a: nat, op: FinalizeOp, l: nat)
    requires CanFinalize(s, a, op) && l in s.usedLocations
    ensures Opens(FinalizeEffect(s, a, op), FinalizeMove(s, a, op), l) ==> Opens(s, s.actors[a], l)
  {
  }

  lemma FinalizeShut(s: State, a: nat, op: FinalizeOp, l: nat)
    requires LocationsOk(s) && CanFinalize(s, a, op) && l in s.locations && Shut(s, l)
    ensures !Opens(FinalizeEffect(s, a, op), FinalizeMove(s, a, op), l)
  {
    hide Opens, FinalizeEffect, FinalizeMove;
    assert !Opens(s, s.actors[a], l);
    FinalizeOpens(s, a, op, l);
  }

  lemma FinalizeHeld(s: State, a: nat, op: FinalizeOp, u: nat)
    requires Safe(s) && Held(s, u) && CanFinalize(s, a, op) && !Harms(s, FinalizeStep(a, op), u)
    ensures Held(DoFinalize(s, a, op), u)
  {
    hide Held, DoFinalize, FinalizeMove, FinalizeEffect, Holds, Calm, LocatesAgain, DropsFolder;
    hide OverlapsMerge, ResetsLiveMerge, Opens, Shut, NewIds, Steady;
    var m, x := FinalizeEffect(s, a, op), FinalizeMove(s, a, op);
    assert LocationsOk(s);
    FinalizeIsMove(s, a, op, u);
    FinalizeIds(s, a, op);
    forall l | Has(s, l, u) && Shut(s, l) ensures !Opens(m, x, l) {
      FinalizeShut(s, a, op, l);
    }
    if op.AddLocation? && s.actors[a].upload == u {
      LocateHeld(s, a, op.l, u);
    } else if op.DropOldFiles? && s.actors[a].step.oldFolder == u {
      FinalizeDrops(s, a, op, u);
    } else {
      FinalizeCalm(s, a, op, u);
      HeldMove(s, m, a, x, u);
    }
  }

  lemma FinalizeCalm(s: State, a: nat, op: FinalizeOp, u: nat)
    requires CanFinalize(s, a, op) && !(op.AddLocation? && s.actors[a].upload == u)
    requires !(op.DropOldFiles? && s.actors[a].step.oldFolder == u)
    ensures Calm(s, FinalizeEffect(s, a, op), u)
  {
    hide FinalizeEffect, Calm, KeepFolder;
    if op.AddLocation? {
      AddedElsewhere(s, FinalizeEffect(s, a, op), a, op.l, u);
    } else if op.DropOldFiles? {
      OtherFolderCalm(s, s.actors[a].step.oldFolder, op.keep, op.keepMerged, u);
      DropOldIs(s, a, op);
    } else {
      PlainFinalizeCalm(s, a, op, u);
    }
  }

  lemma DropOldIs(s: State, a: nat, op: FinalizeOp)
    requires CanFinalize(s, a, op) && op.DropOldFiles?
    ensures FinalizeEffect(s, a, op) == KeepFolder(s, s.actors[a].step.oldFolder, op.keep, op.keepMerged)
  {
  }

  /** A first location is guarded from the start. */
  lemma LocateHeld(s: State, a: nat, l: nat, u: nat)
    requires Safe(s) && CanFinalize(s, a, AddLocation(l)) && s.actors[a].upload == u
    requires !LocatesAgain(s, FinalizeStep(a, AddLocation(l)), u)
    ensures Held(DoFinalize(s, a, AddLocation(l)), u)
  {
    assert ActorOk(s, s.actors[a]) && FrozenOk(s, u);
    CountedAllParts(s, u, s.actors[a].count);
    hide Safe, LocatesAgain;
    NewGuard(s, a, l, u);
  }

  lemma NewGuard(s: State, a: nat, l: nat, u: nat)
    requires CanFinalize(s, a, AddLocation(l)) && s.actors[a].upload == u && AllParts(s, u)
    requires (forall k :: !Has(s, k, u)) && forall b :: b in s.actors ==> !Holds(s.actors[b], u)
    ensures Guarded(DoFinalize(s, a, AddLocation(l)), u, l)
  {
    var t := DoFinalize(s, a, AddLocation(l));
    assert PartsOf(t, u) == PartsOf(s, u);
    forall b | b in t.actors ensures Tamed(t, t.actors[b], u, l) && !Owns(t.actors[b], u, l) {
      assert b != a ==> !Holds(s.actors[b], u);
    }
    forall k | Has(t, k, u) ensures k == l {
      assert k != l ==> Has(s, k, u);
    }
  }

  /** A whole-folder delete does not matter to a folder without a location. */
  lemma DroppedHeld(s: State, keep: set<int>, keepMerged: bool, a: nat, x: Actor, u: nat)
    requires ActorsOk(s) && Held(s, u) && !Holds(x, u) && forall l :: !Has(s, l, u)
    ensures Held(Set(KeepFolder(s, u, keep, keepMerged), a, x), u)
  {
    var m := KeepFolder(s, u, keep, keepMerged);
    NoLocationIsFree(s, u);
    IdleTamed(s, x, u, 0);
    hide Held, Holds, Merges, ActorsOk, RestrictAt;
    UnlocatedFree(s, m, u);
    SameActorsFree(m, a, x, u);
  }

  lemma NoLocationIsFree(s: State, u: nat)
    requires Held(s, u) && forall l :: !Has(s, l, u)
    ensures Free(s, u)
  {
    forall l ensures !Guarded(s, u, l) {
      assert !Has(s, l, u);
    }
  }

  lemma UnlocatedFree(s: State, m: State, u: nat)
    requires Free(s, u) && (forall l :: !Has(s, l, u)) && m.locations == s.locations && m.actors == s.actors
    ensures Free(m, u)
  {
    forall l ensures !Has(m, l, u) {
      assert !Has(s, l, u);
    }
  }

  lemma SameActorsFree(s: State, a: nat, x: Actor, u: nat)
    requires Free(s, u) && !Merges(x, u)
    ensures Free(Set(s, a, x), u)
  {
    hide Merges;
  }

  lemma FinalizeDrops(s: State, a: nat, op: FinalizeOp, u: nat)
    requires ActorsOk(s) && Held(s, u) && CanFinalize(s, a, op) && op.DropOldFiles?
    requires s.actors[a].step.oldFolder == u && !DropsFolder(s, FinalizeStep(a, op), u)
    ensures Held(DoFinalize(s, a, op), u)
  {
    hide Held, ActorsOk, FinalizeMove;
    FinalizeIsMove(s, a, op, u);
    DroppedHeld(s, op.keep, op.keepMerged, a, FinalizeMove(s, a, op), u);
  }

  // ---------- Download ----------

  lemma PlainDownloadTamed(s: State, a: nat, op: DownloadOp, u: nat, l: nat)
    requires CanDownload(s, a, op) && Tamed(s, s.actors[a], u, l) && !op.SpawnMerge? && !op.MarkMergeStarted?
    ensures var x := DownloadMove(s, a, op);
      Tamed(Set(s, a, x), x, u, l) && (Opens(s, x, l) ==> Opens(s, s.actors[a], l)) && Steady(s, a, x)
  {
  }

  lemma PlainDownloadHeld(s: State, a: nat, op: DownloadOp, u: nat)
    requires ActorsOk(s) && Held(s, u) && CanDownload(s, a, op) && !op.SpawnMerge? && !op.MarkMergeStarted?
    ensures Held(DoDownload(s, a, op), u)
  {
    hide Free, ActorsOk, Guarded, Tamed, Calm, NewIds, Merges, DownloadMove, CanDownload, Opens;
    hide Steady;
    var x := DownloadMove(s, a, op);
    PlainDownloadIs(s, a, op, u);
    SelfCalm(s, u);
    SelfIds(s);
    if Free(s, u) {
      CalmStaysMerged(s, s, u);
      FreeMove(s, s, a, x, u);
    } else {
      var l :| Guarded(s, u, l);
      GuardHas(s, u, l);
      assert a in s.actors by { DownloaderIs(s, a, op); }
      PlainDownloadTamed(s, a, op, u, l);
      GuardedMove(s, s, a, x, u, l);
    }
  }

  lemma DownloaderIs(s: State, a: nat, op: DownloadOp)
    requires CanDownload(s, a, op)
    ensures a in s.actors && !IsBroken(s.actors[a])
  {
  }

  lemma MarkElsewhereHeld(s: State, a: nat, now: int, u: nat)
    requires ActorsOk(s) && Held(s, u) && CanDownload(s, a, MarkMergeStarted(now)) && s.actors[a].folder != u
    ensures Held(DoDownload(s, a, MarkMergeStarted(now)), u)
  {
    var d, row := s.actors[a], (r: Location) => r.(mergeStartedAt := Some(now));
    assert ActorOk(s, d);
    hide Held, ActorsOk, ActorOk, SetLocation, Placed;
    assert !Has(s, d.loc, u) by { PlacedElsewhere(s, d.loc, d.folder, u); }
    SetLocationCalm(s, d.loc, row, u);
    SetLocationIds(s, d.loc, row);
    SameIsNew(s, SetLocation(s, d.loc, row));
    HeldMove(s, SetLocation(s, d.loc, row), a, d.(at := Register), u);
  }

  lemma PlacedElsewhere(s: State, l: nat, v: nat, u: nat)
    requires Placed(s, l, v) && v != u
    ensures !Has(s, l, u)
  {
  }

  lemma MarkFree(s: State, a: nat, now: int, u: nat)
    requires ActorsOk(s) && Free(s, u) && CanDownload(s, a, MarkMergeStarted(now)) && s.actors[a].folder == u
    requires !OverlapsMerge(s, DownloadStep(a, MarkMergeStarted(now)), u)
    ensures Free(DoDownload(s, a, MarkMergeStarted(now)), u)
  {
    var d := s.actors[a];
    assert ActorOk(s, d);
    assert d.loc in s.locations ==> Has(s, d.loc, u);
    assert Has(s, d.loc, u) ==> OverlapsMerge(s, DownloadStep(a, MarkMergeStarted(now)), u);
    SelfCalm(s, u);
    FreeMove(s, s, a, d.(at := Register), u);
  }

  /** The row that is guarded may be marked: nobody else is merging it. */
  lemma MarkGuarded(s: State, a: nat, now: int, u: nat, l: nat)
    requires ActorsOk(s) && Guarded(s, u, l) && CanDownload(s, a, MarkMergeStarted(now)) && s.actors[a].folder == u
    requires !OverlapsMerge(s, DownloadStep(a, MarkMergeStarted(now)), u)
    ensures Guarded(DoDownload(s, a, MarkMergeStarted(now)), u, l)
  {
    var d, t := s.actors[a], DoDownload(s, a, MarkMergeStarted(now));
    assert Tamed(s, d, u, l) && Opens(s, d, l);
    MarkIsFirst(s, a, now, u, l);
    assert PartsOf(t, u) == PartsOf(s, u);
    MarkedTamed(s, a, now, u, l);
    forall k | Has(t, k, u) && k != l ensures IsSettled(t.locations[k]) && u in t.merged {
      assert Has(s, k, u);
    }
  }

  lemma MarkIsFirst(s: State, a: nat, now: int, u: nat, l: nat)
    requires Guarded(s, u, l) && CanDownload(s, a, MarkMergeStarted(now)) && s.actors[a].folder == u
    requires s.actors[a].loc == l && !OverlapsMerge(s, DownloadStep(a, MarkMergeStarted(now)), u)
    ensures NoOwner(s, u, l) && OneOwner(DoDownload(s, a, MarkMergeStarted(now)), u, l)
  {
    assert Opens(s, s.actors[a], l) && !Merges(s.actors[a], u);
    forall b | b in s.actors ensures !Owns(s.actors[b], u, l) {
      assert Owns(s.actors[b], u, l) ==> OtherMerges(s, a, u);
    }
  }

  lemma MarkedTamed(s: State, a: nat, now: int, u: nat, l: nat)
    requires ActorsOk(s) && AllTamed(s, u, l) && CanDownload(s, a, MarkMergeStarted(now)) && s.actors[a].folder == u
    requires s.actors[a].loc == l
    ensures AllTamed(DoDownload(s, a, MarkMergeStarted(now)), u, l)
  {
    hide ActorsOk, AllTamed, SetLocation;
    var d, row := s.actors[a], (r: Location) => r.(mergeStartedAt := Some(now));
    SetLocationIds(s, d.loc, row);
    SetLocationRest(s, d.loc, row);
    AllTamedSet(s, SetLocation(s, d.loc, row), a, d.(at := Register), u, l);
  }

  lemma SetLocationRest(s: State, l: nat, row: Location -> Location)
    ensures var m := SetLocation(s, l, row);
      m.actors == s.actors && m.merged == s.merged && m.parts == s.parts && m.frozen == s.frozen
      && m.entries == s.entries && m.usedLocations == s.usedLocations
  {
  }

  lemma MarkHeld(s: State, a: nat, now: int, u: nat)
    requires ActorsOk(s) && Held(s, u) && CanDownload(s, a, MarkMergeStarted(now))
    requires !OverlapsMerge(s, DownloadStep(a, MarkMergeStarted(now)), u)
    ensures Held(DoDownload(s, a, MarkMergeStarted(now)), u)
  {
    hide ActorsOk, Free, Guarded, OverlapsMerge, DoDownload;
    if s.actors[a].folder != u {
      MarkElsewhereHeld(s, a, now, u);
    } else if Free(s, u) {
      MarkFree(s, a, now, u);
    } else {
      var l :| Guarded(s, u, l);
      MarkGuarded(s, a, now, u, l);
    }
  }

  lemma SpawnFree(s: State, a: nat, w: nat, u: nat)
    requires Free(s, u) && CanDownload(s, a, SpawnMerge(w))
    ensures Free(DoDownload(s, a, SpawnMerge(w)), u)
  {
    var t := DoDownload(s, a, SpawnMerge(w));
    forall l | Has(t, l, u) ensures t.locations[l].mergedAt.Some? && u in t.merged {
      assert Has(s, l, u);
    }
    forall b | b in t.actors && Resetter(t.actors[b], u) ensures HeldLocation(t.actors[b]) !in t.locations {
      assert Resetter(s.actors[if b == w then a else b], u);
    }
  }

  lemma SpawnTamed(s: State, a: nat, w: nat, u: nat, l: nat)
    requires AllTamed(s, u, l) && CanDownload(s, a, SpawnMerge(w)) && ActorsOk(s)
    ensures AllTamed(DoDownload(s, a, SpawnMerge(w)), u, l)
  {
    var d := s.actors[a];
    var x := Worker(d.loc, d.folder, a, Uploading);
    var y := Copier(NewStream(d.key, d.folder, d.partCount, true));
    NewWorkerTamed(s, a, w, x, u, l);
    var m := Set(s.(merges := s.merges[d.loc := w]), w, x);
    assert DoDownload(s, a, SpawnMerge(w)) == Set(m, a, y) && m.actors[a] == d;
    hide *;
    CopierTamed(m, a, y, u, l);
  }

  lemma NewWorkerTamed(s: State, a: nat, w: nat, x: Actor, u: nat, l: nat)
    requires AllTamed(s, u, l) && CanDownload(s, a, SpawnMerge(w)) && ActorsOk(s)
    requires x == Worker(s.actors[a].loc, s.actors[a].folder, a, Uploading)
    ensures AllTamed(Set(s.(merges := s.merges[x.loc := w]), w, x), u, l)
  {
    var m := s.(merges := s.merges[x.loc := w]);
    assert Tamed(s, s.actors[a], u, l) && Tamed(Set(m, w, x), x, u, l);
    assert CanDownload(s, a, SpawnMerge(w)) && NewLocations(s, m) && Steady(s, w, x);
    hide *;
    AllTamedSet(s, m, w, x, u, l);
  }

  lemma CopierTamed(s: State, a: nat, y: Actor, u: nat, l: nat)
    requires AllTamed(s, u, l) && a in s.actors && s.actors[a].Downloader? && y.Copier?
    ensures AllTamed(Set(s, a, y), u, l)
  {
    forall b | b in s.actors && b != a ensures Tamed(Set(s, a, y), s.actors[b], u, l) {
      assert Tamed(s, s.actors[b], u, l);
    }
  }

  lemma SpawnOwners(s: State, a: nat, w: nat, u: nat, l: nat)
    requires OneOwner(s, u, l) && CanDownload(s, a, SpawnMerge(w))
    ensures var t := DoDownload(s, a, SpawnMerge(w));
      OneOwner(t, u, l) && (NoOwner(s, u, l) ==> NoOwner(t, u, l)) && (Shut(s, l) ==> Shut(t, l))
  {
    var t := DoDownload(s, a, SpawnMerge(w));
    forall b | b in t.actors && Owns(t.actors[b], u, l)
      ensures var c := if b == w then a else b; c in s.actors && Owns(s.actors[c], u, l)
    {}
    forall b | b in t.actors ensures Opens(t, t.actors[b], l) ==> b in s.actors && Opens(s, s.actors[b], l) {}
  }

  lemma SpawnGuarded(s: State, a: nat, w: nat, u: nat, l: nat)
    requires Guarded(s, u, l) && CanDownload(s, a, SpawnMerge(w)) && ActorsOk(s)
    ensures Guarded(DoDownload(s, a, SpawnMerge(w)), u, l)
  {
    hide Owns, Opens, Tamed, Shut, NoOwner, OneOwner, AllTamed;
    var t := DoDownload(s, a, SpawnMerge(w));
    assert PartsOf(t, u) == PartsOf(s, u);
    SpawnTamed(s, a, w, u, l);
    SpawnOwners(s, a, w, u, l);
    forall k ensures Has(t, k, u) == Has(s, k, u) {}
  }

  lemma DownloadHeld(s: State, a: nat, op: DownloadOp, u: nat)
    requires ActorsOk(s) && Held(s, u) && CanDownload(s, a, op) && !Harms(s, DownloadStep(a, op), u)
    ensures Held(DoDownload(s, a, op), u)
  {
    hide ActorsOk, CanDownload, DoDownload, OverlapsMerge, Free, Guarded;
    match op
    case MarkMergeStarted(now) => MarkHeld(s, a, now, u);
    case SpawnMerge(w) =>
      if Free(s, u) {
        SpawnFree(s, a, w, u);
      } else {
        var l :| Guarded(s, u, l);
        SpawnGuarded(s, a, w, u, l);
      }
    case _ => PlainDownloadHeld(s, a, op, u);
  }

  // ---------- the merge worker ----------

  lemma WorkIds(s: State, w: nat, op: WorkerOp)
    requires CanWork(s, w, op)
    ensures SameIds(s, WorkEffect(s, w, op)) && Steady(s, w, s.actors[w].(pc := WorkMove(op)))
  {
    hide KeepParts, SetLocation;
    var k := s.actors[w];
    match op
    case ResetMerge(_) => SetLocationIds(s, k.loc, ResetRow);
    case SetMerged(now, _, _) => SetLocationIds(s, k.loc, (r: Location) => r.(mergedAt := Some(now)));
    case SetPartsDeleted(now, _) => SetLocationIds(s, k.loc, (r: Location) => r.(partsDeletedAt := Some(now)));
    case DropMergedParts(keep, _) => KeepIds(s, k.folder, keep, true);
    case _ =>
  }

  lemma IdleWorkHeld(s: State, w: nat, op: WorkerOp, u: nat)
    requires ActorsOk(s) && Held(s, u) && CanWork(s, w, op) && !Holds(s.actors[w], u)
    requires Placed(s, s.actors[w].loc, s.actors[w].folder)
    ensures Held(DoWork(s, w, op), u)
  {
    hide Held, ActorsOk, Holds, WorkEffect, Calm, Steady, Placed, NewIds, SameIds, Opens, Shut;
    var x := s.actors[w].(pc := WorkMove(op));
    IdleWorkCalm(s, w, op, u);
    WorkStops(s, w, op, u);
    WorkIds(s, w, op);
    SameIsNew(s, WorkEffect(s, w, op));
    WorkersOpenNothing(s, w, op);
    HeldMove(s, WorkEffect(s, w, op), w, x, u);
  }

  lemma WorkersOpenNothing(s: State, w: nat, op: WorkerOp)
    requires CanWork(s, w, op)
    ensures forall t, l :: !Opens(t, s.actors[w].(pc := WorkMove(op)), l)
  {
  }

  lemma IdleWorkCalm(s: State, w: nat, op: WorkerOp, u: nat)
    requires CanWork(s, w, op) && !Holds(s.actors[w], u) && Placed(s, s.actors[w].loc, s.actors[w].folder)
    ensures Calm(s, WorkEffect(s, w, op), u)
  {
    hide Calm, WorkEffect, Placed;
    if s.actors[w].folder != u {
      ProtocolGaps.OtherWorkCalm(s, w, op, u);
    } else {
      WorkOthersCalm(s, w, op, u);
    }
  }

  lemma OwnWorkFree(s: State, w: nat, op: WorkerOp, u: nat)
    requires ActorsOk(s) && Free(s, u) && CanWork(s, w, op) && s.actors[w].folder == u
    ensures Free(DoWork(s, w, op), u)
  {
    hide ActorsOk, DoWork, Free;
    OwnWorkStaysMerged(s, w, op, u);
    FreeMove(s, WorkEffect(s, w, op), w, s.actors[w].(pc := WorkMove(op)), u);
    assert DoWork(s, w, op) == Set(WorkEffect(s, w, op), w, s.actors[w].(pc := WorkMove(op))) by { WorkIs(s, w, op); }
  }

  lemma WorkIs(s: State, w: nat, op: WorkerOp)
    requires CanWork(s, w, op)
    ensures DoWork(s, w, op) == Set(WorkEffect(s, w, op), w, s.actors[w].(pc := WorkMove(op)))
  {
  }

  lemma OwnWorkStaysMerged(s: State, w: nat, op: WorkerOp, u: nat)
    requires Free(s, u) && CanWork(s, w, op) && s.actors[w].folder == u
    ensures StaysMerged(s, WorkEffect(s, w, op), u)
    ensures Resetter(s.actors[w].(pc := WorkMove(op)), u) ==> s.actors[w].loc !in WorkEffect(s, w, op).locations
  {
    hide KeepParts, SetLocation, StaysMerged;
    var k := s.actors[w];
    assert Resetter(k, u) ==> k.loc !in s.locations;
    SelfStaysMerged(s, u);
    match op
    case PutMerged(_) => StoredStaysMerged(s, k.folder, s.actors[k.copier].stream.merge, u);
    case ResetMerge(_) => assert SetLocation(s, k.loc, ResetRow) == s by { NoRowNoEffect(s, k.loc, ResetRow); }
    case SetMerged(now, _, _) => SetLocationStaysMerged(s, k.loc, (r: Location) => r.(mergedAt := Some(now)), u);
    case SetPartsDeleted(now, _) =>
      SetLocationStaysMerged(s, k.loc, (r: Location) => r.(partsDeletedAt := Some(now)), u);
    case DropMergedParts(keep, _) => KeepPartsStaysMerged(s, k.folder, keep, u);
    case DeregisterWorker => RegistryStaysMerged(s, s.merges - {k.loc}, u);
    case _ =>
  }

  lemma RegistryStaysMerged(s: State, merges: map<nat, nat>, u: nat)
    ensures StaysMerged(s, s.(merges := merges), u)
  {
  }

  lemma NoRowNoEffect(s: State, l: nat, row: Location -> Location)
    requires l !in s.locations
    ensures SetLocation(s, l, row) == s
  {
  }

  lemma StoredStaysMerged(s: State, v: nat, data: Bytes, u: nat)
    ensures StaysMerged(s, s.(merged := s.merged[v := data]), u)
  {
  }

  /** A worker without a location, which cannot but fail. */
  lemma DoomedWorkHeld(s: State, w: nat, op: WorkerOp, u: nat, l: nat)
    requires ActorsOk(s) && Guarded(s, u, l) && CanWork(s, w, op) && Holds(s.actors[w], u)
    requires s.actors[w].loc !in s.locations && Doomed(s, s.actors[w])
    requires Placed(s, s.actors[w].loc, s.actors[w].folder)
    ensures Held(DoWork(s, w, op), u)
  {
    hide Placed, ActorsOk, Guarded, Calm, NewIds, SameIds, Opens, Shut, WorkEffect;
    var x := s.actors[w].(pc := WorkMove(op));
    WorkOthersCalm(s, w, op, u);
    WorkIds(s, w, op);
    SameIsNew(s, WorkEffect(s, w, op));
    WorkersOpenNothing(s, w, op);
    DoomedTamed(s, w, op, u, l);
    GuardedMove(s, WorkEffect(s, w, op), w, x, u, l);
  }

  lemma DoomedTamed(s: State, w: nat, op: WorkerOp, u: nat, l: nat)
    requires CanWork(s, w, op) && s.actors[w].loc !in s.locations && Doomed(s, s.actors[w])
    ensures var x := s.actors[w].(pc := WorkMove(op)); Tamed(Set(WorkEffect(s, w, op), w, x), x, u, l)
    ensures !op.PutMerged? && !op.DropMergedParts?
  {
  }

  /** The worker that merges the guarded location. */
  lemma OwnerWorkHeld(s: State, w: nat, op: WorkerOp, u: nat, l: nat)
    requires ActorsOk(s) && Guarded(s, u, l) && CanWork(s, w, op) && Owns(s.actors[w], u, l)
    ensures Held(DoWork(s, w, op), u)
  {
    hide Guarded, Calm, NewIds, SameIds, Opens, Shut, WorkEffect, Owns, DoWork;
    if op.ResetMerge? && op.applied {
      ResetGuarded(s, w, u, l);
    } else if op.SetMerged? && op.applied {
      MergedFree(s, w, op, u, l);
    } else {
      var x := s.actors[w].(pc := WorkMove(op));
      OwnerWorkCalm(s, w, op, u, l);
      WorkIds(s, w, op);
      SameIsNew(s, WorkEffect(s, w, op));
      WorkersOpenNothing(s, w, op);
      GuardedMove(s, WorkEffect(s, w, op), w, x, u, l);
      WorkIs(s, w, op);
    }
  }

  lemma OwnerWorkCalm(s: State, w: nat, op: WorkerOp, u: nat, l: nat)
    requires ActorsOk(s) && CanWork(s, w, op) && Owns(s.actors[w], u, l)
    requires !(op.ResetMerge? && op.applied) && !(op.SetMerged? && op.applied)
    ensures Calm(s, WorkEffect(s, w, op), u)
    ensures var x := s.actors[w].(pc := WorkMove(op)); Tamed(Set(WorkEffect(s, w, op), w, x), x, u, l)
  {
    hide Calm, SetLocation, KeepParts;
    if op.PutMerged? {
      PutMergedIs(s, w, op.acked, u);
    } else {
      SelfCalm(s, u);
    }
  }

  lemma ResetGuarded(s: State, w: nat, u: nat, l: nat)
    requires ActorsOk(s) && Guarded(s, u, l) && CanWork(s, w, ResetMerge(true)) && Owns(s.actors[w], u, l)
    ensures Guarded(DoWork(s, w, ResetMerge(true)), u, l)
  {
    var t := DoWork(s, w, ResetMerge(true));
    assert PartsOf(t, u) == PartsOf(s, u);
    RowTamed(s, t, w, u, l);
    forall k | Has(t, k, u) && k != l ensures IsSettled(t.locations[k]) && u in t.merged {
      assert Has(s, k, u);
    }
    forall b | b in t.actors ensures !Owns(t.actors[b], u, l) {
      assert b != w ==> b in s.actors && t.actors[b] == s.actors[b];
    }
  }

  /** Worker w changes its row and turns to something harmless. */
  lemma RowTamed(s: State, t: State, w: nat, u: nat, l: nat)
    requires AllTamed(s, u, l) && w in s.actors && s.actors[w].Worker? && t.merged == s.merged
    requires w in t.actors && t.actors == s.actors[w := t.actors[w]] && t.locations.Keys == s.locations.Keys
    requires t.actors[w].Worker? && !LivePc(t.actors[w].pc)
    ensures AllTamed(t, u, l)
  {
    forall b | b in t.actors ensures Tamed(t, t.actors[b], u, l) {
      assert b != w ==> Tamed(s, s.actors[b], u, l);
    }
  }

  /** The guarded location is merged: nothing needs the parts any more. */
  lemma MergedFree(s: State, w: nat, op: WorkerOp, u: nat, l: nat)
    requires ActorsOk(s) && Guarded(s, u, l) && CanWork(s, w, op) && Owns(s.actors[w], u, l)
    requires op.SetMerged? && op.applied
    ensures Free(DoWork(s, w, op), u)
  {
    var t := DoWork(s, w, op);
    assert Tamed(s, s.actors[w], u, l);
    forall k | Has(t, k, u) ensures t.locations[k].mergedAt.Some? && u in t.merged {
      assert Has(s, k, u);
    }
    forall b | b in t.actors && Resetter(t.actors[b], u) ensures HeldLocation(t.actors[b]) !in t.locations {
      assert b != w && Tamed(s, s.actors[b], u, l);
      assert !Owns(s.actors[b], u, l);
    }
  }

  lemma WorkHeld(s: State, w: nat, op: WorkerOp, u: nat)
    requires Safe(s) && Held(s, u) && CanWork(s, w, op)
    ensures Held(DoWork(s, w, op), u)
  {
    WorkerPlaced(s, w, op);
    assert ActorsOk(s);
    hide Safe, ActorsOk, Free, Guarded, DoWork, Holds, Placed, Owns, Doomed;
    if !Holds(s.actors[w], u) {
      IdleWorkHeld(s, w, op, u);
    } else if Free(s, u) {
      assert s.actors[w].folder == u by { HolderFolder(s.actors[w], u); }
      OwnWorkFree(s, w, op, u);
    } else {
      var l :| Guarded(s, u, l);
      WorkerKinds(s, w, u, l);
      if Owns(s.actors[w], u, l) {
        OwnerWorkHeld(s, w, op, u, l);
      } else {
        DoomedWorkHeld(s, w, op, u, l);
      }
    }
  }

  lemma HolderFolder(x: Actor, u: nat)
    requires Holds(x, u) && x.Worker?
    ensures x.folder == u
  {
  }

  lemma WorkerKinds(s: State, w: nat, u: nat, l: nat)
    requires Guarded(s, u, l) && w in s.actors && s.actors[w].Worker? && Holds(s.actors[w], u)
    ensures Owns(s.actors[w], u, l) || (s.actors[w].loc !in s.locations && Doomed(s, s.actors[w]))
  {
    assert Tamed(s, s.actors[w], u, l);
  }

  // ---------- cleanup tasks ----------

  lemma SweepIds(s: State, a: nat, op: SweepOp)
    requires CanSweep(s, a, op)
    ensures SameIds(s, SweepEffect(s, a, op)) && Steady(s, a, SweepMove(s.actors[a], op))
    ensures DoSweep(s, a, op) == Set(SweepEffect(s, a, op), a, SweepMove(s.actors[a], op))
    ensures forall t, l :: !Opens(t, SweepMove(s.actors[a], op), l)
  {
    hide KeepFolder, KeepParts, DropLocation, SetLocation;
    var k := s.actors[a];
    match op
    case CleanMark(now, _) => SetLocationIds(s, k.loc, (r: Location) => r.(partsDeletedAt := Some(now)));
    case SweepRow(_) => DropIds(s, k.loc);
    case CleanDrop(keep, _) => KeepIds(s, k.folder, keep, true);
    case SweepFolder(keep, keepMerged, _) => KeepIds(s, k.folder, keep, keepMerged);
    case SweepUploadFolder(keep, keepMerged, _) => KeepIds(s, k.upload, keep, keepMerged);
    case SweepUploadRow(_) =>
  }

  lemma DropIds(s: State, l: nat)
    ensures SameIds(s, DropLocation(s, l))
  {
  }

  lemma KeepIds(s: State, v: nat, keep: set<int>, keepMerged: bool)
    ensures SameIds(s, KeepFolder(s, v, keep, keepMerged)) && SameIds(s, KeepParts(s, v, keep))
  {
  }

  /** Which sweeps leave the folder alone. */
  lemma SweepCalm(s: State, a: nat, op: SweepOp, u: nat)
    requires ActorsOk(s) && CanSweep(s, a, op)
    requires var k := s.actors[a];
      (k.Sweeper? && op.SweepFolder? ==> k.folder != u) && (k.PartsCleaner? ==> k.folder != u)
      && (k.UploadSweeper? && op.SweepUploadFolder? ==> k.upload != u)
    ensures Calm(s, SweepEffect(s, a, op), u) && !Holds(SweepMove(s.actors[a], op), u)
  {
    var k := s.actors[a];
    assert ActorOk(s, k);
    hide ActorsOk, ActorOk, KeepFolder, KeepParts, DropLocation, SetLocation, Calm;
    SelfCalm(s, u);
    match op
    case CleanMark(now, _) => SetLocationCalm(s, k.loc, (r: Location) => r.(partsDeletedAt := Some(now)), u);
    case CleanDrop(keep, _) => OtherPartsCalm(s, k.folder, keep, u);
    case SweepFolder(keep, keepMerged, _) => OtherFolderCalm(s, k.folder, keep, keepMerged, u);
    case SweepUploadFolder(keep, keepMerged, _) => OtherFolderCalm(s, k.upload, keep, keepMerged, u);
    case SweepRow(_) => SweepRowsCalm(s, a, op, u);
    case SweepUploadRow(_) => SweepRowsCalm(s, a, op, u);
  }

  lemma CalmSweepHeld(s: State, a: nat, op: SweepOp, u: nat)
    requires ActorsOk(s) && Held(s, u) && CanSweep(s, a, op)
    requires Calm(s, SweepEffect(s, a, op), u) && !Holds(SweepMove(s.actors[a], op), u)
    ensures Held(DoSweep(s, a, op), u)
  {
    hide Held, ActorsOk, Calm, SweepEffect, SweepMove, Holds, SameIds, NewIds, Steady, Opens, Shut;
    hide DoSweep;
    SweepIds(s, a, op);
    SameIsNew(s, SweepEffect(s, a, op));
    HeldMove(s, SweepEffect(s, a, op), a, SweepMove(s.actors[a], op), u);
  }

  /** Parts that nothing needs any more are deleted. */
  lemma CleanHeld(s: State, a: nat, op: SweepOp, u: nat)
    requires ActorsOk(s) && Held(s, u) && CanSweep(s, a, op) && s.actors[a].PartsCleaner? && s.actors[a].folder == u
    ensures Held(DoSweep(s, a, op), u)
  {
    CleanerFree(s, a, u);
    assert StaysMerged(s, SweepEffect(s, a, op), u) by { CleanStaysMerged(s, a, op, u); }
    hide Held, ActorsOk, SweepEffect;
    FreeMove(s, SweepEffect(s, a, op), a, SweepMove(s.actors[a], op), u);
  }

  lemma CleanStaysMerged(s: State, a: nat, op: SweepOp, u: nat)
    requires CanSweep(s, a, op) && s.actors[a].PartsCleaner?
    ensures StaysMerged(s, SweepEffect(s, a, op), u)
  {
    hide KeepParts, SetLocation, StaysMerged;
    var k := s.actors[a];
    match op
    case CleanMark(now, _) =>
      SetLocationStaysMerged(s, k.loc, (r: Location) => r.(partsDeletedAt := Some(now)), u);
      SelfStaysMerged(s, u);
    case CleanDrop(keep, _) => KeepPartsStaysMerged(s, k.folder, keep, u);
    case _ =>
  }

  lemma SelfStaysMerged(s: State, u: nat)
    ensures StaysMerged(s, s, u)
  {
  }

  lemma SetLocationStaysMerged(s: State, l: nat, row: Location -> Location, u: nat)
    requires l in s.locations ==> row(s.locations[l]).folder == s.locations[l].folder
    requires l in s.locations && s.locations[l].mergedAt.Some? ==> row(s.locations[l]).mergedAt.Some?
    ensures StaysMerged(s, SetLocation(s, l, row), u)
  {
  }

  lemma KeepPartsStaysMerged(s: State, v: nat, keep: set<int>, u: nat)
    ensures StaysMerged(s, KeepParts(s, v, keep), u)
  {
  }

  lemma CleanerFree(s: State, a: nat, u: nat)
    requires Held(s, u) && a in s.actors && s.actors[a].PartsCleaner? && s.actors[a].folder == u
    ensures Free(s, u)
  {
    forall l ensures !Guarded(s, u, l) {
      assert !Tamed(s, s.actors[a], u, l);
    }
  }

  lemma SweepHeld(s: State, a: nat, op: SweepOp, u: nat)
    requires Safe(s) && Held(s, u) && CanSweep(s, a, op) && !DropsFolder(s, SweepStep(a, op), u)
    ensures Held(DoSweep(s, a, op), u)
  {
    assert ActorsOk(s);
    hide Safe, ActorsOk, Held, SweepEffect, Calm, SweepMove, DoSweep, Holds;
    var k := s.actors[a];
    if k.PartsCleaner? && k.folder == u {
      CleanHeld(s, a, op, u);
    } else if k.Sweeper? && op.SweepFolder? && k.folder == u {
      SweepDrops(s, a, op, op.keep, op.keepMerged, u);
    } else if k.UploadSweeper? && op.SweepUploadFolder? && k.upload == u {
      SweepDrops(s, a, op, op.keep, op.keepMerged, u);
    } else {
      SweepCalm(s, a, op, u);
      CalmSweepHeld(s, a, op, u);
    }
  }

  lemma SweepDrops(s: State, a: nat, op: SweepOp, keep: set<int>, keepMerged: bool, u: nat)
    requires ActorsOk(s) && Held(s, u) && CanSweep(s, a, op) && !DropsFolder(s, SweepStep(a, op), u)
    requires || (op.SweepFolder? && op.keep == keep && op.keepMerged == keepMerged && s.actors[a].folder == u)
             || (op.SweepUploadFolder? && op.keep == keep && op.keepMerged == keepMerged && s.actors[a].upload == u)
    ensures Held(DoSweep(s, a, op), u)
  {
    hide Held, ActorsOk, KeepFolder;
    DroppedHeld(s, keep, keepMerged, a, SweepMove(s.actors[a], op), u);
  }

  lemma ResetStalledHeld(s: State, before: int, u: nat)
    requires Held(s, u) && !ResetsLiveMerge(s, ResetStalled(before), u)
    ensures Held(ResetRows(s, before), u)
  {
    hide Free, Guarded, ResetsLiveMerge, ResetRows;
    if Free(s, u) {
      ResetFree(s, before, u);
    } else {
      var l :| Guarded(s, u, l);
      ResetGuards(s, before, u, l);
    }
  }

  lemma ResetFree(s: State, before: int, u: nat)
    requires Free(s, u)
    ensures Free(ResetRows(s, before), u)
  {
    var m := ResetRows(s, before);
    forall l | Has(m, l, u) ensures m.locations[l].mergedAt.Some? && u in m.merged {
      assert Has(s, l, u);
    }
    forall b | b in m.actors && Resetter(m.actors[b], u) ensures HeldLocation(m.actors[b]) !in m.locations {
      assert Resetter(s.actors[b], u);
    }
  }

  lemma ResetGuards(s: State, before: int, u: nat, l: nat)
    requires Guarded(s, u, l) && !ResetsLiveMerge(s, ResetStalled(before), u)
    ensures Guarded(ResetRows(s, before), u, l)
  {
    var m := ResetRows(s, before);
    assert PartsOf(m, u) == PartsOf(s, u);
    forall k | Has(m, k, u) && k != l ensures IsSettled(m.locations[k]) && u in m.merged {
      assert Has(s, k, u);
    }
    ResetTamed(s, before, u, l);
    ResetOwners(s, before, u, l);
  }

  lemma ResetTamed(s: State, before: int, u: nat, l: nat)
    requires AllTamed(s, u, l)
    ensures AllTamed(ResetRows(s, before), u, l)
  {
    var m := ResetRows(s, before);
    forall b | b in m.actors ensures Tamed(m, m.actors[b], u, l) {
      assert Tamed(s, s.actors[b], u, l);
    }
  }

  lemma ResetOwners(s: State, before: int, u: nat, l: nat)
    requires Guarded(s, u, l) && !ResetsLiveMerge(s, ResetStalled(before), u)
    ensures var m := ResetRows(s, before);
      OneOwner(m, u, l) && (NoOwner(m, u, l) || IsMarked(m.locations[l]) || Shut(m, l))
  {
    hide Owns, Opens;
    var m := ResetRows(s, before);
    ShutKeeps(s, m, l);
    assert OneOwner(m, u, l) && (NoOwner(s, u, l) ==> NoOwner(m, u, l));
    if Stalled(s.locations[l], before) {
      forall b | b in s.actors ensures !Owns(s.actors[b], u, l) {
        OwnsMerges(s.actors[b], u, l);
      }
    }
  }

  lemma OwnsMerges(x: Actor, u: nat, l: nat)
    ensures Owns(x, u, l) ==> Merges(x, u)
  {
  }

  // ---------- every step, every run ----------

  /** Every step that does not harm folder u keeps its locations readable, whatever harm was done before. */
  lemma StepKeepsHeld(s: State, step: Step, u: nat)
    requires Safe(s) && Held(s, u) && Enabled(s, step) && !Harms(s, step, u)
    ensures Held(Next(s, step), u)
  {
    assert ActorsOk(s);
    hide *;
    NextOf(s, step);
    StatementOf(s, step);
    HarmsOf(s, step, u);
    match step
    case StartStep(a, op) => StartHeld(s, a, op, u);
    case PartStep(a, op) => PartHeld(s, a, op, u);
    case FinalizeStep(a, op) => FinalizeHeld(s, a, op, u);
    case DownloadStep(a, op) => DownloadHeld(s, a, op, u);
    case CopyStep(a, op) => CopyHeld(s, a, op, u);
    case WorkerStep(a, op) => WorkHeld(s, a, op, u);
    case SweepStep(a, op) =>
      HarmsDrop(s, step, u);
      SweepHeld(s, a, op, u);
    case StartPart(a, v, index, body) => StartPartHeld(s, a, v, index, body, u);
    case ResetStalled(before) => ResetStalledHeld(s, before, u);
    case _ => StatementHeld(s, step, u);
  }

  lemma HarmsDrop(s: State, step: Step, u: nat)
    requires !Harms(s, step, u)
    ensures !DropsFolder(s, step, u)
  {
  }

  lemma {:induction false} RunKeepsHeld(s: State, run: seq<Step>, u: nat)
    requires Safe(s) && Held(s, u) && QuietRun(s, run, u)
    ensures ValidRun(s, run) && Safe(After(s, run)) && Held(After(s, run), u)
    decreases |run|
  {
    if run != [] {
      StepKeepsSafe(s, run[0]);
      StepKeepsHeld(s, run[0], u);
      hide Safe, Held, Enabled, Next, Harms;
      RunKeepsHeld(Next(s, run[0]), run[1..], u);
    }
  }

  lemma LeadsKeepsHeld(s: State, t: State, u: nat)
    requires Safe(s) && Held(s, u) && LeadsQuietly(s, t, u)
    ensures Safe(t) && Held(t, u)
  {
    hide Held, Safe, ValidRun;
    var run :| QuietRun(s, run, u) && ValidRun(s, run) && After(s, run) == t;
    RunKeepsHeld(s, run, u);
  }
}
