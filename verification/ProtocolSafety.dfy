/** No wrong bytes: an invariant of every interleaving, with failures at any step. */
module ProtocolSafety {
  import opened Protocol
  import opened Types

  // ---------- the invariant ----------

  /** Finalized with n parts: all uploads of it completed, their indices are pairwise distinct, and they
      are exactly the indices of the n frozen parts. */
  ghost predicate Finalized(s: State, u: nat, n: nat) {
    && u in s.frozen && u in s.history
    && var h := s.history[u];
    n > 0 && h.failed == [] && Distinct(h.completed) && |h.completed| == n == |s.frozen[u]|
    && s.frozen[u].Keys == Indices(h.completed)
  }

  /** A finalize has accepted the counters: every upload of it completed. */
  ghost predicate Accepted(s: State, u: nat, n: nat) {
    && u in s.frozen && u in s.history
    && var h := s.history[u];
    n > 0 && h.failed == [] && |h.completed| == n && s.frozen[u].Keys <= Indices(h.completed)
  }

  ghost predicate HasKey(s: State, u: nat, key: Key) {
    u in s.history && s.history[u].key == key
  }

  function Live(s: State, u: nat): set<nat> {
    set a | a in s.actors && s.actors[a].PartUpload? && s.actors[a].upload == u
  }

  /** Index i of u was stored by an upload that completed, failed, or is still running. */
  ghost predicate Accounted(s: State, u: nat, i: int)
    requires u in s.history
  {
    || i in s.history[u].completed
    || i in s.history[u].failed
    || exists a :: a in Live(s, u) && s.actors[a].index == i
  }

  /** started - finished counts the part uploads that did not complete. */
  ghost predicate CountsOk(s: State, u: nat)
    requires u in s.uploads
  {
    && HasKey(s, u, s.uploads[u].key)
    && var h := s.history[u];
    s.uploads[u].finished == |h.completed|
    && s.uploads[u].started == |h.completed| + |h.failed| + |Live(s, u)|
    && forall i :: i in PartsOf(s, u) ==> Accounted(s, u, i)
  }

  ghost predicate FrozenOk(s: State, u: nat)
    requires u in s.frozen
  {
    && u in s.history && s.history[u].failed == [] && s.frozen[u].Keys <= Indices(s.history[u].completed)
    && (forall i :: i in PartsOf(s, u) ==> i in s.frozen[u] && PartsOf(s, u)[i] == s.frozen[u][i])
    && (u in s.merged ==> CompleteCopy(s, u, s.merged[u]))
  }

  /** All frozen parts of u, in order and without a gap. */
  ghost predicate CompleteCopy(s: State, u: nat, data: Bytes) {
    u in s.frozen && HasFirst(s.frozen[u], |s.frozen[u]|) && data == Join(s.frozen[u], |s.frozen[u]|)
  }

  ghost predicate StreamOk(frozen: map<int, Bytes>, c: Stream) {
    var got := if c.open then c.next + 1 else c.next;
    && got <= c.partCount && HasFirst(frozen, got)
    && c.read + c.rest == Join(frozen, got)
    && (!c.open ==> c.rest == [])
    && c.client <= c.read && c.merge <= c.client
    && (c.lockstep && c.merge != c.client ==> |c.merge| >= c.synced)
    && |c.client| >= c.synced
    && (!c.open && c.end != Broken ==> CaughtUp(c))
    && (c.end == CleanEof ==> !c.open && c.next == c.partCount)
  }

  ghost predicate ActorOk(s: State, actor: Actor) {
    match actor
    case PartUpload(u, _, _, _) => u in s.history && u !in s.frozen
    case Finalizer(u, key, n, step) =>
      step != Reject ==>
        && HasKey(s, u, key)
        && (if step == CountParts then Accepted(s, u, n) else Finalized(s, u, n))
        && (step.Repoint? ==> step.entry in s.usedEntries)
        && (step.Repoint? && step.entry in s.entries ==> s.entries[step.entry].key == key)
        && (step.FindExisting? || step.Repoint? || step.InsertEntry? ==>
              step.loc in s.usedLocations && (step.loc in s.locations ==> s.locations[step.loc].folder == u))
    case Downloader(key, l, u, n, _) => Finalized(s, u, n) && HasKey(s, u, key) && Placed(s, l, u)
    case Copier(c) =>
      && Finalized(s, c.folder, c.partCount) && HasKey(s, c.folder, c.key)
      && StreamOk(s.frozen[c.folder], c)
    case MergedReader(key, u, data, sent, end) =>
      && HasKey(s, u, key) && CompleteCopy(s, u, data) && sent <= |data|
      && Finalized(s, u, |s.frozen[u]|)
      && (end == CleanEof ==> sent == |data|)
    case Worker(l, u, copier, _) => copier in s.actors && Feeds(s.actors[copier], u) && Placed(s, l, u)
    case PartsCleaner(l, u, _) => Placed(s, l, u)
    case _ => true
  }

  /** Location l was inserted for folder u. */
  ghost predicate Placed(s: State, l: nat, u: nat) {
    l in s.usedLocations && (l in s.locations ==> s.locations[l].folder == u)
  }

  predicate Feeds(copier: Actor, folder: nat) {
    copier.Copier? && copier.stream.lockstep && copier.stream.folder == folder
  }

  ghost predicate EntryOk(s: State, e: nat)
    requires e in s.entries
  {
    && e in s.usedEntries && s.entries[e].location in s.locations
    && HasKey(s, s.locations[s.entries[e].location].folder, s.entries[e].key)
  }

  ghost predicate UploadsOk(s: State) {
    forall u :: u in s.uploads ==> u in s.history && CountsOk(s, u)
  }

  ghost predicate ObjectsOk(s: State) {
    && (forall u :: u in s.parts ==> u in s.history)
    && (forall u :: u in s.merged ==> u in s.frozen)
    && (forall u :: u in s.frozen ==> FrozenOk(s, u))
  }

  ghost predicate LocationsOk(s: State) {
    forall l :: l in s.locations ==>
      l in s.usedLocations && Finalized(s, s.locations[l].folder, s.locations[l].partCount)
  }

  ghost predicate EntriesOk(s: State) {
    forall e :: e in s.entries ==> EntryOk(s, e)
  }

  ghost predicate ActorsOk(s: State) {
    forall a :: a in s.actors ==> ActorOk(s, s.actors[a])
  }

  ghost predicate Safe(s: State) {
    UploadsOk(s) && ObjectsOk(s) && LocationsOk(s) && EntriesOk(s) && ActorsOk(s)
  }

  // ---------- framing ----------

  /** What a step must leave alone for the other goroutines' claims to stay true. */
  ghost predicate Stable(s: State, t: State) {
    && (forall u :: u in s.frozen ==> u in t.frozen && t.frozen[u] == s.frozen[u])
    && (forall u :: u in s.history ==> u in t.history && t.history[u].key == s.history[u].key)
    && (forall u :: u in s.frozen && u in s.history ==> t.history[u] == s.history[u])
    && s.usedEntries <= t.usedEntries && s.usedLocations <= t.usedLocations
    && (forall e :: e in t.entries && e in s.usedEntries ==> e in s.entries && t.entries[e].key == s.entries[e].key)
    && (forall l :: l in t.locations && l in s.usedLocations ==>
          l in s.locations && t.locations[l].folder == s.locations[l].folder)
    && (forall u :: u in t.frozen && u !in s.frozen ==> Live(s, u) == {})
  }

  /** Goroutine a moves and w, if it is another one, is new; copiers go on copying the same folder. */
  ghost predicate Moves(s: State, t: State, a: nat, w: nat) {
    && (forall b :: b in t.actors && b != a && b != w ==> b in s.actors && t.actors[b] == s.actors[b])
    && (forall b :: b in s.actors ==> b in t.actors)
    && (w != a ==> w !in s.actors)
    && (a in s.actors && s.actors[a].Copier? ==> SameSource(s.actors[a], t.actors[a]))
  }

  predicate SameSource(was: Actor, now: Actor)
    requires was.Copier?
  {
    now.Copier? && now.stream.lockstep == was.stream.lockstep && now.stream.folder == was.stream.folder
  }

  /** A claim that does not depend on the step survives it. */
  lemma ActorStable(s: State, t: State, a: nat, w: nat, b: nat)
    requires Stable(s, t) && Moves(s, t, a, w) && b in s.actors && ActorOk(s, s.actors[b])
    ensures ActorOk(t, s.actors[b])
  {
    var x := s.actors[b];
    if x.PartUpload? {
      assert b in Live(s, x.upload);
    }
  }

  lemma ActorsFrame(s: State, t: State, a: nat, w: nat)
    requires ActorsOk(s) && Stable(s, t) && Moves(s, t, a, w)
    requires a in t.actors ==> ActorOk(t, t.actors[a])
    requires w in t.actors ==> ActorOk(t, t.actors[w])
    ensures ActorsOk(t)
  {
    forall b | b in t.actors ensures ActorOk(t, t.actors[b]) {
      if b != a && b != w { ActorStable(s, t, a, w, b); }
    }
  }

  /** No part upload starts or ends. */
  ghost predicate SameUploads(s: State, t: State) {
    && (forall b :: b in t.actors && t.actors[b].PartUpload? ==> b in s.actors && s.actors[b] == t.actors[b])
    && (forall b :: b in s.actors && s.actors[b].PartUpload? ==> b in t.actors && t.actors[b] == s.actors[b])
  }

  /** Objects may only disappear. */
  ghost predicate Shrinks(s: State, t: State) {
    && (forall u :: u in t.parts ==> u in s.parts)
    && (forall u, i :: i in PartsOf(t, u) ==> i in PartsOf(s, u) && PartsOf(t, u)[i] == PartsOf(s, u)[i])
    && (forall u :: u in t.merged ==> u in s.merged && t.merged[u] == s.merged[u])
  }

  lemma UploadsFrame(s: State, t: State)
    requires UploadsOk(s) && t.history == s.history && SameUploads(s, t)
    requires forall u :: u in t.uploads ==> u in s.uploads && t.uploads[u] == s.uploads[u]
    requires forall u, i :: i in PartsOf(t, u) ==> i in PartsOf(s, u)
    ensures UploadsOk(t)
  {
    forall u | u in t.uploads ensures u in t.history && CountsOk(t, u) {
      assert CountsOk(s, u) && Live(t, u) == Live(s, u);
      forall i | i in PartsOf(t, u) ensures Accounted(t, u, i) {
        assert Accounted(s, u, i);
      }
    }
  }

  lemma ObjectsFrame(s: State, t: State)
    requires ObjectsOk(s) && t.history == s.history && t.frozen == s.frozen && Shrinks(s, t)
    ensures ObjectsOk(t)
  {
    forall u | u in t.frozen ensures FrozenOk(t, u) {
      assert FrozenOk(s, u);
    }
  }

  /** The columns that say which archive the row stands for. */
  predicate SameArchiveRow(r: Location, q: Location) {
    q.folder == r.folder && q.partCount == r.partCount
  }

  lemma LocationsFrame(s: State, t: State)
    requires LocationsOk(s) && Stable(s, t)
    requires forall l :: l in t.locations ==> l in s.locations && SameArchiveRow(s.locations[l], t.locations[l])
    ensures LocationsOk(t)
  {
  }

  lemma EntriesFrame(s: State, t: State)
    requires EntriesOk(s) && Stable(s, t)
    requires forall e :: e in t.entries ==>
      e in s.entries && t.entries[e] == s.entries[e] && t.entries[e].location in t.locations
      && t.locations[t.entries[e].location].folder == s.locations[s.entries[e].location].folder
    ensures EntriesOk(t)
  {
    forall e | e in t.entries ensures EntryOk(t, e) {
      assert EntryOk(s, e);
    }
  }

  /** No id is handed out, nothing is frozen or logged; rows and objects only disappear, rows keep their
      folder and part count. */
  ghost predicate Trimmed(s: State, t: State) {
    && t.history == s.history && t.frozen == s.frozen && t.usedEntries == s.usedEntries
    && t.usedLocations == s.usedLocations
    && Shrinks(s, t)
    && (forall u :: u in t.uploads ==> u in s.uploads && t.uploads[u] == s.uploads[u])
    && (forall l :: l in t.locations ==> l in s.locations && SameArchiveRow(s.locations[l], t.locations[l]))
    && (forall e :: e in t.entries ==> e in s.entries && t.entries[e] == s.entries[e])
    && (forall e :: e in t.entries && t.entries[e].location in s.locations ==> t.entries[e].location in t.locations)
  }

  /** The common case: goroutine a moves, and may start w. */
  ghost predicate Tame(s: State, t: State, a: nat, w: nat) {
    Trimmed(s, t) && Moves(s, t, a, w) && SameUploads(s, t)
  }

  lemma TameSafe(s: State, t: State, a: nat, w: nat)
    requires Safe(s) && Tame(s, t, a, w)
    requires a in t.actors ==> ActorOk(t, t.actors[a])
    requires w in t.actors ==> ActorOk(t, t.actors[w])
    ensures Safe(t)
  {
    assert Stable(s, t) by { TameStable(s, t, a, w); }
    UploadsFrame(s, t);
    ObjectsFrame(s, t);
    LocationsFrame(s, t);
    EntriesKept(s, t, a, w);
    ActorsFrame(s, t, a, w);
  }

  lemma TameStable(s: State, t: State, a: nat, w: nat)
    requires EntriesOk(s) && LocationsOk(s) && Tame(s, t, a, w)
    ensures Stable(s, t)
  {
  }

  lemma EntriesKept(s: State, t: State, a: nat, w: nat)
    requires EntriesOk(s) && Stable(s, t) && Tame(s, t, a, w)
    ensures EntriesOk(t)
  {
    forall e | e in t.entries ensures t.entries[e].location in t.locations {
      assert EntryOk(s, e);
    }
    EntriesFrame(s, t);
  }

  // ---------- CreateUpload and UploadPart ----------

  /** Only goroutine a and the records of upload u change. */
  ghost predicate OnlyUpload(s: State, t: State, a: nat, u: nat) {
    && t.locations == s.locations && t.entries == s.entries && t.merged == s.merged && t.frozen == s.frozen
    && t.usedEntries == s.usedEntries && t.usedLocations == s.usedLocations
    && (forall v :: v in t.uploads && v != u ==> v in s.uploads && t.uploads[v] == s.uploads[v])
    && (forall v :: v in s.history ==> v in t.history)
    && (forall v :: v in t.history && v != u ==> v in s.history && t.history[v] == s.history[v])
    && (forall v :: v != u ==> PartsOf(t, v) == PartsOf(s, v))
    && (forall v :: v in t.parts && v != u ==> v in s.parts)
    && u in t.history && (u in s.history ==> t.history[u].key == s.history[u].key)
    && (forall b :: b in t.actors && b != a ==> b in s.actors && t.actors[b] == s.actors[b])
    && (forall b :: b in s.actors ==> b in t.actors)
    && (t.actors == s.actors || (OfUpload(s, a, u) && OfUpload(t, a, u)))
  }

  predicate OfUpload(s: State, a: nat, u: nat) {
    a in s.actors ==> !s.actors[a].Copier? && (s.actors[a].PartUpload? ==> s.actors[a].upload == u)
  }

  lemma OtherCounts(s: State, t: State, a: nat, u: nat, v: nat)
    requires OnlyUpload(s, t, a, u) && v != u && v in t.uploads && CountsOk(s, v)
    ensures CountsOk(t, v)
  {
    assert Live(t, v) == Live(s, v);
    forall i | i in PartsOf(t, v) ensures Accounted(t, v, i) {
      assert Accounted(s, v, i);
    }
  }

  lemma OnlyUploadStable(s: State, t: State, a: nat, u: nat)
    requires OnlyUpload(s, t, a, u) && u !in s.frozen && EntriesOk(s) && LocationsOk(s)
    ensures Stable(s, t) && Moves(s, t, a, a)
  {
  }

  lemma OnlyUploadObjects(s: State, t: State, a: nat, u: nat)
    requires OnlyUpload(s, t, a, u) && u !in s.frozen && ObjectsOk(s)
    ensures ObjectsOk(t)
  {
    forall v | v in t.frozen ensures FrozenOk(t, v) {
      assert FrozenOk(s, v);
    }
  }

  lemma OnlyUploadSafe(s: State, t: State, a: nat, u: nat)
    requires Safe(s) && OnlyUpload(s, t, a, u) && u !in s.frozen
    requires u in t.uploads ==> CountsOk(t, u)
    requires a in t.actors ==> ActorOk(t, t.actors[a])
    ensures Safe(t)
  {
    OnlyUploadStable(s, t, a, u);
    assert UploadsOk(t) by {
      forall v | v in t.uploads ensures v in t.history && CountsOk(t, v) {
        if v != u { OtherCounts(s, t, a, u, v); }
      }
    }
    OnlyUploadObjects(s, t, a, u);
    LocationsFrame(s, t);
    SameEntries(s, t);
    ActorsFrame(s, t, a, a);
  }

  lemma SameEntries(s: State, t: State)
    requires EntriesOk(s) && Stable(s, t) && t.entries == s.entries && t.locations == s.locations
    ensures EntriesOk(t)
  {
    forall e | e in t.entries ensures EntryOk(t, e) {
      assert EntryOk(s, e);
    }
  }

  lemma PartFacts(s: State, a: nat, op: PartOp)
    requires UploadsOk(s) && ActorsOk(s) && CanPart(s, a, op)
    ensures var u := s.actors[a].upload;
      u in s.history && u !in s.frozen && OfUpload(s, a, u) && (u in s.uploads ==> CountsOk(s, u))
  {
    assert ActorOk(s, s.actors[a]);
  }

  lemma StoreEffect(s: State, a: nat)
    requires CanPart(s, a, StorePart) && s.actors[a].upload in s.history && s.actors[a].upload !in s.frozen
    ensures var t := DoPart(s, a, StorePart);
      OnlyUpload(s, t, a, s.actors[a].upload) && a in t.actors && ActorOk(t, t.actors[a]) && t.uploads == s.uploads
  {
  }

  lemma StorePartSafe(s: State, a: nat)
    requires Safe(s) && CanPart(s, a, StorePart)
    ensures Safe(DoPart(s, a, StorePart))
  {
    PartFacts(s, a, StorePart);
    hide *;
    StoreEffect(s, a);
    if s.actors[a].upload in s.uploads { StoreCounts(s, a); }
    OnlyUploadSafe(s, DoPart(s, a, StorePart), a, s.actors[a].upload);
  }

  lemma StoreCounts(s: State, a: nat)
    requires CanPart(s, a, StorePart) && s.actors[a].upload in s.uploads && CountsOk(s, s.actors[a].upload)
    ensures CountsOk(DoPart(s, a, StorePart), s.actors[a].upload)
  {
    var t := DoPart(s, a, StorePart);
    var u := s.actors[a].upload;
    assert Live(t, u) == Live(s, u) && a in Live(s, u);
    forall i | i in PartsOf(t, u) ensures Accounted(t, u, i) {
      if i == s.actors[a].index { assert t.actors[a].index == i; } else { assert Accounted(s, u, i); }
    }
  }

  /** Rewriting the row, the history and the objects of u touches nothing else. */
  lemma Rewritten(s: State, t: State, a: nat, u: nat, row: map<nat, Upload>, h: PartHistory, x: Actor)
    requires u in s.history && h.key == s.history[u].key
    requires row == s.uploads || (u in row && row == s.uploads[u := row[u]])
    requires t == Set(s.(uploads := row, history := s.history[u := h]), a, x)
    requires OfUpload(s, a, u) && !x.Copier? && (x.PartUpload? ==> x.upload == u)
    ensures OnlyUpload(s, t, a, u)
  {
  }

  lemma EndShape(s: State, a: nat, op: PartOp) returns (rows: map<nat, Upload>, h: PartHistory)
    requires CanPart(s, a, op) && op != StorePart && s.actors[a].upload in s.history
    ensures var u := s.actors[a].upload;
      && DoPart(s, a, op) == Set(s.(uploads := rows, history := s.history[u := h]), a, Ended)
      && h.key == s.history[u].key
      && (rows == s.uploads || (u in s.uploads && u in rows && rows == s.uploads[u := rows[u]]))
  {
    var u, index := s.actors[a].upload, s.actors[a].index;
    rows := s.uploads;
    if op.FailPart? {
      h := LogFailed(s.history[u], index);
    } else if u in s.uploads {
      h := LogCompleted(s.history[u], index);
      rows := s.uploads[u := Finished(s.uploads[u], op.now)];
    } else {
      h := s.history[u];
      assert s.history == s.history[u := h];
    }
  }

  lemma EndPartSafe(s: State, a: nat, op: PartOp)
    requires Safe(s) && CanPart(s, a, op) && op != StorePart
    ensures Safe(DoPart(s, a, op))
  {
    var u := s.actors[a].upload;
    PartFacts(s, a, op);
    hide *;
    var rows, h := EndShape(s, a, op);
    Rewritten(s, DoPart(s, a, op), a, u, rows, h, Ended);
    if u in s.uploads { EndCounts(s, a, op); }
    EndedOk(DoPart(s, a, op));
    OnlyUploadSafe(s, DoPart(s, a, op), a, u);
  }

  lemma EndedOk(s: State)
    ensures ActorOk(s, Ended)
  {
  }

  lemma EndCounts(s: State, a: nat, op: PartOp)
    requires CanPart(s, a, op) && op != StorePart
    requires s.actors[a].upload in s.uploads && CountsOk(s, s.actors[a].upload)
    ensures CountsOk(DoPart(s, a, op), s.actors[a].upload)
  {
    var t := DoPart(s, a, op);
    var u := s.actors[a].upload;
    assert Live(t, u) == Live(s, u) - {a} && a in Live(s, u);
    forall i | i in PartsOf(t, u) ensures Accounted(t, u, i) {
      EndAccounted(s, t, a, u, i);
    }
  }

  lemma EndAccounted(s: State, t: State, a: nat, u: nat, i: int)
    requires u in s.history && Accounted(s, u, i) && a in s.actors && s.actors[a].PartUpload?
    requires t.actors == s.actors[a := Ended] && u in t.history
    requires || t.history[u] == LogCompleted(s.history[u], s.actors[a].index)
             || t.history[u] == LogFailed(s.history[u], s.actors[a].index)
    ensures Accounted(t, u, i)
  {
    if i !in s.history[u].completed && i !in s.history[u].failed {
      var b :| b in Live(s, u) && s.actors[b].index == i;
      if b != a { assert b in Live(t, u) && t.actors[b].index == i; }
    }
  }

  lemma StartCounts(s: State, t: State, a: nat, u: nat, x: Actor)
    requires u in s.uploads && CountsOk(s, u) && a !in s.actors && x.PartUpload? && x.upload == u
    requires t == Set(s.(uploads := s.uploads[u := Started(s.uploads[u])]), a, x)
    ensures CountsOk(t, u)
  {
    assert Live(t, u) == Live(s, u) + {a};
    forall i | i in PartsOf(t, u) ensures Accounted(t, u, i) {
      assert Accounted(s, u, i);
      if b :| b in Live(s, u) && s.actors[b].index == i { assert b in Live(t, u) && t.actors[b].index == i; }
    }
  }

  lemma StartPartSafe(s: State, a: nat, u: nat, index: int, body: Bytes)
    requires Safe(s) && Enabled(s, StartPart(a, u, index, body))
    ensures Safe(Next(s, StartPart(a, u, index, body)))
  {
    var x := PartUpload(u, index, body, false);
    var t := Set(s.(uploads := s.uploads[u := Started(s.uploads[u])]), a, x);
    assert t == Next(s, StartPart(a, u, index, body));
    assert CountsOk(s, u) && u !in s.frozen && u in t.history && t.frozen == s.frozen && a !in s.actors;
    assert t.actors == s.actors[a := x];
    assert OfUpload(s, a, u) && ActorOk(t, x);
    assert s.history == s.history[u := s.history[u]];
    hide *;
    StartCounts(s, t, a, u, x);
    Rewritten(s, t, a, u, t.uploads, s.history[u], x);
    OnlyUploadSafe(s, t, a, u);
  }

  /** A fresh id has no records anywhere. */
  lemma FreshUpload(s: State, u: nat)
    requires ObjectsOk(s) && ActorsOk(s) && u !in s.history
    ensures u !in s.frozen && Live(s, u) == {} && PartsOf(s, u) == map[]
  {
    assert u in s.frozen ==> FrozenOk(s, u);
    assert forall a :: a in Live(s, u) ==> ActorOk(s, s.actors[a]);
  }

  lemma CreateEffect(s: State, u: nat, key: Key, now: int)
    requires u !in s.history && u !in s.frozen && Live(s, u) == {} && PartsOf(s, u) == map[]
    ensures var t := Next(s, CreateUpload(u, key, now));
      OnlyUpload(s, t, 0, u) && u in t.uploads && CountsOk(t, u) && t.actors == s.actors
  {
    assert Live(Next(s, CreateUpload(u, key, now)), u) == {};
  }

  lemma IdleOk(s: State, t: State, u: nat, a: nat)
    requires ActorsOk(s) && EntriesOk(s) && LocationsOk(s) && OnlyUpload(s, t, 0, u) && t.actors == s.actors
    requires u !in s.frozen
    requires a in t.actors
    ensures ActorOk(t, t.actors[a])
  {
    OnlyUploadStable(s, t, 0, u);
    ActorStable(s, t, 0, 0, a);
  }

  lemma CreateUploadSafe(s: State, u: nat, key: Key, now: int)
    requires Safe(s) && Enabled(s, CreateUpload(u, key, now))
    ensures Safe(Next(s, CreateUpload(u, key, now)))
  {
    var t := Next(s, CreateUpload(u, key, now));
    assert u !in s.history && ObjectsOk(s) && ActorsOk(s) && EntriesOk(s) && LocationsOk(s);
    hide *;
    FreshUpload(s, u);
    CreateEffect(s, u, key, now);
    if 0 in t.actors { IdleOk(s, t, u, 0); }
    OnlyUploadSafe(s, t, 0, u);
  }

  // ---------- CompleteUpload ----------

  lemma NothingLive(s: State, u: nat)
    requires u in s.uploads && CountsOk(s, u) && s.uploads[u].started == s.uploads[u].finished
    ensures Live(s, u) == {} && s.history[u].failed == []
    ensures PartsOf(s, u).Keys <= Indices(s.history[u].completed)
  {
    forall i | i in PartsOf(s, u) ensures i in s.history[u].completed {
      assert Accounted(s, u, i);
    }
  }

  /** What a finalize that accepts the counters does: it freezes the parts, once. */
  lemma FreezeSafe(s: State, t: State, a: nat, u: nat, x: Actor)
    requires Safe(s) && a !in s.actors && u in s.uploads && s.uploads[u].started == s.uploads[u].finished != 0
    requires t == Set(if u in s.frozen then s else s.(frozen := s.frozen[u := PartsOf(s, u)]), a, x)
    requires x == Finalizer(u, s.uploads[u].key, s.uploads[u].finished, CountParts)
    ensures Safe(t)
  {
    assert CountsOk(s, u);
    NothingLive(s, u);
    FreezeStable(s, t, a, u, x);
    FreezeObjects(s, t, a, u, x);
    assert ActorOk(t, x) by { assert FrozenOk(t, u); }
    hide *;
    FreezeFrames(s, t, a, u, x);
  }

  lemma FreezeStable(s: State, t: State, a: nat, u: nat, x: Actor)
    requires EntriesOk(s) && LocationsOk(s) && Live(s, u) == {} && a !in s.actors && x.Finalizer?
    requires t == Set(if u in s.frozen then s else s.(frozen := s.frozen[u := PartsOf(s, u)]), a, x)
    ensures Stable(s, t) && Moves(s, t, a, a) && SameUploads(s, t)
    ensures t.history == s.history && t.uploads == s.uploads && t.parts == s.parts && t.entries == s.entries
    ensures t.locations == s.locations
    ensures a in t.actors && t.actors[a] == x
  {
  }

  lemma FreezeObjects(s: State, t: State, a: nat, u: nat, x: Actor)
    requires ObjectsOk(s) && u in s.history && s.history[u].failed == []
    requires PartsOf(s, u).Keys <= Indices(s.history[u].completed)
    requires t == Set(if u in s.frozen then s else s.(frozen := s.frozen[u := PartsOf(s, u)]), a, x)
    ensures ObjectsOk(t) && u in t.frozen
  {
    forall v | v in t.frozen ensures FrozenOk(t, v) {
      if v in s.frozen { assert FrozenOk(s, v); }
    }
  }

  lemma FreezeFrames(s: State, t: State, a: nat, u: nat, x: Actor)
    requires Safe(s) && ObjectsOk(t) && Stable(s, t) && Moves(s, t, a, a) && SameUploads(s, t)
    requires t.history == s.history && t.uploads == s.uploads && t.parts == s.parts && t.entries == s.entries
    requires t.locations == s.locations
    requires a in t.actors && t.actors[a] == x && ActorOk(t, x)
    ensures Safe(t)
  {
    assert UploadsOk(t) by { UploadsFrame(s, t); }
    LocationsFrame(s, t);
    SameEntries(s, t);
    ActorsFrame(s, t, a, a);
  }

  /** Goroutine a may become x: neither is a part upload, and a copier keeps its source. */
  predicate MayBecome(s: State, a: nat, x: Actor) {
    && !x.PartUpload?
    && (a in s.actors ==> !s.actors[a].PartUpload?)
    && (a in s.actors && s.actors[a].Copier? ==> SameSource(s.actors[a], x))
  }

  lemma TameSet(s: State, m: State, a: nat, x: Actor)
    requires Trimmed(s, m) && m.actors == s.actors && MayBecome(s, a, x)
    ensures Tame(s, Set(m, a, x), a, a)
  {
    var t := Set(m, a, x);
    assert Shrinks(s, t) by {
      forall u ensures PartsOf(t, u) == PartsOf(m, u) {}
    }
  }

  /** Goroutine a does m to the shared state and becomes x, whose claims hold. */
  lemma StepSafe(s: State, m: State, a: nat, x: Actor)
    requires Safe(s) && Trimmed(s, m) && m.actors == s.actors && MayBecome(s, a, x)
    requires ActorOk(Set(m, a, x), x)
    ensures Safe(Set(m, a, x))
  {
    var t := Set(m, a, x);
    assert t.actors[a] == x;
    hide *;
    TameSet(s, m, a, x);
    TameSafe(s, t, a, a);
  }

  lemma NoEffect(s: State)
    ensures Trimmed(s, s)
  {
  }

  lemma DropLocationTrims(s: State, l: nat)
    ensures Trimmed(s, DropLocation(s, l)) && DropLocation(s, l).actors == s.actors
  {
  }

  lemma SetLocationTrims(s: State, l: nat, row: Location -> Location)
    requires l in s.locations ==>
      row(s.locations[l]).folder == s.locations[l].folder && row(s.locations[l]).partCount == s.locations[l].partCount
    ensures Trimmed(s, SetLocation(s, l, row)) && SetLocation(s, l, row).actors == s.actors
  {
  }

  lemma RestrictTrims(s: State, t: State, u: nat, keep: set<int>)
    requires t.parts == RestrictAt(s.parts, u, keep)
    requires forall v :: v in t.merged ==> v in s.merged && t.merged[v] == s.merged[v]
    ensures Shrinks(s, t)
  {
    forall v, i | i in PartsOf(t, v) ensures i in PartsOf(s, v) && PartsOf(t, v)[i] == PartsOf(s, v)[i] {}
  }

  lemma KeepPartsTrims(s: State, u: nat, keep: set<int>)
    ensures Trimmed(s, KeepParts(s, u, keep)) && KeepParts(s, u, keep).actors == s.actors
  {
    RestrictTrims(s, KeepParts(s, u, keep), u, keep);
    hide Shrinks;
  }

  lemma KeepFolderTrims(s: State, u: nat, keep: set<int>, keepMerged: bool)
    ensures Trimmed(s, KeepFolder(s, u, keep, keepMerged)) && KeepFolder(s, u, keep, keepMerged).actors == s.actors
  {
    RestrictTrims(s, KeepFolder(s, u, keep, keepMerged), u, keep);
    hide Shrinks;
  }

  /** The number of files equals the number of completed uploads, so no index was uploaded twice. */
  lemma CountSettles(s: State, u: nat, n: nat)
    requires u in s.frozen && FrozenOk(s, u) && Accepted(s, u, n) && |PartsOf(s, u)| == n
    ensures Finalized(s, u, n)
  {
    var files, done := PartsOf(s, u).Keys, s.history[u].completed;
    IndicesBound(done);
    forall i | i in files ensures i in s.frozen[u].Keys { assert i in PartsOf(s, u); }
    SubsetSize(files, s.frozen[u].Keys);
    SubsetSize(s.frozen[u].Keys, Indices(done));
    Pigeonhole(done);
  }

  lemma CountFilesSafe(s: State, a: nat)
    requires Safe(s) && CanFinalize(s, a, CountFiles)
    ensures Safe(DoFinalize(s, a, CountFiles))
  {
    var f := s.actors[a];
    var x := DoFinalize(s, a, CountFiles).actors[a];
    assert ActorOk(s, f);
    if x.step == InsertLocation {
      assert FrozenOk(s, f.upload);
      CountSettles(s, f.upload, f.count);
    }
    NoEffect(s);
    StepSafe(s, s, a, x);
  }

  lemma AddLocationSafe(s: State, a: nat, l: nat)
    requires Safe(s) && CanFinalize(s, a, AddLocation(l))
    ensures Safe(DoFinalize(s, a, AddLocation(l)))
  {
    var t := DoFinalize(s, a, AddLocation(l));
    var f := s.actors[a];
    assert ActorOk(s, f);
    AddLocationStable(s, t, a, l, f);
    assert LocationsOk(t) by { AddLocationRows(s, t, l, f.upload, f.count); }
    assert EntriesOk(t) by { AddLocationEntries(s, t, l); }
    assert ActorOk(t, t.actors[a]);
    hide *;
    KeptSafe(s, t, a);
  }

  lemma AddLocationStable(s: State, t: State, a: nat, l: nat, f: Actor)
    requires LocationsOk(s) && EntriesOk(s) && a in s.actors && f == s.actors[a] && f.Finalizer?
    requires l !in s.usedLocations
    requires t == Set(s.(locations := s.locations[l := Location(f.upload, f.count, None, None, None, None)],
                         usedLocations := s.usedLocations + {l}), a, f.(step := FindExisting(l)))
    ensures Stable(s, t) && Moves(s, t, a, a) && SameUploads(s, t) && Kept(s, t)
  {
  }

  lemma AddLocationRows(s: State, t: State, l: nat, u: nat, n: nat)
    requires LocationsOk(s) && l !in s.usedLocations && Finalized(s, u, n) && t.history == s.history
    requires t.frozen == s.frozen
    requires t.locations == s.locations[l := Location(u, n, None, None, None, None)]
    requires t.usedLocations == s.usedLocations + {l}
    ensures LocationsOk(t)
  {
    forall k | k in t.locations ensures Finalized(t, t.locations[k].folder, t.locations[k].partCount) {}
  }

  lemma AddLocationEntries(s: State, t: State, l: nat)
    requires EntriesOk(s) && LocationsOk(s) && l !in s.usedLocations && l in t.locations
    requires t.history == s.history && t.entries == s.entries && t.usedEntries == s.usedEntries
    requires t.locations == s.locations[l := t.locations[l]]
    ensures EntriesOk(t)
  {
    forall e | e in t.entries ensures EntryOk(t, e) {
      assert EntryOk(s, e);
    }
  }

  /** Uploads, objects and their records stay as they are. */
  ghost predicate Kept(s: State, t: State) {
    && t.history == s.history && t.uploads == s.uploads && t.parts == s.parts && t.merged == s.merged
    && t.frozen == s.frozen
  }

  lemma KeptSafe(s: State, t: State, a: nat)
    requires Safe(s) && Stable(s, t) && Moves(s, t, a, a) && SameUploads(s, t) && Kept(s, t)
    requires LocationsOk(t) && EntriesOk(t)
    requires a in t.actors ==> ActorOk(t, t.actors[a])
    ensures Safe(t)
  {
    KeptShrinks(s, t);
    hide UploadsOk, ObjectsOk, LocationsOk, EntriesOk, ActorsOk, Stable, Moves, SameUploads, ActorOk, Shrinks, PartsOf;
    UploadsFrame(s, t);
    ObjectsFrame(s, t);
    ActorsFrame(s, t, a, a);
  }

  lemma KeptShrinks(s: State, t: State)
    requires Kept(s, t)
    ensures Shrinks(s, t)
    ensures forall u, i :: i in PartsOf(t, u) ==> i in PartsOf(s, u)
  {
  }

  lemma LookExistingFacts(s: State, a: nat, found: Option<nat>)
    requires ActorsOk(s) && EntriesOk(s) && CanFinalize(s, a, LookExisting(found))
    ensures var t := DoFinalize(s, a, LookExisting(found));
      a in t.actors && t == Set(s, a, t.actors[a]) && MayBecome(s, a, t.actors[a]) && ActorOk(t, t.actors[a])
  {
    assert ActorOk(s, s.actors[a]);
    assert found.Some? ==> EntryOk(s, found.value);
  }

  lemma LookExistingSafe(s: State, a: nat, found: Option<nat>)
    requires Safe(s) && CanFinalize(s, a, LookExisting(found))
    ensures Safe(DoFinalize(s, a, LookExisting(found)))
  {
    assert ActorsOk(s) && EntriesOk(s);
    hide *;
    LookExistingFacts(s, a, found);
    NoEffect(s);
    StepSafe(s, s, a, DoFinalize(s, a, LookExisting(found)).actors[a]);
  }

  /** Pointing entry e at location l, both of key's uploads. */
  lemma PointsSafe(s: State, t: State, a: nat, e: nat, l: nat, key: Key, now: int, x: Actor)
    requires Safe(s) && l in s.locations && HasKey(s, s.locations[l].folder, key)
    requires t == Set(s.(entries := s.entries[e := Entry(key, now, l)], usedEntries := s.usedEntries + {e}), a, x)
    requires e in s.entries ==> s.entries[e].key == key
    requires e in s.usedEntries ==> e in s.entries
    requires MayBecome(s, a, x) && ActorOk(t, x)
    ensures Safe(t)
  {
    PointsStable(s, t, a, e, l, key, now, x);
    PointsEntries(s, t, e, l, key);
    assert t.actors[a] == x && t.locations == s.locations;
    hide *;
    LocationsFrame(s, t);
    KeptSafe(s, t, a);
  }

  lemma PointsStable(s: State, t: State, a: nat, e: nat, l: nat, key: Key, now: int, x: Actor)
    requires LocationsOk(s) && EntriesOk(s)
    requires t == Set(s.(entries := s.entries[e := Entry(key, now, l)], usedEntries := s.usedEntries + {e}), a, x)
    requires e in s.entries ==> s.entries[e].key == key
    requires e in s.usedEntries ==> e in s.entries
    requires MayBecome(s, a, x)
    ensures Stable(s, t) && Moves(s, t, a, a) && SameUploads(s, t) && Kept(s, t)
  {
  }

  lemma PointsEntries(s: State, t: State, e: nat, l: nat, key: Key)
    requires EntriesOk(s) && l in s.locations && HasKey(s, s.locations[l].folder, key)
    requires t.history == s.history && t.locations == s.locations && t.usedEntries == s.usedEntries + {e}
    requires e in t.entries && t.entries == s.entries[e := t.entries[e]] && t.entries[e].key == key
    requires t.entries[e].location == l
    ensures EntriesOk(t)
  {
    forall d | d in t.entries ensures EntryOk(t, d) {
      assert d != e ==> EntryOk(s, d);
    }
  }

  lemma RepointFacts(s: State, a: nat, now: int)
    requires ActorsOk(s) && CanFinalize(s, a, RepointEntry(now)) && s.actors[a].step.entry in s.entries
    ensures var f := s.actors[a];
      var x := f.(step := DropOldRow(f.step.oldLoc, f.step.oldFolder));
      var e := f.step.entry;
      && HasKey(s, s.locations[f.step.loc].folder, f.key) && s.entries[e].key == f.key && MayBecome(s, a, x)
      && DoFinalize(s, a, RepointEntry(now))
         == Set(s.(entries := s.entries[e := Entry(f.key, now, f.step.loc)], usedEntries := s.usedEntries + {e}), a, x)
      && ActorOk(DoFinalize(s, a, RepointEntry(now)), x)
  {
    assert ActorOk(s, s.actors[a]);
    assert s.usedEntries + {s.actors[a].step.entry} == s.usedEntries;
  }

  lemma RepointEntrySafe(s: State, a: nat, now: int)
    requires Safe(s) && CanFinalize(s, a, RepointEntry(now))
    ensures Safe(DoFinalize(s, a, RepointEntry(now)))
  {
    var f := s.actors[a];
    var x := f.(step := DropOldRow(f.step.oldLoc, f.step.oldFolder));
    var e := f.step.entry;
    if e in s.entries {
      assert f.step.loc in s.locations;
      var t := DoFinalize(s, a, RepointEntry(now));
      assert ActorsOk(s);
      hide *;
      RepointFacts(s, a, now);
      PointsSafe(s, t, a, e, f.step.loc, f.key, now, x);
    } else {
      assert ActorOk(s, f);
      NoEffect(s);
      StepSafe(s, s, a, x);
    }
  }

  lemma AddEntryFacts(s: State, a: nat, e: nat, now: int)
    requires ActorsOk(s) && EntriesOk(s) && CanFinalize(s, a, AddEntry(e, now))
    ensures var f := s.actors[a];
      var x := f.(step := DropUpload);
      && f.step.loc in s.locations && HasKey(s, s.locations[f.step.loc].folder, f.key)
      && DoFinalize(s, a, AddEntry(e, now))
         == Set(s.(entries := s.entries[e := Entry(f.key, now, f.step.loc)], usedEntries := s.usedEntries + {e}), a, x)
      && e !in s.entries && e !in s.usedEntries
      && MayBecome(s, a, x) && ActorOk(DoFinalize(s, a, AddEntry(e, now)), x)
  {
    assert ActorOk(s, s.actors[a]) && (e in s.entries ==> EntryOk(s, e));
  }

  lemma AddEntrySafe(s: State, a: nat, e: nat, now: int)
    requires Safe(s) && CanFinalize(s, a, AddEntry(e, now))
    ensures Safe(DoFinalize(s, a, AddEntry(e, now)))
  {
    hide ActorOk, EntryOk, HasKey, MayBecome, DoFinalize;
    var f := s.actors[a];
    AddEntryFacts(s, a, e, now);
    PointsSafe(s, DoFinalize(s, a, AddEntry(e, now)), a, e, f.step.loc, f.key, now, f.(step := DropUpload));
  }

  lemma DropOldLocationSafe(s: State, a: nat)
    requires Safe(s) && CanFinalize(s, a, DropOldLocation)
    ensures Safe(DoFinalize(s, a, DropOldLocation))
  {
    var f := s.actors[a];
    assert ActorOk(s, f);
    DropLocationTrims(s, f.step.oldLoc);
    StepSafe(s, DropLocation(s, f.step.oldLoc), a, f.(step := DropOldFolder(f.step.oldFolder)));
  }

  lemma DropOldFilesSafe(s: State, a: nat, keep: set<int>, keepMerged: bool, more: bool)
    requires Safe(s) && CanFinalize(s, a, DropOldFiles(keep, keepMerged, more))
    ensures Safe(DoFinalize(s, a, DropOldFiles(keep, keepMerged, more)))
  {
    var f := s.actors[a];
    assert ActorOk(s, f);
    KeepFolderTrims(s, f.step.oldFolder, keep, keepMerged);
    StepSafe(s, KeepFolder(s, f.step.oldFolder, keep, keepMerged), a, if more then f else f.(step := DropUpload));
  }

  lemma DropUploadTrims(s: State, u: nat)
    ensures Trimmed(s, DropUploadRow(s, u)) && DropUploadRow(s, u).actors == s.actors
  {
  }

  lemma FinalizeSafe(s: State, a: nat, op: FinalizeOp)
    requires Safe(s) && CanFinalize(s, a, op)
    ensures Safe(DoFinalize(s, a, op))
  {
    match op
    case CountFiles => CountFilesSafe(s, a);
    case AddLocation(l) => AddLocationSafe(s, a, l);
    case LookExisting(found) => LookExistingSafe(s, a, found);
    case RepointEntry(now) => RepointEntrySafe(s, a, now);
    case DropOldLocation => DropOldLocationSafe(s, a);
    case DropOldFiles(keep, keepMerged, more) => DropOldFilesSafe(s, a, keep, keepMerged, more);
    case AddEntry(e, now) => AddEntrySafe(s, a, e, now);
    case FinishUpload =>
      DropUploadTrims(s, s.actors[a].upload);
      StepSafe(s, DropUploadRow(s, s.actors[a].upload), a, Ended);
    case FailFinalize =>
      NoEffect(s);
      StepSafe(s, s, a, Ended);
  }

  // ---------- calls that begin ----------

  lemma FreezingSafe(s: State, a: nat, u: nat)
    requires Safe(s) && CanStart(s, a, BeginFinalize(u)) && CountersAgree(s.uploads[u])
    ensures Safe(DoStart(s, a, BeginFinalize(u)))
  {
    var x := StartMove(s, a, BeginFinalize(u));
    var t := DoStart(s, a, BeginFinalize(u));
    assert t == Set(if u in s.frozen then s else s.(frozen := s.frozen[u := PartsOf(s, u)]), a, x);
    hide Safe;
    FreezeSafe(s, t, a, u, x);
  }

  lemma StartFacts(s: State, a: nat, op: StartOp)
    requires EntriesOk(s) && LocationsOk(s) && CanStart(s, a, op)
    requires op.BeginFinalize? ==> !CountersAgree(s.uploads[op.u])
    ensures var x := StartMove(s, a, op);
      MayBecome(s, a, x) && ActorOk(Set(s, a, x), x)
  {
    hide StreamOk, Finalized, HasKey, Set;
    SetRecords(s, a, StartMove(s, a, op));
    if op.BeginDownload? {
      var row := s.locations[s.entries[op.e].location];
      assert EntryOk(s, op.e);
      FrozenAt(s, row.folder, row.partCount);
      NewStreamOk(s.frozen[row.folder], s.entries[op.e].key, row.folder, row.partCount, false);
    }
  }

  lemma FrozenAt(s: State, u: nat, n: nat)
    requires Finalized(s, u, n)
    ensures u in s.frozen
  {
  }

  /** A goroutine's move changes nothing but the goroutine. */
  lemma SetRecords(s: State, a: nat, x: Actor)
    ensures var t := Set(s, a, x);
      && t.frozen == s.frozen && t.history == s.history && t.locations == s.locations && t.entries == s.entries
      && t.usedLocations == s.usedLocations && t.usedEntries == s.usedEntries
    ensures forall u, n :: Finalized(s, u, n) ==> Finalized(Set(s, a, x), u, n)
    ensures forall u, k :: HasKey(s, u, k) ==> HasKey(Set(s, a, x), u, k)
  {
  }

  lemma NewStreamOk(frozen: map<int, Bytes>, key: Key, folder: nat, n: nat, lockstep: bool)
    ensures StreamOk(frozen, NewStream(key, folder, n, lockstep))
  {
  }

  lemma StartSafe(s: State, a: nat, op: StartOp)
    requires Safe(s) && CanStart(s, a, op)
    ensures Safe(DoStart(s, a, op))
  {
    if op.BeginFinalize? && CountersAgree(s.uploads[op.u]) {
      FreezingSafe(s, a, op.u);
    } else {
      assert EntriesOk(s) && LocationsOk(s) && DoStart(s, a, op) == Set(s, a, StartMove(s, a, op));
      hide *;
      StartFacts(s, a, op);
      NoEffect(s);
      StepSafe(s, s, a, StartMove(s, a, op));
    }
  }

  // ---------- Download ----------

  /** The steps of a download that change no table. */
  lemma QuietDownloadFacts(s: State, a: nat, op: DownloadOp)
    requires ActorsOk(s) && ObjectsOk(s) && CanDownload(s, a, op) && !op.MarkMergeStarted? && !op.SpawnMerge?
    ensures var t := DoDownload(s, a, op);
      a in t.actors && t == Set(s, a, t.actors[a]) && MayBecome(s, a, t.actors[a]) && ActorOk(t, t.actors[a])
  {
    var d := s.actors[a];
    assert ActorOk(s, d);
    if op.OpenObject? && d.folder in s.merged {
      assert FrozenOk(s, d.folder);
    }
  }

  lemma SpawnTame(s: State, a: nat, w: nat)
    requires CanDownload(s, a, SpawnMerge(w))
    ensures Tame(s, DoDownload(s, a, SpawnMerge(w)), a, w)
  {
    hide Shrinks, DoDownload, Kept;
    var t := DoDownload(s, a, SpawnMerge(w));
    SpawnKeeps(s, a, w);
    KeptShrinks(s, t);
  }

  lemma SpawnKeeps(s: State, a: nat, w: nat)
    requires CanDownload(s, a, SpawnMerge(w))
    ensures var t := DoDownload(s, a, SpawnMerge(w));
      && Kept(s, t) && t.history == s.history && t.frozen == s.frozen && t.uploads == s.uploads
      && t.locations == s.locations && t.entries == s.entries
      && t.usedEntries == s.usedEntries && t.usedLocations == s.usedLocations
      && Moves(s, t, a, w) && SameUploads(s, t)
  {
  }

  lemma SpawnFacts(s: State, a: nat, w: nat)
    requires CanDownload(s, a, SpawnMerge(w)) && ActorOk(s, s.actors[a])
    ensures var t := DoDownload(s, a, SpawnMerge(w));
      a in t.actors && w in t.actors && ActorOk(t, t.actors[a]) && ActorOk(t, t.actors[w])
  {
  }

  lemma MarkStartedFacts(s: State, a: nat, now: int)
    requires ActorsOk(s) && CanDownload(s, a, MarkMergeStarted(now))
    ensures var d := s.actors[a];
      var m := SetLocation(s, d.loc, (r: Location) => r.(mergeStartedAt := Some(now)));
      var x := d.(at := Register);
      && DoDownload(s, a, MarkMergeStarted(now)) == Set(m, a, x) && Trimmed(s, m) && m.actors == s.actors
      && MayBecome(s, a, x) && ActorOk(Set(m, a, x), x)
  {
    var d := s.actors[a];
    assert ActorOk(s, d);
    SetLocationTrims(s, d.loc, (r: Location) => r.(mergeStartedAt := Some(now)));
  }

  lemma DownloadSafe(s: State, a: nat, op: DownloadOp)
    requires Safe(s) && CanDownload(s, a, op)
    ensures Safe(DoDownload(s, a, op))
  {
    assert ActorsOk(s) && ObjectsOk(s) && ActorOk(s, s.actors[a]);
    var d := s.actors[a];
    hide *;
    match op
    case MarkMergeStarted(now) =>
      MarkStartedFacts(s, a, now);
      StepSafe(s, SetLocation(s, d.loc, (r: Location) => r.(mergeStartedAt := Some(now))), a, d.(at := Register));
    case SpawnMerge(w) =>
      SpawnTame(s, a, w);
      SpawnFacts(s, a, w);
      TameSafe(s, DoDownload(s, a, op), a, w);
    case _ =>
      QuietDownloadFacts(s, a, op);
      NoEffect(s);
      StepSafe(s, s, a, DoDownload(s, a, op).actors[a]);
  }

  // ---------- streamPartsTo ----------

  predicate SameStream(c: Stream, d: Stream) {
    d.key == c.key && d.folder == c.folder && d.partCount == c.partCount && d.lockstep == c.lockstep
  }

  lemma OpenOk(frozen: map<int, Bytes>, parts: map<int, Bytes>, c: Stream)
    requires StreamOk(frozen, c) && CanCopy(c, OpenPart) && c.next in parts && c.next in frozen
    requires parts[c.next] == frozen[c.next]
    ensures StreamOk(frozen, DoCopy(c, parts, OpenPart))
  {
    assert c.read + c.rest == c.read;
  }

  lemma ReadOk(frozen: map<int, Bytes>, parts: map<int, Bytes>, c: Stream, k: nat)
    requires StreamOk(frozen, c) && CanCopy(c, ReadChunk(k))
    ensures StreamOk(frozen, DoCopy(c, parts, ReadChunk(k)))
  {
    var d := DoCopy(c, parts, ReadChunk(k));
    assert c.rest == c.rest[..k] + c.rest[k..];
    assert d.read + d.rest == c.read + c.rest;
  }

  lemma CloseOk(frozen: map<int, Bytes>, parts: map<int, Bytes>, c: Stream)
    requires StreamOk(frozen, c) && CanCopy(c, ClosePart)
    ensures StreamOk(frozen, DoCopy(c, parts, ClosePart))
  {
    assert c.read == c.read + c.rest;
  }

  lemma TakeOk(frozen: map<int, Bytes>, parts: map<int, Bytes>, c: Stream, op: CopyOp)
    requires StreamOk(frozen, c) && CanCopy(c, op) && (op.ClientTake? || op.MergeTake?)
    ensures StreamOk(frozen, DoCopy(c, parts, op))
  {
  }

  /** What the stream has read stays the leading parts of the archive, whatever is deleted meanwhile. */
  lemma CopyOk(frozen: map<int, Bytes>, parts: map<int, Bytes>, c: Stream, op: CopyOp)
    requires StreamOk(frozen, c) && CanCopy(c, op)
    requires forall i :: i in parts ==> i in frozen && parts[i] == frozen[i]
    ensures StreamOk(frozen, DoCopy(c, parts, op)) && SameStream(c, DoCopy(c, parts, op))
  {
    CopySameStream(c, parts, op);
    match op
    case OpenPart => if c.next in parts { OpenOk(frozen, parts, c); } else { EndOk(frozen, parts, c, op); }
    case ReadChunk(k) => ReadOk(frozen, parts, c, k);
    case ClosePart => CloseOk(frozen, parts, c);
    case ClientTake(_) => TakeOk(frozen, parts, c, op);
    case MergeTake(_) => TakeOk(frozen, parts, c, op);
    case FinishCopy => EndOk(frozen, parts, c, op);
    case BreakCopy => EndOk(frozen, parts, c, op);
  }

  lemma CopySameStream(c: Stream, parts: map<int, Bytes>, op: CopyOp)
    requires CanCopy(c, op)
    ensures SameStream(c, DoCopy(c, parts, op))
  {
  }

  lemma EndOk(frozen: map<int, Bytes>, parts: map<int, Bytes>, c: Stream, op: CopyOp)
    requires StreamOk(frozen, c) && CanCopy(c, op)
    requires op.FinishCopy? || op.BreakCopy? || (op.OpenPart? && c.next !in parts)
    ensures StreamOk(frozen, DoCopy(c, parts, op))
  {
  }

  lemma CopyFacts(s: State, a: nat, op: CopyOp)
    requires ActorsOk(s) && ObjectsOk(s) && a in s.actors && s.actors[a].Copier? && CanCopy(s.actors[a].stream, op)
    ensures var x := Copier(DoCopy(s.actors[a].stream, PartsOf(s, s.actors[a].stream.folder), op));
      MayBecome(s, a, x) && ActorOk(Set(s, a, x), x)
  {
    var c := s.actors[a].stream;
    assert ActorOk(s, s.actors[a]) && FrozenOk(s, c.folder);
    CopyOk(s.frozen[c.folder], PartsOf(s, c.folder), c, op);
  }

  lemma CopySafe(s: State, a: nat, op: CopyOp)
    requires Safe(s) && a in s.actors && s.actors[a].Copier? && CanCopy(s.actors[a].stream, op)
    ensures Safe(DoCopyStep(s, a, op))
  {
    var x := Copier(DoCopy(s.actors[a].stream, PartsOf(s, s.actors[a].stream.folder), op));
    assert ActorsOk(s) && ObjectsOk(s) && DoCopyStep(s, a, op) == Set(s, a, x);
    hide *;
    CopyFacts(s, a, op);
    NoEffect(s);
    StepSafe(s, s, a, x);
  }

  // ---------- the merge worker ----------

  /** A merge upload that sees a clean end of its pipe stores every part, in order. */
  lemma MergedIsComplete(s: State, w: nat, acked: bool)
    requires ActorsOk(s) && CanWork(s, w, PutMerged(acked))
    ensures var c := s.actors[s.actors[w].copier].stream;
      && CompleteCopy(s, s.actors[w].folder, c.merge) && c.merge == c.client
      && Finalized(s, s.actors[w].folder, |s.frozen[s.actors[w].folder]|)
  {
    var k := s.actors[w];
    assert ActorOk(s, k) && ActorOk(s, s.actors[k.copier]);
  }

  lemma PutMergedSafe(s: State, w: nat, acked: bool)
    requires Safe(s) && CanWork(s, w, PutMerged(acked))
    ensures Safe(DoWork(s, w, PutMerged(acked)))
  {
    var t := DoWork(s, w, PutMerged(acked));
    MergedIsComplete(s, w, acked);
    PutMergedFacts(s, w, acked);
    PutMergedObjects(s, t, s.actors[w].folder, s.actors[s.actors[w].copier].stream.merge);
    hide *;
    SameRowsSafe(s, t, w);
  }

  lemma PutMergedFacts(s: State, w: nat, acked: bool)
    requires ActorsOk(s) && CanWork(s, w, PutMerged(acked)) && LocationsOk(s) && EntriesOk(s)
    ensures var t := DoWork(s, w, PutMerged(acked));
      && Stable(s, t) && Moves(s, t, w, w) && SameUploads(s, t) && SameRows(s, t) && w in t.actors
      && ActorOk(t, t.actors[w])
      && t.merged == s.merged[s.actors[w].folder := s.actors[s.actors[w].copier].stream.merge]
  {
    assert ActorOk(s, s.actors[w]);
  }

  lemma PutMergedObjects(s: State, t: State, u: nat, data: Bytes)
    requires ObjectsOk(s) && CompleteCopy(s, u, data)
    requires t.history == s.history && t.frozen == s.frozen && t.parts == s.parts && t.merged == s.merged[u := data]
    ensures ObjectsOk(t)
  {
    forall v | v in t.frozen ensures FrozenOk(t, v) {
      assert FrozenOk(s, v);
    }
  }

  ghost predicate SameRows(s: State, t: State) {
    && t.history == s.history && t.uploads == s.uploads && t.parts == s.parts
    && t.locations == s.locations && t.entries == s.entries
  }

  lemma SameRowsSafe(s: State, t: State, a: nat)
    requires Safe(s) && Stable(s, t) && Moves(s, t, a, a) && SameUploads(s, t) && SameRows(s, t) && ObjectsOk(t)
    requires a in t.actors ==> ActorOk(t, t.actors[a])
    ensures Safe(t)
  {
    assert forall u, i :: i in PartsOf(t, u) ==> i in PartsOf(s, u);
    hide UploadsOk, ObjectsOk, LocationsOk, EntriesOk, ActorsOk, Stable, Moves, SameUploads, ActorOk, PartsOf;
    UploadsFrame(s, t);
    LocationsFrame(s, t);
    SameEntries(s, t);
    ActorsFrame(s, t, a, a);
  }

  lemma WorkTrims(s: State, w: nat, op: WorkerOp)
    requires CanWork(s, w, op) && !op.PutMerged?
    ensures Trimmed(s, WorkEffect(s, w, op)) && WorkEffect(s, w, op).actors == s.actors
  {
    var k := s.actors[w];
    NoEffect(s);
    match op
    case ResetMerge(applied) => SetLocationTrims(s, k.loc, ResetRow);
    case SetMerged(now, applied, _) => SetLocationTrims(s, k.loc, (r: Location) => r.(mergedAt := Some(now)));
    case SetPartsDeleted(now, applied) => SetLocationTrims(s, k.loc, (r: Location) => r.(partsDeletedAt := Some(now)));
    case DropMergedParts(keep, more) => KeepPartsTrims(s, k.folder, keep);
    case DeregisterWorker => assert Trimmed(s, s.(merges := s.merges - {k.loc}));
    case _ =>
  }

  lemma WorkFacts(s: State, w: nat, op: WorkerOp)
    requires ActorsOk(s) && CanWork(s, w, op) && WorkEffect(s, w, op).actors == s.actors
    ensures var x := s.actors[w].(pc := WorkMove(op));
      MayBecome(s, w, x) && ActorOk(DoWork(s, w, op), x)
  {
    assert ActorOk(s, s.actors[w]);
  }

  lemma WorkSafe(s: State, w: nat, op: WorkerOp)
    requires Safe(s) && CanWork(s, w, op)
    ensures Safe(DoWork(s, w, op))
  {
    if op.PutMerged? {
      PutMergedSafe(s, w, op.acked);
    } else {
      assert ActorsOk(s) && WorkerAt(s, w, s.actors[w].pc);
      var x := s.actors[w].(pc := WorkMove(op));
      assert DoWork(s, w, op) == Set(WorkEffect(s, w, op), w, x);
      hide *;
      WorkTrims(s, w, op);
      WorkFacts(s, w, op);
      StepSafe(s, WorkEffect(s, w, op), w, x);
    }
  }

  // ---------- cleanup tasks ----------

  lemma SweepTrims(s: State, a: nat, op: SweepOp)
    requires CanSweep(s, a, op)
    ensures Trimmed(s, SweepEffect(s, a, op)) && SweepEffect(s, a, op).actors == s.actors
  {
    var k := s.actors[a];
    NoEffect(s);
    match op
    case SweepRow(_) => DropLocationTrims(s, k.loc);
    case SweepFolder(keep, keepMerged, _) => KeepFolderTrims(s, k.folder, keep, keepMerged);
    case SweepUploadRow(_) => DropUploadTrims(s, k.upload);
    case SweepUploadFolder(keep, keepMerged, _) => KeepFolderTrims(s, k.upload, keep, keepMerged);
    case CleanMark(now, _) => SetLocationTrims(s, k.loc, (r: Location) => r.(partsDeletedAt := Some(now)));
    case CleanDrop(keep, _) => KeepPartsTrims(s, k.folder, keep);
  }

  lemma SweeperOk(s: State, t: State, a: nat, op: SweepOp)
    requires CanSweep(s, a, op) && ActorsOk(s) && t.usedLocations == s.usedLocations
    requires forall l :: l in t.locations ==> l in s.locations && t.locations[l].folder == s.locations[l].folder
    ensures MayBecome(s, a, SweepMove(s.actors[a], op)) && ActorOk(t, SweepMove(s.actors[a], op))
  {
    assert ActorOk(s, s.actors[a]);
  }

  lemma TrimmedRows(s: State, m: State, a: nat, x: Actor)
    requires Trimmed(s, m)
    ensures var t := Set(m, a, x);
      && t.usedLocations == s.usedLocations
      && forall l :: l in t.locations ==> l in s.locations && t.locations[l].folder == s.locations[l].folder
  {
  }

  lemma SweepSafe(s: State, a: nat, op: SweepOp)
    requires Safe(s) && CanSweep(s, a, op)
    ensures Safe(DoSweep(s, a, op))
  {
    hide SweepEffect, SweepMove, Set, ActorsOk, Trimmed;
    var x := SweepMove(s.actors[a], op);
    var t := Set(SweepEffect(s, a, op), a, x);
    SweepTrims(s, a, op);
    TrimmedRows(s, SweepEffect(s, a, op), a, x);
    SweeperOk(s, t, a, op);
    StepSafe(s, SweepEffect(s, a, op), a, x);
  }

  /** A statement that only trims the tables. */
  lemma StatementSafe(s: State, t: State)
    requires Safe(s) && Trimmed(s, t) && t.actors == s.actors
    ensures Safe(t)
  {
    assert Tame(s, t, 0, 0);
    if 0 in s.actors {
      TameStable(s, t, 0, 0);
      ActorStable(s, t, 0, 0, 0);
    }
    hide *;
    TameSafe(s, t, 0, 0);
  }

  // ---------- every step, every run ----------

  lemma NextOf(s: State, step: Step)
    requires Enabled(s, step)
    ensures step.StartStep? ==> CanStart(s, step.a, step.start) && Next(s, step) == DoStart(s, step.a, step.start)
    ensures step.CopyStep?
           ==> step.a in s.actors && s.actors[step.a].Copier? && CanCopy(s.actors[step.a].stream, step.copy)
    ensures step.CopyStep? ==> Next(s, step) == DoCopyStep(s, step.a, step.copy)
    ensures step.PartStep? ==> CanPart(s, step.a, step.part) && Next(s, step) == DoPart(s, step.a, step.part)
    ensures step.FinalizeStep?
           ==> CanFinalize(s, step.a, step.finalize) && Next(s, step) == DoFinalize(s, step.a, step.finalize)
    ensures step.DownloadStep?
           ==> CanDownload(s, step.a, step.download) && Next(s, step) == DoDownload(s, step.a, step.download)
    ensures step.WorkerStep? ==> CanWork(s, step.a, step.work) && Next(s, step) == DoWork(s, step.a, step.work)
    ensures step.SweepStep? ==> CanSweep(s, step.a, step.sweep) && Next(s, step) == DoSweep(s, step.a, step.sweep)
  {
  }

  lemma StatementsSafe(s: State, step: Step)
    requires Safe(s) && Enabled(s, step) && (step.Touch? || step.ResetStalled? || step.DeleteEntry?)
    ensures Safe(Next(s, step))
  {
    StatementTrims(s, step);
    hide *;
    StatementSafe(s, Next(s, step));
  }

  lemma StatementTrims(s: State, step: Step)
    requires Enabled(s, step) && (step.Touch? || step.ResetStalled? || step.DeleteEntry?)
    ensures Trimmed(s, Next(s, step)) && Next(s, step).actors == s.actors
  {
    if step.Touch? {
      SetLocationTrims(s, step.l, (r: Location) => r.(lastDownloadedAt := Some(step.now)));
    }
  }

  /** Every enabled step keeps the invariant. */
  lemma StepKeepsSafe(s: State, step: Step)
    requires Safe(s) && Enabled(s, step)
    ensures Safe(Next(s, step))
  {
    hide *;
    NextOf(s, step);
    match step
    case CreateUpload(u, key, now) => CreateUploadSafe(s, u, key, now);
    case StartPart(a, u, index, body) => StartPartSafe(s, a, u, index, body);
    case StartStep(a, op) => StartSafe(s, a, op);
    case Touch(_, _) => StatementsSafe(s, step);
    case ResetStalled(_) => StatementsSafe(s, step);
    case DeleteEntry(_) => StatementsSafe(s, step);
    case PartStep(a, op) => if op == StorePart { StorePartSafe(s, a); } else { EndPartSafe(s, a, op); }
    case FinalizeStep(a, op) => FinalizeSafe(s, a, op);
    case DownloadStep(a, op) => DownloadSafe(s, a, op);
    case CopyStep(a, op) => CopySafe(s, a, op);
    case WorkerStep(a, op) => WorkSafe(s, a, op);
    case SweepStep(a, op) => SweepSafe(s, a, op);
  }

  lemma {:induction false} RunKeepsSafe(s: State, run: seq<Step>)
    requires Safe(s) && ValidRun(s, run)
    ensures Safe(After(s, run))
    decreases |run|
  {
    if run != [] {
      StepKeepsSafe(s, run[0]);
      hide Safe, Enabled, Next;
      RunKeepsSafe(Next(s, run[0]), run[1..]);
    }
  }

  lemma ReachableSafe(s: State)
    requires Reachable(s)
    ensures Safe(s)
  {
    var run :| ValidRun(Init(), run) && After(Init(), run) == s;
    RunKeepsSafe(Init(), run);
  }

  // ---------- what it means for clients ----------

  /** Whatever was frozen under an id, up to its first gap. */
  function Archive(s: State, folder: nat): Bytes
    requires folder in s.frozen
  {
    Content(s.frozen[folder], |s.frozen[folder]|)
  }

  /** `sent` is a prefix of the finalized parts of one upload made under `key`; if the stream ended cleanly
      no part was missing and all of them were sent. */
  ghost predicate RightBytes(s: State, key: Key, u: nat, sent: Bytes, clean: bool) {
    && HasKey(s, u, key) && u in s.frozen && Finalized(s, u, |s.frozen[u]|)
    && sent <= Archive(s, u)
    && (clean ==> CompleteCopy(s, u, sent))
  }

  /** No wrong bytes, for every stream that Download ever returned. */
  lemma NoWrongBytes(s: State, a: nat)
    requires Reachable(s) && a in s.actors
    ensures var x := s.actors[a];
      && (x.Copier? ==> RightBytes(s, x.stream.key, x.stream.folder, x.stream.client, x.stream.end == CleanEof))
      && (x.MergedReader? ==> x.sent <= |x.data| && RightBytes(s, x.key, x.folder, x.data[..x.sent], x.end == CleanEof))
  {
    ReachableSafe(s);
    StreamsRight(s, s.actors[a]);
  }

  lemma StreamsRight(s: State, x: Actor)
    requires ActorOk(s, x)
    ensures x.Copier? ==> RightBytes(s, x.stream.key, x.stream.folder, x.stream.client, x.stream.end == CleanEof)
    ensures x.MergedReader?
           ==> x.sent <= |x.data| && RightBytes(s, x.key, x.folder, x.data[..x.sent], x.end == CleanEof)
  {
    match x
    case Copier(c) =>
      var got := if c.open then c.next + 1 else c.next;
      JoinWithinContent(s.frozen[c.folder], got, c.partCount);
    case MergedReader(_, u, data, sent, _) =>
      JoinWithinContent(s.frozen[u], |s.frozen[u]|, |s.frozen[u]|);
    case _ =>
  }

  /** Whatever the store holds as a merged object is the whole archive of its folder. */
  lemma MergedObjectsComplete(s: State, u: nat)
    requires Reachable(s) && u in s.merged
    ensures CompleteCopy(s, u, s.merged[u])
  {
    ReachableSafe(s);
    assert FrozenOk(s, u);
  }

  /** Finalize soundness: a location only ever exists for an upload whose every part upload completed, with
      pairwise distinct indices, one object each. */
  lemma FinalizeSound(s: State, l: nat)
    requires Reachable(s) && l in s.locations
    ensures var u := s.locations[l].folder;
      && u in s.history && u in s.frozen
      && s.history[u].failed == [] && Distinct(s.history[u].completed)
      && |s.history[u].completed| == s.locations[l].partCount
      && s.frozen[u].Keys == Indices(s.history[u].completed)
  {
    ReachableSafe(s);
    assert LocationsOk(s);
  }

  /** ... and a download of it can only end cleanly if the indices are exactly 0 .. partCount-1. */
  lemma CleanEofNeedsAllIndices(s: State, a: nat)
    requires Reachable(s) && a in s.actors && s.actors[a].Copier? && s.actors[a].stream.end == CleanEof
    ensures var c := s.actors[a].stream;
      c.folder in s.history && Indices(s.history[c.folder].completed) == Below(c.partCount)
  {
    var c := s.actors[a].stream;
    ReachableSafe(s);
    assert ActorOk(s, s.actors[a]);
    FirstIndices(s.frozen[c.folder].Keys, c.partCount);
  }

  /** The counters: started - finished is the number of part uploads that did not complete. */
  lemma CountersTellIncomplete(s: State, u: nat)
    requires Reachable(s) && u in s.uploads
    ensures u in s.history
      && s.uploads[u].finished == |s.history[u].completed|
      && s.uploads[u].started - s.uploads[u].finished == |s.history[u].failed| + |Live(s, u)|
  {
    ReachableSafe(s);
    assert CountsOk(s, u);
  }

  /** Lockstep: what the merge pipe accepted is a prefix of what the client accepted, and both are within the
      write in progress, read[synced..]; a clean end means both got everything. */
  lemma Lockstep(s: State, a: nat)
    requires Reachable(s) && a in s.actors && s.actors[a].Copier? && s.actors[a].stream.lockstep
    ensures var c := s.actors[a].stream;
      && c.merge <= c.client <= c.read && c.synced <= |c.merge|
      && (c.end == CleanEof ==> c.merge == c.client == c.read)
  {
    ReachableSafe(s);
    assert ActorOk(s, s.actors[a]);
  }
}
