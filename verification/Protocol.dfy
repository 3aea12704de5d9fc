/** The cache storage protocol as a transition system.

    A state holds the three tables, the object store and every live goroutine; a step is one database
    statement, one adapter call or one pipe transfer, with failure possible at each of them.  Uploads,
    finalizers, downloads, merge workers and cleanup tasks interleave freely.

    Three fields are not in the program: `history` and `frozen` record what was uploaded under an id, and
    the `used` sets say which generated ids were ever handed out. */
module Protocol {
  import opened Types

  datatype PartHistory = PartHistory(key: Key, completed: seq<int>, failed: seq<int>)

  // ---------- goroutines ----------

  datatype FinalizePc =
    | Reject                                                   // about to delete the upload row, then fail
    | CountParts
    | InsertLocation
    | FindExisting(loc: nat)
    | Repoint(loc: nat, entry: nat, oldLoc: nat, oldFolder: nat)
    | DropOldRow(oldLoc: nat, oldFolder: nat)
    | DropOldFolder(oldFolder: nat)
    | InsertEntry(loc: nat)
    | DropUpload

  datatype DownloadPc = OpenMerged | CheckParts | MarkStarted | Register

  datatype WorkerPc =
    | Uploading | Resetting | MarkMerged | MarkPartsDeleted | DropParts | Deregister | Closing | Closed

  datatype DropPc = DropRow | DropFolder
  datatype CleanPc = MarkRow | DropFiles

  datatype End = Running | CleanEof | Broken

  /** One run of streamPartsTo.  `read` is what io.Copy has read so far, `client` and `merge` what the two
      pipes have accepted of it, `synced` how much was read before the write in progress. */
  datatype Stream = Stream(
    key: Key, folder: nat, partCount: nat, lockstep: bool,
    next: nat, open: bool, rest: Bytes,
    read: Bytes, synced: nat, client: Bytes, merge: Bytes, end: End)

  datatype Actor =
    | PartUpload(upload: nat, index: int, body: Bytes, stored: bool)
    | Finalizer(upload: nat, key: Key, count: nat, step: FinalizePc)
    | Downloader(key: Key, loc: nat, folder: nat, partCount: nat, at: DownloadPc)
    | Copier(stream: Stream)
    | MergedReader(key: Key, folder: nat, data: Bytes, sent: nat, end: End)
    | Worker(loc: nat, folder: nat, copier: nat, pc: WorkerPc)
    | Sweeper(loc: nat, folder: nat, dropping: DropPc)
    | UploadSweeper(upload: nat, sweeping: DropPc)
    | PartsCleaner(loc: nat, folder: nat, cleaning: CleanPc)
    | Ended

  datatype State = State(
    uploads: map<nat, Upload>,
    locations: map<nat, Location>,
    entries: map<nat, Entry>,
    parts: map<nat, map<int, Bytes>>,    // folder -> index -> object "<folder>/parts/<index>"
    merged: map<nat, Bytes>,             // folder -> object "<folder>/merged"
    actors: map<nat, Actor>,
    merges: map<nat, nat>,               // location -> its registered worker
    history: map<nat, PartHistory>,
    frozen: map<nat, map<int, Bytes>>,   // parts at the first finalize that passed the counter checks
    usedLocations: set<nat>,
    usedEntries: set<nat>)

  function Init(): State {
    State(map[], map[], map[], map[], map[], map[], map[], map[], map[], {}, {})
  }

  // ---------- tables and objects ----------

  function PartsOf(s: State, folder: nat): map<int, Bytes> {
    if folder in s.parts then s.parts[folder] else map[]
  }

  /** DELETE FROM storage_locations WHERE id = l, with ON DELETE CASCADE. */
  function DropLocation(s: State, l: nat): State {
    s.(locations := s.locations - {l},
       entries := map e | e in s.entries && s.entries[e].location != l :: s.entries[e])
  }

  function DropUploadRow(s: State, u: nat): State {
    s.(uploads := s.uploads - {u})
  }

  /** UPDATE storage_locations SET ... WHERE id = l; no row, no effect. */
  function SetLocation(s: State, l: nat, row: Location -> Location): State {
    if l in s.locations then s.(locations := s.locations[l := row(s.locations[l])]) else s
  }

  function ResetRow(r: Location): Location {
    r.(mergeStartedAt := None, mergedAt := None)
  }

  predicate Stalled(r: Location, before: int) {
    r.mergeStartedAt.Some? && r.mergeStartedAt.value < before && r.mergedAt.None?
  }

  function TouchRow(s: State, l: nat, now: int): State {
    SetLocation(s, l, (r: Location) => r.(lastDownloadedAt := Some(now)))
  }

  function ResetRows(s: State, before: int): State {
    s.(locations := map l | l in s.locations ::
         if Stalled(s.locations[l], before) then ResetRow(s.locations[l]) else s.locations[l])
  }

  function Restrict(m: map<int, Bytes>, keep: set<int>): map<int, Bytes> {
    map i | i in m && i in keep :: m[i]
  }

  function RestrictAt(parts: map<nat, map<int, Bytes>>, folder: nat, keep: set<int>): map<nat, map<int, Bytes>> {
    if folder in parts then parts[folder := Restrict(parts[folder], keep)] else parts
  }

  /** DeleteFolder on "<folder>/parts"; a failed or unfinished call leaves the indices in `keep`. */
  function KeepParts(s: State, folder: nat, keep: set<int>): State {
    s.(parts := RestrictAt(s.parts, folder, keep))
  }

  /** DeleteFolder on the whole folder. */
  function KeepFolder(s: State, folder: nat, keep: set<int>, keepMerged: bool): State {
    s.(parts := RestrictAt(s.parts, folder, keep), merged := if keepMerged then s.merged else s.merged - {folder})
  }

  function Set(s: State, a: nat, actor: Actor): State {
    s.(actors := s.actors[a := actor])
  }

  // ---------- UploadPart ----------

  datatype PartOp =
    | StorePart            // UploadStream stored the object
    | FinishPart(now: int) // IncFinishedPartCount
    | FailPart             // the call fails, whether or not the object was stored

  predicate CanPart(s: State, a: nat, op: PartOp) {
    && a in s.actors && s.actors[a].PartUpload?
    && match op
       case StorePart => !s.actors[a].stored
       case FinishPart(_) => s.actors[a].stored
       case FailPart => true
  }

  function Started(r: Upload): Upload {
    r.(started := r.started + 1)
  }

  function Finished(r: Upload, now: int): Upload {
    r.(finished := r.finished + 1, lastPartUploadedAt := Some(now))
  }

  function LogCompleted(h: PartHistory, index: int): PartHistory {
    h.(completed := h.completed + [index])
  }

  function LogFailed(h: PartHistory, index: int): PartHistory {
    h.(failed := h.failed + [index])
  }

  function PartEffect(s: State, a: nat, op: PartOp): State
    requires CanPart(s, a, op)
  {
    var p := s.actors[a];
    var u := p.upload;
    match op
    case StorePart => s.(parts := s.parts[u := PartsOf(s, u)[p.index := p.body]])
    case FinishPart(now) =>
      if u in s.uploads && u in s.history then
        s.(uploads := s.uploads[u := Finished(s.uploads[u], now)],
           history := s.history[u := LogCompleted(s.history[u], p.index)])
      else s
    case FailPart => if u in s.history then s.(history := s.history[u := LogFailed(s.history[u], p.index)]) else s
  }

  function DoPart(s: State, a: nat, op: PartOp): State
    requires CanPart(s, a, op)
  {
    Set(PartEffect(s, a, op), a, if op.StorePart? then s.actors[a].(stored := true) else Ended)
  }

  // ---------- CompleteUpload ----------

  datatype FinalizeOp =
    | CountFiles
    | AddLocation(l: nat)
    | LookExisting(found: Option<nat>)
    | RepointEntry(now: int)
    | DropOldLocation
    | DropOldFiles(keep: set<int>, keepMerged: bool, more: bool)
    | AddEntry(e: nat, now: int)
    | FinishUpload
    | FailFinalize

  /** The foreign key makes RepointEntry and AddEntry fail when the new location row is gone. */
  predicate CanFinalize(s: State, a: nat, op: FinalizeOp) {
    && a in s.actors && s.actors[a].Finalizer?
    && var f := s.actors[a];
    match op
    case CountFiles => f.step == CountParts
    case AddLocation(l) => f.step == InsertLocation && l !in s.usedLocations
    case LookExisting(found) =>
      && f.step.FindExisting?
      && (if found.Some?
          then found.value in s.entries && s.entries[found.value].key == f.key
               && s.entries[found.value].location in s.locations
          else forall e | e in s.entries :: s.entries[e].key != f.key)
    case RepointEntry(_) => f.step.Repoint? && (f.step.entry in s.entries ==> f.step.loc in s.locations)
    case DropOldLocation => f.step.DropOldRow?
    case DropOldFiles(_, _, _) => f.step.DropOldFolder?
    case AddEntry(e, _) => f.step.InsertEntry? && e !in s.usedEntries && f.step.loc in s.locations
    case FinishUpload => f.step == DropUpload || f.step == Reject
    case FailFinalize => true
  }

  function FinalizeEffect(s: State, a: nat, op: FinalizeOp): State
    requires CanFinalize(s, a, op)
  {
    var f := s.actors[a];
    match op
    case AddLocation(l) =>
      s.(locations := s.locations[l := Location(f.upload, f.count, None, None, None, None)],
         usedLocations := s.usedLocations + {l})
    case RepointEntry(now) =>
      if f.step.entry in s.entries then
        s.(entries := s.entries[f.step.entry := Entry(s.entries[f.step.entry].key, now, f.step.loc)])
      else s
    case DropOldLocation => DropLocation(s, f.step.oldLoc)
    case DropOldFiles(keep, keepMerged, _) => KeepFolder(s, f.step.oldFolder, keep, keepMerged)
    case AddEntry(e, now) =>
      s.(entries := s.entries[e := Entry(f.key, now, f.step.loc)], usedEntries := s.usedEntries + {e})
    case FinishUpload => DropUploadRow(s, f.upload)
    case CountFiles => s
    case LookExisting(_) => s
    case FailFinalize => s
  }

  function FinalizeMove(s: State, a: nat, op: FinalizeOp): Actor
    requires CanFinalize(s, a, op)
  {
    var f := s.actors[a];
    match op
    case CountFiles => f.(step := if |PartsOf(s, f.upload)| == f.count then InsertLocation else Reject)
    case AddLocation(l) => f.(step := FindExisting(l))
    case LookExisting(found) =>
      if found.Some? then
        var was := s.entries[found.value].location;
        f.(step := Repoint(f.step.loc, found.value, was, s.locations[was].folder))
      else f.(step := InsertEntry(f.step.loc))
    case RepointEntry(_) => f.(step := DropOldRow(f.step.oldLoc, f.step.oldFolder))
    case DropOldLocation => f.(step := DropOldFolder(f.step.oldFolder))
    case DropOldFiles(_, _, more) => if more then f else f.(step := DropUpload)
    case AddEntry(_, _) => f.(step := DropUpload)
    case FinishUpload => Ended
    case FailFinalize => Ended
  }

  function DoFinalize(s: State, a: nat, op: FinalizeOp): State
    requires CanFinalize(s, a, op)
  {
    Set(FinalizeEffect(s, a, op), a, FinalizeMove(s, a, op))
  }

  // ---------- Download ----------

  datatype DownloadOp =
    | OpenObject           // CreateDownloadStream on the merged object
    | CheckAllParts        // ensurePartsExist
    | MarkMergeStarted(now: int)
    | SpawnMerge(w: nat)   // register the merge, start its worker; the download turns into the copier
    | FailDownload
    | SendMerged(k: nat)
    | EndMerged(clean: bool)

  predicate CanDownload(s: State, a: nat, op: DownloadOp) {
    && a in s.actors
    && var d := s.actors[a];
    match op
    case OpenObject => d.Downloader? && d.at == OpenMerged
    case CheckAllParts => d.Downloader? && d.at == CheckParts
    case MarkMergeStarted(_) => d.Downloader? && d.at == MarkStarted
    case SpawnMerge(w) => d.Downloader? && d.at == Register && w !in s.actors
    case FailDownload => d.Downloader?
    case SendMerged(k) => d.MergedReader? && d.end == Running && d.sent + k <= |d.data|
    case EndMerged(clean) => d.MergedReader? && d.end == Running && (clean ==> d.sent == |d.data|)
  }

  function DownloadEffect(s: State, a: nat, op: DownloadOp): State
    requires CanDownload(s, a, op)
  {
    var d := s.actors[a];
    match op
    case MarkMergeStarted(now) => SetLocation(s, d.loc, (r: Location) => r.(mergeStartedAt := Some(now)))
    case SpawnMerge(w) => Set(s.(merges := s.merges[d.loc := w]), w, Worker(d.loc, d.folder, a, Uploading))
    case _ => s
  }

  function DownloadMove(s: State, a: nat, op: DownloadOp): Actor
    requires CanDownload(s, a, op)
  {
    var d := s.actors[a];
    match op
    case OpenObject => if d.folder in s.merged
           then MergedReader(d.key, d.folder, s.merged[d.folder], 0, Running)
           else Ended
    case CheckAllParts => if |PartsOf(s, d.folder)| < d.partCount then Ended else d.(at := MarkStarted)
    case MarkMergeStarted(_) => d.(at := Register)
    case SpawnMerge(_) => Copier(NewStream(d.key, d.folder, d.partCount, true))
    case FailDownload => Ended
    case SendMerged(k) => d.(sent := d.sent + k)
    case EndMerged(clean) => d.(end := if clean then CleanEof else Broken)
  }

  function DoDownload(s: State, a: nat, op: DownloadOp): State
    requires CanDownload(s, a, op)
  {
    Set(DownloadEffect(s, a, op), a, DownloadMove(s, a, op))
  }

  // ---------- streamPartsTo ----------

  datatype CopyOp =
    | OpenPart
    | ReadChunk(k: nat)
    | ClientTake(k: nat)
    | MergeTake(k: nat)
    | ClosePart
    | FinishCopy
    | BreakCopy

  function NewStream(key: Key, folder: nat, partCount: nat, lockstep: bool): Stream {
    Stream(key, folder, partCount, lockstep, 0, false, [], [], 0, [], [], Running)
  }

  /** Both pipes have taken everything read so far. */
  predicate CaughtUp(c: Stream) {
    c.client == c.read && (c.lockstep ==> c.merge == c.read)
  }

  /** io.MultiWriter hands a chunk to the merge pipe only once the client pipe has taken all of it, and
      io.Copy reads the next chunk only once both have. */
  predicate CanCopy(c: Stream, op: CopyOp) {
    && c.end == Running
    && match op
       case OpenPart => !c.open && c.next < c.partCount && CaughtUp(c)
       case ReadChunk(k) => c.open && 0 < k <= |c.rest| && CaughtUp(c)
       case ClientTake(k) => |c.client| + k <= |c.read|
       case MergeTake(k) => c.lockstep && c.client == c.read && |c.merge| + k <= |c.read|
       case ClosePart => c.open && c.rest == [] && CaughtUp(c)
       case FinishCopy => !c.open && c.next == c.partCount && CaughtUp(c)
       case BreakCopy => true
  }

  /** `parts` are the objects now stored under the stream's folder. */
  function DoCopy(c: Stream, parts: map<int, Bytes>, op: CopyOp): Stream
    requires CanCopy(c, op)
  {
    match op
    case OpenPart => if c.next in parts then c.(open := true, rest := parts[c.next]) else c.(end := Broken)
    case ReadChunk(k) => c.(synced := |c.read|, read := c.read + c.rest[..k], rest := c.rest[k..])
    case ClientTake(k) => c.(client := c.read[..|c.client| + k])
    case MergeTake(k) => c.(merge := c.read[..|c.merge| + k])
    case ClosePart => c.(open := false, next := c.next + 1)
    case FinishCopy => c.(end := CleanEof)
    case BreakCopy => c.(end := Broken)
  }

  // ---------- the merge worker ----------

  /** `applied` says whether the statement took effect, `acked` whether the worker learns that it did. */
  datatype WorkerOp =
    | PutMerged(acked: bool)
    | FailMerge
    | ResetMerge(applied: bool)
    | SetMerged(now: int, applied: bool, acked: bool)
    | SetPartsDeleted(now: int, applied: bool)
    | DropMergedParts(keep: set<int>, more: bool)
    | DeregisterWorker
    | CloseDone

  predicate WorkerAt(s: State, w: nat, pc: WorkerPc) {
    w in s.actors && s.actors[w].Worker? && s.actors[w].pc == pc
  }

  predicate CanWork(s: State, w: nat, op: WorkerOp) {
    match op
    case PutMerged(_) =>
      && WorkerAt(s, w, Uploading)
      && var c := s.actors[w].copier;
      c in s.actors && s.actors[c].Copier? && s.actors[c].stream.end == CleanEof
    case FailMerge => WorkerAt(s, w, Uploading)
    case ResetMerge(_) => WorkerAt(s, w, Resetting)
    case SetMerged(_, applied, acked) => WorkerAt(s, w, MarkMerged) && (acked ==> applied)
    case SetPartsDeleted(_, _) => WorkerAt(s, w, MarkPartsDeleted)
    case DropMergedParts(_, _) => WorkerAt(s, w, DropParts)
    case DeregisterWorker => WorkerAt(s, w, Deregister)
    case CloseDone => WorkerAt(s, w, Closing)
  }

  function WorkEffect(s: State, w: nat, op: WorkerOp): State
    requires CanWork(s, w, op)
  {
    var k := s.actors[w];
    match op
    case PutMerged(_) => s.(merged := s.merged[k.folder := s.actors[k.copier].stream.merge])
    case ResetMerge(applied) => if applied then SetLocation(s, k.loc, ResetRow) else s
    case SetMerged(now, applied, _) =>
      if applied then SetLocation(s, k.loc, (r: Location) => r.(mergedAt := Some(now))) else s
    case SetPartsDeleted(now, applied) =>
      if applied then SetLocation(s, k.loc, (r: Location) => r.(partsDeletedAt := Some(now))) else s
    case DropMergedParts(keep, _) => KeepParts(s, k.folder, keep)
    case DeregisterWorker => s.(merges := s.merges - {k.loc})
    case FailMerge => s
    case CloseDone => s
  }

  function WorkMove(op: WorkerOp): WorkerPc {
    match op
    case PutMerged(acked) => if acked then MarkMerged else Resetting
    case FailMerge => Resetting
    case ResetMerge(_) => Deregister
    case SetMerged(_, _, acked) => if acked then MarkPartsDeleted else Deregister
    case SetPartsDeleted(_, _) => DropParts
    case DropMergedParts(_, more) => if more then DropParts else Deregister
    case DeregisterWorker => Closing
    case CloseDone => Closed
  }

  function DoWork(s: State, w: nat, op: WorkerOp): State
    requires CanWork(s, w, op)
  {
    Set(WorkEffect(s, w, op), w, s.actors[w].(pc := WorkMove(op)))
  }

  // ---------- cleanup tasks ----------

  /** The tail of a sweep over locations (expired, orphaned, evicted or deleted by hand), of the sweep over
      stale uploads, and of CleanupParts. */
  datatype SweepOp =
    | SweepRow(applied: bool)
    | SweepFolder(keep: set<int>, keepMerged: bool, more: bool)
    | SweepUploadRow(applied: bool)
    | SweepUploadFolder(keep: set<int>, keepMerged: bool, more: bool)
    | CleanMark(now: int, acked: bool)
    | CleanDrop(keep: set<int>, more: bool)

  predicate CanSweep(s: State, a: nat, op: SweepOp) {
    && a in s.actors
    && var k := s.actors[a];
    match op
    case SweepRow(_) => k.Sweeper? && k.dropping == DropRow
    case SweepFolder(_, _, _) => k.Sweeper? && k.dropping == DropFolder
    case SweepUploadRow(_) => k.UploadSweeper? && k.sweeping == DropRow
    case SweepUploadFolder(_, _, _) => k.UploadSweeper? && k.sweeping == DropFolder
    case CleanMark(_, _) => k.PartsCleaner? && k.cleaning == MarkRow
    case CleanDrop(_, _) => k.PartsCleaner? && k.cleaning == DropFiles
  }

  function SweepEffect(s: State, a: nat, op: SweepOp): State
    requires CanSweep(s, a, op)
  {
    var k := s.actors[a];
    match op
    case SweepRow(applied) => if applied then DropLocation(s, k.loc) else s
    case SweepFolder(keep, keepMerged, _) => KeepFolder(s, k.folder, keep, keepMerged)
    case SweepUploadRow(applied) => if applied then DropUploadRow(s, k.upload) else s
    case SweepUploadFolder(keep, keepMerged, _) => KeepFolder(s, k.upload, keep, keepMerged)
    case CleanMark(now, acked) =>
      if acked then SetLocation(s, k.loc, (r: Location) => r.(partsDeletedAt := Some(now))) else s
    case CleanDrop(keep, _) => KeepParts(s, k.folder, keep)
  }

  function SweepMove(k: Actor, op: SweepOp): Actor
    requires k.Sweeper? || k.UploadSweeper? || k.PartsCleaner?
  {
    match op
    case SweepRow(_) => if k.Sweeper? then k.(dropping := DropFolder) else Ended
    case SweepUploadRow(_) => if k.UploadSweeper? then k.(sweeping := DropFolder) else Ended
    case CleanMark(_, acked) => if k.PartsCleaner? && acked then k.(cleaning := DropFiles) else Ended
    case SweepFolder(_, _, more) => if more then k else Ended
    case SweepUploadFolder(_, _, more) => if more then k else Ended
    case CleanDrop(_, more) => if more then k else Ended
  }

  function DoSweep(s: State, a: nat, op: SweepOp): State
    requires CanSweep(s, a, op)
  {
    Set(SweepEffect(s, a, op), a, SweepMove(s.actors[a], op))
  }

  // ---------- calls that begin by reading a row ----------

  datatype StartOp =
    | BeginFinalize(u: nat)  // FindUploadByKey and the counter checks
    | BeginDownload(e: nat)  // FindCacheEntryWithLocation
    | ListLocation(l: nat)   // a row listed by a sweep over locations
    | ListUpload(u: nat)
    | ListMerged(l: nat)

  predicate CanStart(s: State, a: nat, op: StartOp) {
    && a !in s.actors
    && match op
       case BeginFinalize(u) => u in s.uploads
       case BeginDownload(e) => e in s.entries && s.entries[e].location in s.locations
       case ListLocation(l) => l in s.locations
       case ListUpload(u) => u in s.uploads
       case ListMerged(l) => l in s.locations && s.locations[l].mergedAt.Some? && s.locations[l].partsDeletedAt.None?
  }

  predicate CountersAgree(row: Upload) {
    row.finished != 0 && row.started == row.finished
  }

  function StartEffect(s: State, op: StartOp): State {
    match op
    case BeginFinalize(u) =>
      if u in s.uploads && CountersAgree(s.uploads[u]) && u !in s.frozen then s.(frozen := s.frozen[u := PartsOf(s, u)])
      else s
    case _ => s
  }

  function StartMove(s: State, a: nat, op: StartOp): Actor
    requires CanStart(s, a, op)
  {
    match op
    case BeginFinalize(u) =>
      var row := s.uploads[u];
      Finalizer(u, row.key, row.finished, if CountersAgree(row) then CountParts else Reject)
    case BeginDownload(e) =>
      var l := s.entries[e].location;
      var row := s.locations[l];
      var key := s.entries[e].key;
      if row.mergedAt.Some? then Downloader(key, l, row.folder, row.partCount, OpenMerged)
      else if row.mergeStartedAt.Some? then Copier(NewStream(key, row.folder, row.partCount, false))
      else Downloader(key, l, row.folder, row.partCount, CheckParts)
    case ListLocation(l) => Sweeper(l, s.locations[l].folder, DropRow)
    case ListUpload(u) => UploadSweeper(u, DropRow)
    case ListMerged(l) => PartsCleaner(l, s.locations[l].folder, MarkRow)
  }

  function DoStart(s: State, a: nat, op: StartOp): State
    requires CanStart(s, a, op)
  {
    Set(StartEffect(s, op), a, StartMove(s, a, op))
  }

  // ---------- steps ----------

  datatype Step =
    | CreateUpload(u: nat, key: Key, now: int)
    | StartPart(a: nat, u: nat, index: int, body: Bytes)  // FindUploadByID and IncStartedPartCount
    | Touch(l: nat, now: int)                             // UpdateStorageLastDownloaded
    | ResetStalled(before: int)
    | DeleteEntry(e: nat)
    | StartStep(a: nat, start: StartOp)
    | PartStep(a: nat, part: PartOp)
    | FinalizeStep(a: nat, finalize: FinalizeOp)
    | DownloadStep(a: nat, download: DownloadOp)
    | CopyStep(a: nat, copy: CopyOp)
    | WorkerStep(a: nat, work: WorkerOp)
    | SweepStep(a: nat, sweep: SweepOp)

  /** When the program can take the step.  Generated ids are fresh against every id ever used, and
      `u !in s.frozen` in StartPart is the hypothesis that no part upload begins on an upload once a
      finalize has accepted its counters. */
  predicate Enabled(s: State, step: Step) {
    match step
    case CreateUpload(u, _, _) => u !in s.history
    case StartPart(a, u, _, _) => a !in s.actors && u in s.uploads && u !in s.frozen
    case Touch(_, _) => true
    case ResetStalled(_) => true
    case DeleteEntry(_) => true
    case StartStep(a, op) => CanStart(s, a, op)
    case PartStep(a, op) => CanPart(s, a, op)
    case FinalizeStep(a, op) => CanFinalize(s, a, op)
    case DownloadStep(a, op) => CanDownload(s, a, op)
    case CopyStep(a, op) => a in s.actors && s.actors[a].Copier? && CanCopy(s.actors[a].stream, op)
    case WorkerStep(a, op) => CanWork(s, a, op)
    case SweepStep(a, op) => CanSweep(s, a, op)
  }

  function DoCopyStep(s: State, a: nat, op: CopyOp): State
    requires a in s.actors && s.actors[a].Copier? && CanCopy(s.actors[a].stream, op)
  {
    var c := s.actors[a].stream;
    Set(s, a, Copier(DoCopy(c, PartsOf(s, c.folder), op)))
  }

  function Next(s: State, step: Step): State
    requires Enabled(s, step)
  {
    match step
    case CreateUpload(u, key, now) =>
      s.(uploads := s.uploads[u := Upload(key, now, None, 0, 0)], history := s.history[u := PartHistory(key, [], [])])
    case StartPart(a, u, index, body) =>
      Set(s.(uploads := s.uploads[u := Started(s.uploads[u])]), a, PartUpload(u, index, body, false))
    case Touch(l, now) => TouchRow(s, l, now)
    case ResetStalled(before) => ResetRows(s, before)
    case DeleteEntry(e) => s.(entries := s.entries - {e})
    case StartStep(a, op) => DoStart(s, a, op)
    case PartStep(a, op) => DoPart(s, a, op)
    case FinalizeStep(a, op) => DoFinalize(s, a, op)
    case DownloadStep(a, op) => DoDownload(s, a, op)
    case CopyStep(a, op) => DoCopyStep(s, a, op)
    case WorkerStep(a, op) => DoWork(s, a, op)
    case SweepStep(a, op) => DoSweep(s, a, op)
  }

  // ---------- runs ----------

  predicate ValidRun(s: State, run: seq<Step>)
    decreases |run|
  {
    run == [] || (Enabled(s, run[0]) && ValidRun(Next(s, run[0]), run[1..]))
  }

  function After(s: State, run: seq<Step>): State
    requires ValidRun(s, run)
    decreases |run|
  {
    if run == [] then s else After(Next(s, run[0]), run[1..])
  }

  /** States some interleaving leads to. */
  ghost predicate Reachable(s: State) {
    exists run :: ValidRun(Init(), run) && After(Init(), run) == s
  }
}
