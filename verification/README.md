# A model of the cache server's storage core

The cache server stores the archives of CI jobs. A job creates an *upload*, puts numbered parts under the
upload's folder and finalizes it; this makes a *storage location* (a folder and a number of parts) and a *cache
entry* that points to it under (key, version, scope, repository). The first download streams the parts to the
client and, in lockstep, to one merged object that later downloads read instead. Six periodic tasks delete stale
uploads, expired and orphaned locations, parts that a merged object has replaced, the marks of stalled merges,
and, when the disk is full, the least recently used entries.

The project models this core and proves what the service promises about it: that no download ever sees wrong
bytes, that archives stay readable, that a lookup finds the best entry, and what the sweeps leave behind.

## Layout

| file | content |
|---|---|
| `Types.dfy` | rows, parts and their concatenation, counting |
| `Protocol.dfy` | the storage protocol as a transition system: tables, objects and every live goroutine; a step is one database statement, one adapter call or one pipe transfer, and may fail |
| `ProtocolSafety.dfy` | the safety invariant over all interleavings, and what follows: no wrong bytes, finalize soundness, lockstep |
| `ProtocolReferences.dfy` | entries and locations over all interleavings: replacing an entry is gap-free |
| `ProtocolAvailability.dfy` | availability and the merge phases over all interleavings, folder by folder |
| `ProtocolGaps.dfy` | archives whose part indices have a gap, which no merge can complete |
| `ProtocolDelivery.dfy` | nothing is merged unless a client was sent the whole archive |
| `ProtocolKeeping.dfy` | what keeps a folder readable once harm has been done to it |
| `ProtocolRuns.dfy`, `ProtocolRaces.dfy`, `ProtocolLosses.dfy` | interleavings put together step by step: the races, and how parts are lost that are still needed |
| `ProtocolExactness.dfy` | which marks, stalled resets and new locations cost an archive, exactly |
| `ProtocolWitnesses.dfy` | states from which the races start, reached from the empty state |
| `ProtocolRegistry.dfy` | the registry of ongoing merges, waiting for them, and a race in it |
| `Like.dfy` | the meaning of the LIKE pattern of the prefix query |
| `Queries.dfy` | the three tables and their statements |
| `Lookup.dfy` | `MatchCacheEntry` against a declarative specification |
| `Scopes.dfy` | the in-place sort of scopes, and what it means for lookups |
| `Decimals.dfy`, `BlockId.dfy` | numerals, base64, and the two block-id layouts |
| `ObjectNames.dfy`, `S3.dfy` | object names, folder prefixes, and the S3 adapter's token loops; its `PutObject`, `OpenObject`, `DeleteFolder`, `DeleteParts` and `CountParts` keep the contracts of `Service.Adapter` on every bucket that represents a store, the deletes if no answered request spares a key |
| `Ownership.dfy` | rows and objects between two calls: who owns which objects, and what a finalize makes of them |
| `Service.dfy` | the service one call at a time, with every statement and adapter call able to fail |
| `Sweeps.dfy` | five cleanup tasks as page loops |
| `Eviction.dfy` | eviction under disk pressure |

The protocol is modelled twice because it has two kinds of promise. Claims about concurrency are theorems over
every reachable state of the transition system. Claims about one call's effect are contracts of imperative
methods on the same tables, with the whole new state in their postconditions.

## What the proofs say about the code

Some properties hold only on a condition, which is then stated exactly, with a run or a state in which it fails.

- *Availability is local.* In every reachable state a location can be read unless one of four events hit its own
  folder (`ProtocolAvailability.Harms`): a whole-folder delete while it still has a location, a second location or
  one for parts that are no longer all there, a merge marked while the row is merged or being merged, a stalled
  reset of a merge whose goroutine is alive. Nothing that happens to other folders matters.
- *The merge race.* Two downloads both find the parts; one completes its merge and deletes them; the other one
  fails and resets the row. The entry stays and its archive is lost (`MergeRace`, and from the empty state
  `ArchivesAreLost`), because the update that marks a merge does not look at the row. A mark leaves the archive
  readable and its row in a proper phase, in all runs that follow without other harm, if and only if the row is not
  merged and no other goroutine is merging it, or the part indices have a gap, so that no merge ever ends
  (`MarkExactly`); one that found both timestamps still empty always does. A merged row that is marked again loses
  its phase, but stays readable if and only if all its parts are there and nobody will delete them
  (`MarkedButReadable` is such a run).
- *The stalled reset.* It may hit a live merge, and then even downloads that find every row as they read it lose
  the archive (`StalledResetRace`). The archive stays readable if and only if no goroutine is merging, or no entry
  and no goroutine can lead to another merge of the location, or the part indices have a gap
  (`ResetStalledExactly`).
- *Finalizing twice, or under a sweep.* Two finalizes of one upload, or one whose upload is swept in between, can
  leave an entry with an empty archive (`SecondFinalize`, `SweptUnderFinalize`). The new location is readable if and
  only if the counted parts are still there, and the folder stays so if and only if, besides, its other locations
  are merged for good and nobody is at work on its parts, or the indices have a gap (`AddLocationExactly`).
- *Failed row deletes.* A sweep deletes the folder of a location whose row it could not delete (`FailedRowDelete`).
- *Late failure of a finalize.* Once the new location is inserted, a failing statement or folder delete leaves
  the upload row, whose folder the location now shares. `CompleteUpload` gives up ownership if and only if it fails
  that late and has not deleted the upload all the same, which its inputs decide (`Accepts`, `LateFault`). Entries
  and archives are intact even then (`Standing`), but the next sweep of stale uploads empties the archive
  (`LateFailureLosesArchive`). A retry reports success: if the entry already pointed to the new location, it deletes
  the folder of the archive it points to, and otherwise leaves a second location on it, whose sweep does so
  (`RetryExactly`, `SharedFolderLosesArchive`).
- *Registry race.* A worker resets its row before it removes itself from the registry, so a second download may
  overwrite its registration, and a shutdown then does not wait for it (`RegistryRace`, `WorkersAreForgotten`). The registry agrees
  with the workers exactly as long as no registration overwrites another (`AgreementStep`).
- *Sweeps.* The offset advances over a set that shrinks, so a run over n rows leaves `Left(n)` of them, at most
  n/2, and none if and only if n is at most one page (`LeftBound`).
- *Eviction.* If every delete of an entry fails while space is short, neither the cap nor an empty list ends the
  loop; only the expiry of its context does (`Ended`).
- *Block ids.* The 48-byte layout accepts a sign, so different ids can name one part (`SameChunkExactly`), and a
  negative index, which no complete archive contains, can be uploaded (`NegativeExactly`).
- *Deletes that spare keys.* The adapter does not look at the keys that an answered delete request names as not
  deleted; what it then leaves, reporting success, is exactly among those (`DeleteByPrefix`).

Where the documentation and the code disagree the model follows the code: docs/how-it-works.md says that setting
either disk-pressure threshold to 0 disables eviction, but only the minimum does (a target below the minimum is
raised to it); and it says that no active download loses its archive, but only entries whose merge is in flight
are skipped.

## Hypotheses

- Generated ids are fresh: in the protocol an upload id against every upload id ever used, and location and entry
  ids likewise; in `Service.dfy` location and entry ids only. The random generators are not modelled.
- `FindUploadByID` and `IncStartedPartCount` are one step, and no part upload begins on an upload whose counters a
  finalize has accepted. `Protocol.Enabled` states both.
- `UploadStream` is all or nothing, as in the S3 adapter. A failed call may have stored the whole object, and a
  failed `DeleteFolder` may have deleted any part of the folder.
- In `Service.dfy`, `Sweeps.dfy` and `Eviction.dfy` calls run one after the other. `CompleteUpload` and eviction
  require `Linked` (every entry has a location of its own), which `EntriesResolve` shows of every reachable state.

## Model

| member | source | states |
|---|---|---|
| ProtocolSafety.StepKeepsSafe | internal/storage/service.go:57-283 | every step of every goroutine (part uploads, finalizes, downloads, copiers, merge workers, sweeps), failing or not, keeps the safety invariant |
| ProtocolSafety.ReachableSafe | internal/storage/service.go:57-283 | the invariant holds in every reachable state of every interleaving |
| ProtocolSafety.NoWrongBytes | internal/storage/service.go:168-283 | whatever any download has sent is a prefix of the finalized parts of an upload of the entry's key, joined in order; a clean end means all of them were sent |
| ProtocolSafety.MergedObjectsComplete | internal/storage/service.go:212-229 | every merged object in the store is the whole archive of its folder |
| ProtocolSafety.MergedIsComplete | internal/storage/service.go:235-243 | a merge upload that sees a clean end of its pipe has been given every part in order, exactly what the client was sent |
| ProtocolDelivery.MergedOnlyIfDelivered | internal/storage/service.go:212-243 | in every reachable state a merged row, a merged object, a deletion of parts or a worker past its upload implies a client that was sent every part in order: a client or part error yields no mergedAt |
| ProtocolDelivery.MergeWorkerDelivered | internal/storage/service.go:212-243 | ... and for a worker past its upload it is the very client it copied from |
| ProtocolSafety.CountSettles | internal/storage/service.go:118-126 | if as many files are counted as part uploads finished, no index was uploaded twice |
| ProtocolSafety.FinalizeSound | internal/storage/service.go:109-126 | a location exists only for an upload all of whose part uploads completed, with pairwise distinct indices, one object each, partCount in number |
| ProtocolSafety.CleanEofNeedsAllIndices | internal/storage/service.go:259-272 | a copy ends cleanly only if the uploaded indices are exactly 0 .. partCount-1 |
| ProtocolSafety.CountersTellIncomplete | internal/storage/service.go:91-97 | over any history, started minus finished is the number of part uploads that failed or are in flight |
| ProtocolSafety.Lockstep | internal/storage/service.go:204-243 | the bytes the merge pipe accepted are a prefix of those the client accepted, at most the write in progress behind; at a clean end all three agree |
| ProtocolReferences.StepKeepsRefs | internal/db/queries.go:126-138 | every step keeps: one entry per location, a finalizer's new location is used by nobody, a replaced one only by the entry about to be repointed |
| ProtocolReferences.ReplaceIsGapFree | internal/storage/service.go:132-161 | at every statement of a finalize, whatever runs beside it, each existing entry keeps its id and key and has a location row; the cascade takes none |
| ProtocolReferences.EntriesResolve | internal/db/migrations.go:104-112 | in every reachable state every entry's location exists and no two entries share one |
| ProtocolAvailability.StepKeepsAvail | internal/storage/service.go:132-233 | every step of every goroutine keeps a folder's archive available and its only location in phase, unless it is one of the four events of Harms on this very folder |
| ProtocolAvailability.Availability | internal/storage/service.go:168-233 | in every state that a run reaches without such an event on its own folder, a location can be read: before mergedAt all finalized parts are there unchanged, afterwards the complete merged object |
| ProtocolAvailability.ReplaceKeepsReadable | internal/storage/service.go:132-161 | at every statement of a finalize each entry keeps id and key, and its location can be read if nothing harmed its folder |
| ProtocolAvailability.MergedReadNeverStale | internal/storage/service.go:180-186 | a download of a merged location finds the merged object as long as the row exists |
| ProtocolAvailability.PartsReadStaleOnlyIfMerged | internal/storage/service.go:192-198 | a download of an unmerged location is reported stale only if another one has merged it meanwhile |
| ProtocolAvailability.PhaseAutomaton | internal/db/queries.go:102-124 | only the phases none, started, merged, parts deleted occur, each step follows the automaton, the only way back is from started to none |
| ProtocolGaps.StepKeepsGap | internal/storage/service.go:259-272 | an archive whose part indices have a gap loses no part, and no merge of it ends, in any step that neither deletes its folder nor locates it again |
| ProtocolKeeping.StepKeepsHeld | internal/storage/service.go:132-233 | whatever harm was done to a folder before, every further step that does it no harm keeps its locations readable, once they are merged for good or their parts are safe until the one location that needs them is merged |
| ProtocolExactness.MarkExactly | internal/storage/service.go:192-202 | marking the merge of an unharmed archive leaves it readable and in phase, in all runs that do not harm it, if and only if its row is not merged and no other goroutine is merging it, or its part indices are not 0 .. n-1; and leaves it readable if and only if so, or the row is merged and all its parts are there and stay |
| ProtocolExactness.ResetStalledExactly | internal/db/queries.go:236-244 | resetting a stalled merge leaves the archive readable if and only if no goroutine is merging, or no other merge of the location can begin, or the part indices are not 0 .. n-1; in the first and last case also in phase, and only then if another merge can begin |
| ProtocolExactness.AddLocationExactly | internal/storage/service.go:118-137 | in every reachable state a new location can be read if and only if the counted parts are still there; the folder stays readable if and only if so and its other locations are merged for good and nobody is at work on its parts, or the indices have a gap |
| ProtocolWitnesses.ArchivesAreLost | internal/storage/service.go:192-228 | the merge race has a start state that is reached from the empty state, so an archive is really lost |
| ProtocolWitnesses.WorkersAreForgotten | internal/storage/service.go:204-219 | so has the registry race |
| ProtocolWitnesses.MarkedButReadable | internal/storage/service.go:200-233 | a run from the empty state in which a merged row is marked again and its archive stays readable all the same, the deletion of its parts having failed |
| ProtocolRaces.MergeRace | internal/storage/service.go:192-228 | from every state with an unmerged complete archive two downloads can lose it while its entry stays |
| ProtocolRaces.StalledResetRace | internal/tasks/cleanup_merges.go:13-15 | so can two downloads that both find the row as read, with a stalled reset in between |
| ProtocolRaces.FailedRowDelete | internal/tasks/cleanup_cache_entries.go:19-22 | a location whose row delete fails loses its objects |
| ProtocolRaces.SecondFinalize | internal/storage/service.go:100-166 | two finalizes of one upload can leave its entry without an archive |
| ProtocolRaces.SweptUnderFinalize | internal/tasks/cleanup_uploads.go:17-22 | so can a sweep of the upload between count and insertion |
| ProtocolRegistry.AgreementStep | internal/storage/service.go:206-218 | a step keeps the registry equal to the unfinished workers if and only if it does not register a location that is still registered |
| ProtocolRegistry.SpawnAgrees | internal/storage/service.go:208-210 | registering a merge keeps the agreement exactly if the location has no registered worker |
| ProtocolRegistry.TidyRunAgrees | internal/storage/service.go:206-218 | over every run without such a registration the registry lists exactly the unfinished workers |
| ProtocolRegistry.WaitCoversAllWorkers | internal/storage/service.go:41-55 | when all channels of the snapshot are closed, every worker unfinished at the call has done all its steps, whatever ran meanwhile |
| ProtocolRegistry.RegistryRace | internal/storage/service.go:212-224 | from every state with an unmerged archive a run that harms nothing leads to a registry that has forgotten a live worker |
| Types.Pigeonhole | internal/storage/service.go:118-126 | as many distinct indices as uploads means no index twice |
| Types.FirstIndices | internal/storage/service.go:259-272 | n distinct indices that include 0 .. n-1 are exactly those |
| Like.EscapedThen | internal/db/queries.go:163-172 | an escaped string followed by any pattern consumes exactly its own length, up to folding, and leaves the rest to that pattern |
| Like.PrefixPattern | internal/db/queries.go:163-172 | the pattern of the prefix query accepts a key if and only if the given string is a prefix of it, up to the database's folding |
| Like.ExactPattern | internal/db/queries.go:333-336 | the escaped string alone accepts itself only |
| Like.UnescapeEscape | internal/db/queries.go:333-336 | escaping has a left inverse |
| Like.EscapeInjective | internal/db/queries.go:333-336 | different strings are escaped differently |
| Like.BarePatternExactly | internal/db/queries.go:163-172 | unescaped, the pattern would mean the prefix search if and only if the key has no special character |
| Queries.Queries.FindUploadByKey | internal/db/queries.go:40-47 | a row of the key, or none exactly if there is none |
| Queries.Queries.DeleteStorageLocation | internal/db/queries.go:90-94 | removes the row and, by the cascade, exactly the entries that point to it |
| Queries.Queries.ResetStalledMerges | internal/db/queries.go:236-244 | clears the marks of exactly the unmerged rows started before the threshold, and counts them |
| Queries.Queries.InsertCacheEntry | internal/db/queries.go:126-131 | adds the row if its location exists and fails otherwise |
| Queries.Queries.UpdateCacheEntryLocation | internal/db/queries.go:133-138 | repoints the entry if the new location exists, keeping its id and key |
| Queries.Queries.FindExistingCacheEntryWithLocation | internal/db/queries.go:193-211 | an entry of the key whose location exists, or none exactly if there is none |
| Queries.Queries.FindExactCacheEntry | internal/db/queries.go:153-161 | a newest entry of exactly this key, or none exactly if there is none |
| Queries.Queries.FindPrefixedCacheEntry | internal/db/queries.go:163-172 | a newest entry whose key matches the prefix pattern, or none exactly if there is none |
| Queries.Queries.ListLRUCacheEntries | internal/db/queries.go:418-438 | the given number of least recently used evictable entries, oldest first, without a repetition |
| Queries.List | internal/db/queries.go:213-234 | a page of a query without ORDER BY: the right number of distinct rows of the set, in whatever order |
| Lookup.CandidatesAnswer | internal/db/queries.go:153-172 | the two SELECT statements return exactly the entries that answer the rank (scope, key, exact or by prefix) |
| Lookup.Query | internal/storage/service.go:312-331 | if all preferred ranks are empty, a query fails, returns the best match of its rank or shows it empty |
| Lookup.QueryKey | internal/storage/service.go:323-332 | the two queries of one key return a best match or an error, or show the key empty in this scope |
| Lookup.MatchCacheEntry | internal/storage/service.go:306-336 | the nested search with early exit returns an entry minimal in (scope, key, exact before prefix) and newest in its class, with its match type, nothing if nothing answers; or the error of the first failing query, if that comes first |
| Lookup.FailsExactly | internal/storage/service.go:306-336 | a lookup fails if and only if some query fails and nothing answers a preferred one; otherwise it is the best match |
| Lookup.EmptyIff | internal/storage/service.go:306-336 | nothing is found if and only if no entry of this version and repository in any listed scope has any listed key as a prefix |
| Lookup.BestIsUnique | internal/storage/service.go:306-336 | two best matches differ at most among equally new entries of one rank |
| Scopes.ScopesByPermissionDesc | internal/auth/scope.go:92-104 | the adjacent-swap sort on a copy returns the names of a stable sort by falling permission and leaves its input alone |
| Scopes.StableSortPermutes | internal/auth/scope.go:92-104 | such a sort is a permutation |
| Scopes.StableSortUnique | internal/auth/scope.go:92-104 | there is only one |
| Scopes.HigherPermissionFirst | internal/server/util.go:12-19 | an entry is returned from a scope only if nothing in any scope of a higher permission has any of the keys as a prefix |
| Scopes.WriteScope | internal/auth/scope.go:83-90 | the first scope that may write, or none exactly if there is none |
| Decimals.AtoiFormat | internal/storage/service.go:73 | a formatted number is read back |
| Decimals.FormatInjective | internal/storage/service.go:94 | different numbers are written differently |
| BlockId.DecodeEncode | internal/server/blockid.go:10-13 | base64 as in section 4 of RFC 4648: every byte string is decoded from its encoding |
| BlockId.DecodesExactly | internal/server/blockid.go:10-13 | line breaks and spare bits apart, exactly the encodings are decoded |
| BlockId.BinaryRoundTrip | internal/server/blockid.go:15-16 | 64-byte layout: every n below 2^32 in bytes 16 to 19 is read back, whatever the other bytes are |
| BlockId.BinaryIndexInjective | internal/server/blockid.go:15-16 | two 64-byte ids have one index if and only if they agree in these bytes |
| BlockId.SameObjectExactly | internal/server/upload.go:31-42 | ... and write one part object if and only if they do |
| BlockId.DecimalRoundTrip | internal/server/blockid.go:17-26 | 48-byte layout: every n below 10^12, padded to 12 digits after any 36 bytes, is read back |
| BlockId.SameChunkExactly | internal/server/blockid.go:17-26 | two accepted 48-byte ids name one chunk if and only if their suffixes have the same digits, a sign counting as zero, and the same sign or value zero |
| BlockId.AcceptedExactly | internal/server/blockid.go:9-29 | a string is accepted if and only if it spells 64 bytes, or 48 with a numeral, signed or not, in the last 12; and the range of the index |
| BlockId.NegativeExactly | internal/server/blockid.go:22-26 | which suffixes give a negative index |
| BlockId.SignIsRedundant | internal/server/blockid.go:22-26 | a plus sign makes two different ids of one index, a minus sign its negative |
| ObjectNames.NameInjective | internal/storage/service.go:94 | different objects (part or merged, folder, index) have different names |
| ObjectNames.FolderPrefixExact | internal/storage/s3.go:120-122 | a folder's prefix, with its trailing slash, covers exactly the folder's objects |
| ObjectNames.PartsPrefixExact | internal/storage/s3.go:215-216 | the parts prefix covers exactly the folder's parts |
| ObjectNames.WithoutSlash | internal/storage/s3.go:120-122 | without the slash it would cover exactly the folders whose numeral starts with the same digits |
| ObjectNames.PutRepresents | internal/storage/s3.go:104-118 | putting an object under its name is putting it into the store |
| ObjectNames.DeleteRepresents | internal/storage/s3.go:120-122 | removing the keys under a prefix is removing the folder, or its parts, from the store |
| ObjectNames.CountRepresents | internal/storage/s3.go:215-230 | counting keys under the parts prefix is counting parts |
| S3.NextRest | internal/storage/s3.go:137-158 | what follows a truncated page is what was listed for less the page |
| S3.S3Adapter.ListObjects | internal/storage/s3.go:137-158 | the server's page: first keys after the token, ascending; a truncated page is not empty |
| S3.S3Adapter.UploadStream | internal/storage/s3.go:104-118 | all or nothing; no request if the body cannot be read |
| S3.S3Adapter.PutObject | internal/storage/s3.go:104-118 | the put as the service sees it: stored if it succeeds, possibly if not |
| S3.S3Adapter.OpenObject | internal/storage/s3.go:85-102 | opening as the service sees it: the object, missing, or an error |
| S3.S3Adapter.DeleteObjects | internal/storage/s3.go:184-213 | batches of at most 1000 keys that together name every key once and in order; their number; what is left was spared by a request; on failure only listed keys are gone |
| S3.S3Adapter.DeleteByPrefix | internal/storage/s3.go:160-182 | ends, even if nothing is deleted; on success every key left under the prefix was spared by a request, and none is left if none was; nothing else is touched; it succeeds if and only if every request is answered |
| S3.S3Adapter.CountFilesUnder | internal/storage/s3.go:215-230 | ends; the number of keys under the prefix |
| S3.S3Adapter.DeleteFolder | internal/storage/s3.go:120-122 | in a bucket that represents a store exactly the folder's objects go; a failed call leaves a store with some of them |
| S3.S3Adapter.DeleteParts | internal/storage/service.go:230-232 | the same for the folder's parts |
| S3.S3Adapter.CountParts | internal/storage/service.go:119 | the number of the folder's parts in the store |
| S3.RemainderRepresents | internal/storage/s3.go:160-182 | what a failed delete leaves is a store again, with all objects that were not to be deleted |
| Service.Service.CreateUpload | internal/storage/service.go:57-79 | a new upload if and only if the key has none and its id is not an upload's; ownership is kept if and only if the id is no location's folder |
| Service.Service.UploadPart | internal/storage/service.go:83-98 | the exact counters and objects for every failure, also of calls that took effect unanswered; ownership and all archives are kept |
| Service.Service.CompleteUpload | internal/storage/service.go:100-166 | each of the five outcomes holds if and only if the key's upload and the failing calls say so; on success the whole new state and archive, a retry after a late failure included; ownership is given up exactly if it fails late and the upload row is still there, and then that row is all that is not owned, every entry has its old archive or the new one, and it is said whether the key's entry points to the new location; failing statements may have taken effect |
| Service.Service.Install | internal/storage/service.go:132-165 | fails exactly if a statement that follows for this key fails; the whole new state if the upload row is gone; otherwise every entry still has a location with its old archive or the new one, and everything but the upload row is owned |
| Service.Service.Replace | internal/storage/service.go:145-153 | repoint, delete, delete the folder: the state after each failure, taken effect or not, keeps every entry's archive |
| Service.Service.StreamPartsTo | internal/storage/service.go:259-272 | sends a prefix of the leading parts; succeeds exactly with all parts in order, and without errors fails only at a missing part |
| Service.Service.Download | internal/storage/service.go:168-246 | what is sent is a prefix of the archive, all of it at a clean end; every archive, its own included, stays what it was through the merge; the exact row and objects afterwards |
| Service.Service.Serve | internal/storage/service.go:180-246 | the same for a location, by the timestamps of its row |
| Service.Service.FirstDownload | internal/storage/service.go:192-245 | the first download: exact row and objects for every fault; without faults the merged object is what was sent and replaces the parts, and after a part or client error nothing has changed |
| Service.Service.Merge | internal/storage/service.go:212-233 | the exact row and objects for every failure of the worker; no archive changes |
| Service.EnoughParts | internal/storage/service.go:248-257 | a complete archive passes the count of parts |
| Ownership.FinalizedOwned | internal/storage/service.go:132-164 | a finalize keeps: one upload and entry per key, one entry per location, existing locations, pairwise distinct folders |
| Ownership.FinalizedKeeps | internal/storage/service.go:148-153 | deleting the old folder takes no object of a surviving row |
| Ownership.FinalizedArchive | internal/storage/service.go:132-161 | the new location's archive is what was uploaded, or empty if the replaced location has the upload's own folder |
| Ownership.NothingCascades | internal/storage/service.go:145-150 | once the entry is repointed, deleting the old location cascades to nothing |
| Ownership.DroppedStands | internal/storage/service.go:148-153 | even if deleting the old folder fails half-way all entries have their archives |
| Service.RetryExactly | internal/storage/service.go:132-165 | a successful retry in the state a late failure leaves: ownership and an empty archive if the key's entry pointed to the new location already, otherwise two locations on one folder |
| Ownership.RetryEmptiesArchive | internal/storage/service.go:144-165 | a retry after a finalize that failed between repointing the entry and deleting its upload reports success, restores ownership and leaves an empty archive |
| Ownership.RetrySharesFolder | internal/storage/service.go:132-164 | a retry after one that failed before that leaves two locations on the archive's folder |
| Service.MergedKeeps | internal/storage/service.go:225-232 | marking a location as merged and dropping its parts changes no archive |
| Service.StoreMergedKeeps | internal/storage/service.go:220-224 | as long as mergedAt is not set a stored merged object changes no archive |
| Sweeps.LeftBound | internal/tasks/cleanup_uploads.go:14-26 | one run leaves at most half of the rows, and none if and only if they fit on one page |
| Sweeps.RunsDrain | internal/tasks/cleanup_uploads.go:14-26 | 10 * 2^k rows are gone after k+1 runs |
| Sweeps.CleanupUploads | internal/tasks/cleanup_uploads.go:8-28 | ends; only stale uploads go, with their objects, and objects are lost in their folders only; if no row fails exactly Left(n) stale rows stay |
| Sweeps.CleanupCacheEntries | internal/tasks/cleanup_cache_entries.go:8-28 | the same for expired locations, with exactly their entries |
| Sweeps.CleanupStorageLocations | internal/tasks/cleanup_storage_locations.go:5-24 | the same for locations that serve no entry |
| Sweeps.OrphansHaveNoEntries | internal/db/queries.go:221-227 | such a sweep removes no entry |
| Sweeps.SweepLocationStep | internal/tasks/cleanup_cache_entries.go:19-22 | one deleted location takes exactly its entries and its folder's objects with it, and is one row less |
| Sweeps.SweepUploadStep | internal/tasks/cleanup_uploads.go:19-22 | the same for an upload |
| Sweeps.SweptKeeps | internal/tasks/cleanup_storage_locations.go:14-17 | if folders are not shared and no row's delete fails, everything stays owned and every surviving row has all it had |
| Sweeps.UploadsSweptOwned | internal/tasks/cleanup_uploads.go:17-22 | if folders are not shared, every survivor of a sweep of uploads keeps its archive and objects, unless its own row's delete failed |
| Sweeps.LocationsSweptOwned | internal/tasks/cleanup_cache_entries.go:19-22 | the same for sweeps of locations |
| Sweeps.LateFailureLosesArchive | internal/tasks/cleanup_uploads.go:17-22 | whatever a run of CleanupUploads does that leaves no stale row, a location that shares its folder with a stale upload, as after a late failure, has lost its archive |
| Sweeps.SharedFolderLosesArchive | internal/tasks/cleanup_storage_locations.go:14-17 | so has a location whose folder a swept location shared |
| Sweeps.CleanupParts | internal/tasks/cleanup_parts.go:9-32 | marks merged locations, drops parts of their folders and nothing else, stops at the first failure; otherwise exactly Left(n) rows stay unmarked |
| Sweeps.PartsSweptOwned | internal/tasks/cleanup_parts.go:21-28 | if folders are not shared no archive changes |
| Sweeps.CleanupMerges | internal/tasks/cleanup_merges.go:8-17 | no stalled mark stays, other rows and every mergedAt are unchanged, no archive changes |
| Eviction.CleanupDiskPressure | internal/tasks/cleanup_disk_pressure.go:13-73 | exactly when it starts; fewer than 1010 entries go, none with a merge in flight, and objects in their folders only; a run that ends on its target leaves the space at which a rerun does not start |
| Eviction.EvictUntil | internal/tasks/cleanup_disk_pressure.go:35-72 | no batch is evicted after the target is reached; how each run ends; it ends within the cap if every round evicts something, and only with its context if all deletes fail |
| Eviction.EvictBatch | internal/tasks/cleanup_disk_pressure.go:46-58 | exactly the entries whose delete succeeds go, with their locations and objects; all others keep theirs |
| Eviction.EvictStep | internal/tasks/cleanup_disk_pressure.go:47-57 | one eviction takes its entry, its location and objects of its folder, and nothing else |
| Eviction.EvictedOwned | internal/tasks/cleanup_disk_pressure.go:46-58 | if folders are not shared every survivor of a run keeps its archive, unless its own row's delete failed |
| Eviction.EvictableAre | internal/db/queries.go:418-423 | evicting changes neither which other entries may be evicted nor their order |
| Eviction.BatchLeastRecent | internal/tasks/cleanup_disk_pressure.go:35-59 | if deletes succeed all entries evicted in a run are least recently used among those evictable at its start |
| Eviction.NothingLeft | internal/tasks/cleanup_disk_pressure.go:41-45 | a run that finds nothing to evict has evicted all that was evictable |

## Left out

- HTTP handlers, middleware, proxying, JSON and Twirp framing, tokens, signatures, configuration and logging: no property of the storage core depends on them; a request without a block id writes part 0 (internal/server/upload.go:31-32).
- The filesystem and GCS adapters. The filesystem `UploadStream` creates the file before it copies, so a failed put may leave part of an object; the all-or-nothing hypothesis excludes this.
- Liveness: that a first download ends when the merge upload fails before it has read its pipe (nothing closes the reading end then, internal/storage/service.go:212-224) is not claimed, and the code does not ensure it.
- Crash atomicity of `CompleteUpload`, uniqueness of keys under concurrent `CreateUpload` or `CompleteUpload` calls, and freedom from orphaned objects: the code does not provide them (internal/storage/service.go:109-131, internal/db/migrations.go:104-125).
- Service.Service.Download: a database statement that fails has had no effect, and likewise in `CreateUpload`; statements that took effect without an answer are modelled in `UploadPart`, in `CompleteUpload` and, for every call, in the protocol.
- Service.Service.Merge: a merge upload that fails does so after reading its pipe, see liveness above.
- Like.PrefixPattern: covers the LIKE of the prefix query for any character folding; the `=` of the exact query is taken as equality of strings, so a collation that folds case in `=` is not covered.
- S3.S3Adapter.DeleteByPrefix: nobody else changes the bucket during the call.
- Eviction.CleanupDiskPressure: free space is an arbitrary answer to each probe and is not tied to the sizes of what was evicted.
- Sweeps.CleanupUploads: rows do not start or cease to match during a sweep, except by its own deletes; the same holds for the other sweeps.
- Decimals.AtoiNumeral: strconv.Atoi is modelled for the twelve bytes it is given, where no value can overflow.
- Clocks and contexts: times are arbitrary inputs; a context's expiry is a number of turns (`Trouble.deadline`) or a failing call.
- The management interface, presigned download URLs and seekable reads of merged objects: filters and forwarding without a further property.
