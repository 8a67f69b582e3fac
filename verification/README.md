# Verified model of the majutsu cluster master, packs and local collection

majutsu backs up a workspace as content-addressed objects. Slaves queue uploads and send them to a
cluster master. The master makes each upload durable in its own store, acknowledges it, and a
background worker publishes it to an object-storage backend. Locally, loose objects are packed, packs
are compacted, and unreferenced objects are collected.

This project models that machinery and proves what holds over every run, with a crash or an I/O error
possible at every durable write. `dafny verify dfyconfig.toml` checks all of it.

## The parts

* **The master as a step system** (`MasterState`, `MasterInvariant`, `MasterRefinement`, `CrashReplay`).
  Five directories (store, write intents, backend queue, receipts, tombstones), the backend, the holder
  of the durable lock with the next write it owes, the uploads in flight outside the lock, and the
  worker's non-atomic scan of the queue directory. Every durable write, every backend effect, every
  crash is one step. One invariant, stated per key, is kept by every step. From it follow: what was
  acknowledged is what is read; background work is invisible; no stored payload loses its backup
  obligation; a crash anywhere inside a Put is repaired by replay.
* **The master as code** (`MasterServer`, `MasterWorker`). The request handlers and the background worker
  as methods over mutable directories. A ghost log records one step of the step system for each durable
  write, so that whatever holds of all runs holds of the handlers.
* **Publication** (`BackendQueue`, `KeyLayers`, `Drain`, `Publication`, `HostPublication`, `Boundaries`).
  Layers (content before metadata before refs), by string in the code and by the form of a path in the
  proofs, the constant-size dependency index, selection and draining, what order the backend observes, what
  a commit report is worth, and where stronger claims stop being true.
* **Retention** (`Retention`). How long a deleted payload stays on the master, to the tick of the clock.
* **End to end** (`SlaveQueue`, `UploadBatches`, `EndToEnd`, `UploadRaces`, `Eviction`). The slave's upload queue joined to
  the master: conservation of uploads, the exact condition under which it fails, and safe eviction.
* **Indexes and gates** (`GcCatalog`, `ListCache`, `ListRuns`, `BackendGate`, `KeyOrder`).
* **Packs** (`PackFormat`, `PackWriter`, `Compaction`), **collection** (`ObjectGraph`, `MarkSweep`),
  the **event journal** (`Journal`) and **range reads** of a mounted file (`RangeRead`).

## What is assumed

* blake3 is injective; a digest is its preimage under a tag.
* A queue generation or tombstone generation is never handed out twice, and pack ids are fresh.
* Content addressing: a key that is ever written conditionally always carries the same bytes.
* The master's clock does not go back.
* The sync and maintenance locks keep enqueueing and draining on one slave apart, and local objects named
  by a queue entry are not removed or changed.
* Writing a file atomically, or removing it, is one step together with the in-memory counter that
  follows it, and so is reading the clock for a queue entry and writing that entry. An I/O error
  happens before or after such a step.
* One worker drains the queue, only it changes the backend, and a backend call that has returned with an
  error either has or has not had its effect.
* Node keys are hashes that cover the keys of the children, so node references are acyclic.
* Compression and encryption are lossless (`PackWriter.Lossless`), and a stored record is shorter than
  2^64 bytes.

The step system allows more than the code does where that costs nothing: the durable lock may be released
between the items of a batch, recovery may start at any time, and a flight may be captured while others
are out.

## What the proofs found

Ten properties one might expect are false of the code. Each has a lemma or method that reaches the failure,
and the condition under which the property holds.

* *Publication order.* Reading the queue directory is not atomic. A ref enqueued while the scan runs can
  overtake content enqueued before it (`Boundaries.TornScanOvertakes`). Over all runs, order is kept exactly
  for refs enqueued before the scan that sends them began (`Boundaries.OrderedIff`).
* *Layers of a host.* The layer of a key is found by looking for `refs`, `journal` or `metadata` anywhere in it,
  the host's name included, and the master accepts hosts of these names. Such a host's objects are taken for
  refs or metadata, and its export may be sent first (`HostPublication.ReservedOvertakes`). All other host
  names are layered as designed (`HostPublication.LayeredIff`).
* *Read-through.* A read fetches from the backend without the durable lock, and on return it looks only at
  whether the store holds the key. A key whose Delete was completed in between comes back at once
  (`Boundaries.LateHydrationResurrects`), or when a tombstone that names other bytes is collected
  (`Boundaries.CollectionResurrects`). `Boundaries.LateHydrationNeverShowsIff` gives the condition, over all
  later runs, in terms of queue, tombstone, backend and logged write. The step system takes every late write
  that keeps its invariant (`Boundaries.LateHydrationKeepsIff`); one that only anticipates a logged write is
  treated in `Boundaries` alone.
* *Conservation of uploads.* A slave that gives up on a request may leave it under way. A newer upload of
  the same key is lost if the old request is taken up last (`UploadRaces.LossIsReachable`), and can be lost
  only if such a request with other bytes is out when it is made (`UploadRaces.SafeIffUndisputed`).
* *Draining.* A crash between the removal of a sent payload and of its queue entry leaves an entry that
  stops every later drain at its place in the order (`UploadRaces.EntryIsStranded`,
  `SlaveQueue.UploadQueue.NothingPassesMissingSource`). A drain empties the queue exactly when every source can
  be read and the batches it makes, as few as the limits allow, are no more than the master accepts.
* *The worker's tick.* A logged write whose room was taken meanwhile is refused when it is replayed, and the
  tick ends there: nothing is drained or collected, and nothing gives the room back
  (`MasterWorker.BlockedIsReached`, `MasterWorker.TicksWhileBlocked`, `MasterWorker.TickWithOneIntent`).
* *The backend gate.* A background caller that waited behind a foreground one is not woken when that one is
  admitted, and sleeps beside a free permit (`BackendGate.BackgroundSleepsBesideFreePermit`). It happens to
  background callers only, and only while some permit is out, whose return wakes all
  (`BackendGate.SleeperWillBeWoken`).
* *Tombstone catalog.* A writer cut off between its file and the catalog leaves them apart
  (`GcCatalog.AbandonedWriteIsMissed`), on its key and until that key is next read
  (`GcCatalog.CatalogFollowsFiles`).
* *List cache.* A batch that stops at an error skips the cache update, and so does a replay of a write cut off
  by an error (`ListRuns.StoppedBatchHidesKey`, `ListRuns.StoppedBatchHidesSize`, `ListRuns.ReplayHidesKey`;
  conditions in `ListCache.SkippedUpdateIsHarmlessIff` and
  `ListCache.SkippedSizesAreHarmlessIff`). A listing made while the backend is down is cached
  (`ListRuns.DegradedListingIsCached`, `ListCache.DegradedListingIsCompleteIff`).
* *Collection.* A blob without a row, with a row whose pack file is not here, or with a loose row that names
  another key, is read through the key in its record, and that does not protect it
  (`MarkSweep.OnlyCopyIsCollected`, `MarkSweep.BlobStaysReadableIff`).

## Model

| member | source | states |
|---|---|---|
| MasterState.WriteIsLocal | src/cluster_runtime.rs:2419-2540 | a durable write changes the files of its own key exactly as if that key were alone on disk |
| MasterState.BytesFollow | src/cluster_runtime.rs:2571-2577 | the running byte counter equals the bytes in the store after any write |
| MasterInvariant.InitInv | src/cluster_runtime.rs:1371-1450 | a fresh master in front of a backend that already holds objects satisfies the invariant |
| MasterInvariant.PutKeeps | src/cluster_runtime.rs:2419-2540 | each of the five durable writes of a Put keeps the per-key invariant, so stopping between any two is safe |
| MasterInvariant.ReplayKeeps | src/cluster_runtime.rs:2687-2728 | each durable write of an intent replay keeps the per-key invariant |
| MasterInvariant.RemoveKeeps | src/cluster_runtime.rs:2618-2630 | enqueueing a Delete keeps the per-key invariant |
| MasterInvariant.RetainKeeps | src/cluster_runtime.rs:3040-3067 | writing, or clearing, the tombstone after a backend delete keeps the per-key invariant |
| MasterInvariant.CollectKeeps | src/cluster_runtime.rs:3069-3128 | both removals of local GC, payload then tombstone, keep the per-key invariant |
| MasterInvariant.AdvanceKeeps | src/cluster_runtime.rs:2419-2540 | whoever holds the durable lock, the next durable write keeps the invariant for every key |
| MasterInvariant.HydrateKeeps | src/cluster_runtime.rs:2232-2259 | writing bytes fetched earlier into the store keeps the invariant, whatever happened in between, while the queued Delete, the tombstone or the backend makes it harmless |
| MasterInvariant.CaptureKeeps | src/cluster_runtime.rs:3754-3819 | handing an entry and its payload to an upload thread keeps the invariant |
| MasterInvariant.EffectKeeps | src/cluster_runtime.rs:3754-3819 | the backend call, made without the lock, keeps the invariant whatever requests ran meanwhile |
| MasterInvariant.CompleteKeeps | src/cluster_runtime.rs:3821-3842 | taking up a completion keeps the invariant, whether its generation is current or superseded |
| MasterInvariant.SkipKeeps | src/cluster_runtime.rs:3734-3752 | completing a conditional Put found in the backend listing keeps the invariant |
| MasterInvariant.FailKeeps | src/cluster_runtime.rs:3844-3868 | recording a failed attempt keeps the invariant, also when the failed call had taken effect |
| MasterInvariant.ScanKeeps | src/cluster_runtime.rs:3158-3195 | each step of the non-atomic queue scan keeps the invariant, which tracks what the scan may have missed |
| MasterInvariant.StepKeeps | src/cluster_runtime.rs:2419-2540 | every step of requests, worker, GC, clock, I/O error and crash keeps the invariant |
| MasterInvariant.RunKeeps | src/cluster_runtime.rs:2730-2750 | the invariant holds after every run, with crashes and I/O errors anywhere in it |
| MasterRefinement.StepRefines | src/cluster_runtime.rs:2232-2259 | refinement of a plain key-value map: a step changes what is read under a key only by committing its logged Put to exactly those bytes, or by a Delete to absent |
| MasterRefinement.BackgroundIsInvisible | src/cluster_runtime.rs:3376-3499 | uploads, backend deletes, completions, retries, tombstones and GC change what no client reads |
| MasterRefinement.QuietViewStays | src/cluster_runtime.rs:3376-3499 | a key nobody asks about keeps its value through any run, crashes included |
| MasterRefinement.AcknowledgedIsVisible | src/cluster_runtime.rs:2419-2540 | in every reachable state the last acknowledged Put or Delete of a key is what a read returns, until a newer Put of the key is logged |
| MasterRefinement.NoObligationLost | src/cluster_runtime.rs:2419-2540 | in every reachable state a stored payload is logged, queued, retained for deletion, or in the backend with equal bytes |
| MasterRefinement.DigestNeverChangedBeforeUpload | src/cluster_runtime.rs:3754-3819 | in every reachable state the upload thread's digest check succeeds on a key without a logged write |
| MasterRefinement.TakenUpIffNotReplaced | src/cluster_runtime.rs:3821-3842 | over every run from the sending of an entry to the return of the call, the completion is taken up exactly when no request replaced the entry, and otherwise changes no file |
| MasterRefinement.ReplacesIff | src/cluster_runtime.rs:2792-2825 | a queue entry is replaced exactly by a request with another operation, under a newer generation with no attempts; a repeated request leaves it alone |
| MasterRefinement.AgeIsKept | src/cluster_runtime.rs:2792-2825 | over every run, an entry keeps its age for as long as its key stays queued, through replacement, failures and restarts |
| MasterRefinement.CurrentCompletionIsEarned | src/cluster_runtime.rs:3821-3842 | a completion is taken up only when the backend holds the stored bytes, or, for a Delete, nothing |
| MasterRefinement.CollectedWasDeleted | src/cluster_runtime.rs:3069-3128 | only local GC removes a payload, and only from a key that reads as absent, has a tombstone and no queue entry |
| MasterRefinement.PutSwitchesOnce | src/cluster_runtime.rs:2419-2540 | a logged Put moves the value read once, from old to new, and has moved it before it is acknowledged |
| MasterRefinement.QuotaHolds | src/cluster_runtime.rs:2549-2569 | no step grows the store past its limit, or at all while it is above it |
| MasterRefinement.RefusedIff | src/cluster_runtime.rs:2419-2540 | a Put is refused exactly when it would make the store grow past the limit |
| MasterRefinement.RefusalChangesNothing | src/cluster_runtime.rs:2419-2540 | a Put refused by quota or as an immutable collision leaves the disk as it was |
| CrashReplay.LockMoves | src/cluster_runtime.rs:2419-2540 | the lock holder always has a next write and needs fewer after it, so every request ends |
| CrashReplay.WriteProgresses | src/cluster_runtime.rs:2419-2540 | once logged, a Put is never refused: each write leaves it in progress or landed |
| CrashReplay.SettleLands | src/cluster_runtime.rs:2419-2540 | left alone, a logged Put ends with payload, matching queue entry, no intent and no tombstone, other keys untouched |
| CrashReplay.CrashReplayLands | src/cluster_runtime.rs:2687-2728 | after any number of crashes and errors at any durable write of a Put or its replays, it is not refused, and an uninterrupted replay leaves what an undisturbed Put leaves |
| CrashReplay.LoggedIsNeverLost | src/cluster_runtime.rs:2687-2728 | through any run of other requests, worker, GC, crashes and errors, a logged Put stays logged until it is what is read; a replay lands it or, if the quota objects, changes no file |
| CrashReplay.ReplayRefusedIff | src/cluster_runtime.rs:2687-2728 | a replay is refused exactly when the quota has no room: immutability never objects |
| CrashReplay.PendingViewStays | src/cluster_runtime.rs:2687-2728 | meanwhile the key reads as before or as the logged bytes |
| CrashReplay.LoggedIsRecovering | src/cluster_runtime.rs:2419-2540 | a Put enters both regimes when its intent is logged, and before that the disk is as it was |
| MasterServer.Server.constructor | src/cluster_runtime.rs:1371-1450 | an empty master is in step with the initial state |
| MasterServer.Server.WriteBackendQueueItem | src/cluster_runtime.rs:2792-2825 | an entry with the same operation is reused, any other replaced under a new generation; no other key changes |
| MasterServer.Server.StorePayload | src/cluster_runtime.rs:2419-2540 | the payload and counter change exactly when the store lacks these bytes and neither immutability nor quota objects |
| MasterServer.Server.AdmitPut | src/cluster_runtime.rs:2419-2540 | a refused or duplicate Put changes no file; any other has its intent logged first |
| MasterServer.Server.WriteLogged | src/cluster_runtime.rs:2419-2540 | store, cancel GC, enqueue, remove intent, each one logged step; the result is landed and readable |
| MasterServer.Server.ProcessPut | src/cluster_runtime.rs:2419-2540 | success means the bytes are readable and landed or already backed up; refusal keeps all promises; other keys are untouched |
| MasterServer.Server.ProcessPuts | src/cluster_runtime.rs:2419-2540 | a batch acknowledges a prefix; each acknowledged key reads as its last write and all other keys as before, also when the batch stops, unless the refused key had an older intent, which is replayed |
| MasterServer.Server.ReplayIntent | src/cluster_runtime.rs:2687-2728 | a replay lands its intent or, refused by quota or collision, changes no file |
| MasterServer.Server.RecoverMasterWriteIntents | src/cluster_runtime.rs:2730-2750 | recovery lands intents until the quota refuses one, which it then still does; when it succeeds none is left; other keys are as before; if the quota refuses all, no file changes |
| MasterServer.Server.DurableDelete | src/cluster_runtime.rs:2618-2630 | an acknowledged Delete reads as absent at once, has a Delete queued and keeps the payload; it is refused exactly when the quota refuses a logged write of its key |
| MasterServer.Server.MasterGetOptional | src/cluster_runtime.rs:2232-2259 | a read returns the visible value and changes what is read under no key; at most it caches the backend's copy |
| MasterServer.Server.CollectOne | src/cluster_runtime.rs:3069-3128 | a due item is collected exactly when generation, deadline, empty queue and digest still hold under the lock |
| MasterServer.Server.RunLocalGc | src/cluster_runtime.rs:3069-3128 | over any list of due items, however stale, every listed tombstone that can be collected goes with its payload unless a logged write claims it, only expired ones go, payloads removed are counted, and reads do not change |
| MasterServer.Server.UploadBackendQueueItem | src/cluster_runtime.rs:3754-3868 | completes exactly when generation and digest are unchanged and the call succeeds; then backend, receipt, tombstone and queue agree with the entry; a failed call, with or without effect, only counts an attempt; a completed Put, unless a newer write is logged, is reported as committed |
| MasterServer.Server.Postpone | src/cluster_runtime.rs:3844-3868 | counts one attempt more and sets the next time on the entry, and changes nothing else |
| MasterServer.Server.SendPayload | src/cluster_runtime.rs:3754-3819 | the object-store call changes the backend object of its key and no file |
| MasterServer.Server.CompleteUploaded | src/cluster_runtime.rs:3821-3842 | retention, receipt and removal of the entry, in this order, end in a finished entry |
| MasterServer.Server.RetainLocal | src/cluster_runtime.rs:3040-3067 | after a backend delete a stored payload gets a tombstone with its digest and size, due one grace period from now, and else a stale tombstone goes |
| MasterServer.Server.WriteReceipt | src/cluster_runtime.rs:2672-2685 | the receipt written names the digest the backend holds, and a Delete leaves none |
| MasterServer.SweepIsInvisible | src/cluster_runtime.rs:3069-3128 | a sweep changes what is read under no key without a logged write |
| MasterServer.SweptIsGone | src/cluster_runtime.rs:3069-3128 | with its tombstone a payload goes, unless a logged write is about to claim it |
| MasterServer.FinishedIsReported | src/cluster_runtime.rs:3821-3842 | a finished upload of the stored bytes is reported as committed, unless a newer write is logged |
| Retention.StepRetains | src/cluster_runtime.rs:3040-3128 | every step but a request on the key keeps a deleted payload, and its place in queue or retention, while the deadline is ahead |
| Retention.GraceIsGranted | src/cluster_runtime.rs:3040-3128 | over every run without a request on the key: a payload whose Delete is acknowledged stays until one grace period later at least, and so does its tombstone |
| Retention.CollectableIff | src/cluster_runtime.rs:3040-3128 | from the completion of a Delete, local GC can have taken the payload by time x if and only if the grace period has passed by then |
| BackendQueue.IndexDecidesBlocking | src/cluster_runtime.rs:174-211 | the index by host and layer answers exactly the question asked of the whole queue |
| BackendQueue.BuildDependencies | src/cluster_runtime.rs:174-211 | one pass builds an index of exact minima, and it decides blocking for every entry |
| BackendQueue.SomethingIsUnblocked | src/cluster_runtime.rs:3219-3228 | every non-empty queue has an entry that may be sent, a Put when there is one |
| Drain.BackendQueueItems | src/cluster_runtime.rs:3158-3195 | every entry once, ordered by layer, age and key |
| Drain.Select | src/cluster_runtime.rs:3376-3499 | at most the cap, only eligible entries, all of them when the cap is not reached, and else none that is of a later layer, or as high and younger, than one left out |
| Drain.Partition | src/cluster_runtime.rs:3376-3499 | uploads and deletes of a selection, nothing lost or duplicated |
| MasterWorker.Plan | src/cluster_runtime.rs:3376-3499 | what a round sends: entries nothing of their host obstructs, due or forced; whatever else could be sent comes no earlier, and is left out only because the cap is reached |
| MasterWorker.PutOffWaits | src/cluster_runtime.rs:3844-3868 | an entry put off may be sent again exactly from its time on, or when forced, if nothing else keeps it back |
| Drain.TwoFlushesSuffice | src/cluster_runtime.rs:3376-3499 | any two forced flushes in a row empty a queue the cap covers |
| Drain.FlushesAreFew | src/cluster_runtime.rs:3376-3499 | in any sequence of forced flushes with something to do, all but two take away as many entries as the cap, and there are no more than entries |
| MasterWorker.RunRound | src/cluster_runtime.rs:3376-3499 | uploads before deletes over the master's directories: every selected entry completes, no delete overtakes a pending Put of its host, and no read changes |
| MasterWorker.DrainRound | src/cluster_runtime.rs:3376-3499 | a round, step by step a run of the step system, completes what it selects; a forced round that selects nothing leaves only held Deletes |
| MasterWorker.DrainBackendQueue | src/cluster_runtime.rs:3376-3499 | a flush terminates within its cap and changes no read; forced, it takes something from a non-empty queue, and below the cap leaves only Deletes of hosts that had Puts |
| MasterWorker.FlushUntilEmpty | src/cluster_runtime.rs:3376-3499 | forced flushes empty the queue, in few flushes, two if the cap suffices; then every stored payload not retained for deletion is in the backend, and no read has changed |
| MasterWorker.WorkerTick | src/cluster_runtime.rs:3350-3366 | recovery, then drain, then collection; a tick that recovers flushes the queue and collects what is due; one that meets a write the quota refuses does neither |
| MasterWorker.TickWithOneIntent | src/cluster_runtime.rs:3350-3366 | with one write logged, a tick is carried out exactly when the quota has room for it, and else changes no file |
| MasterWorker.TicksWhileBlocked | src/cluster_runtime.rs:3350-3366 | while the quota refuses every logged write, no number of ticks changes a file |
| MasterWorker.BlockedIsReached | src/cluster_runtime.rs:2419-2540 | a run that gets there: a Put fails after its intent is logged and another upload takes its room |
| Publication.OvertakenOnlyByLateEntries | src/cluster_runtime.rs:3219-3228 | whatever should have gone first and is still queued was enqueued after the scan began |
| Publication.PublicationOrder | src/cluster_runtime.rs:3219-3228 | while a Put enqueued before its scan is being sent, no Put of a lower layer, as old and of the same host, is queued |
| KeyLayers.LayersFollowForm | src/cluster_runtime.rs:3230-3248 | for all keys: one is in a lower layer than the other exactly when the directories and file names of their paths make it content and the other journal, metadata or ref, or journal or metadata and the other a ref |
| KeyLayers.JoinOfSplit | src/internal/majutsu_store.rs:96-155 | every key is a path and is told by its components |
| HostPublication.LayeredIff | src/cluster_runtime.rs:3230-3248 | on master and slave a host's objects are below its export and journal, and these below its refs, current mark and head, exactly if the host is not named refs, journal or metadata |
| HostPublication.LowerRoleIsPublished | src/cluster_runtime.rs:169-211 | when one of a host's keys is sent, whatever of lower role it enqueued no later and nobody asked about since is in the backend with its bytes |
| HostPublication.PublishedRefHasContent | src/cluster_runtime.rs:169-211 | and stays there through every later run that does not name it: a published ref has its objects, metadata and journal |
| HostPublication.SeparatedIff | src/cluster_runtime.rs:3219-3248 | over all runs of a fresh master, two writes are sent in order exactly when they are of one host and the forms of their keys say so |
| HostPublication.YoungerHoldsNothingBack | src/cluster_runtime.rs:3219-3228 | nothing waits for what was enqueued after it: a run in which it is sent first, for any two keys and times |
| HostPublication.UnrelatedOvertakes | src/cluster_runtime.rs:3219-3248 | a run that sends the later of two writes first, for any two of different hosts or of layers not in order |
| HostPublication.ReservedOvertakes | src/cluster_runtime.rs:1945-1956 | a host named refs, journal or metadata, which the master accepts, may have its export sent before an object enqueued earlier |
| HostPublication.DeletesAfterIff | src/cluster_runtime.rs:174-211 | over all runs, a Delete is carried out only after the writes enqueued before its scan, exactly those of its own host |
| Publication.CommittedIsInBackend | src/cluster_runtime.rs:3821-3842 | a payload with nothing pending is in the backend with the same bytes |
| Publication.ContentPrecedesRef | src/cluster_runtime.rs:169-211 | when a ref is sent, content enqueued no later on the same host is in the backend with its bytes |
| Publication.CommittedStays | src/cluster_runtime.rs:3376-3499 | and stays there, byte for byte, through any run that does not name it |
| Publication.RefImpliesContent | src/cluster_runtime.rs:169-211 | from the sending of the ref on, through every later run that does not name the content, the backend has it |
| Publication.CommitReportIsSound | src/cluster_runtime.rs:2137-2167 | a commit report is true and stays true until the key is rewritten or deleted |
| Publication.ReportedIffDrained | src/cluster_runtime.rs:2137-2167 | over every run without a request on the key, a queued Put is reported as committed, asked under the lock, if and only if its entry has left the queue |
| Publication.ConfirmedStaysReported | src/cluster_runtime.rs:2137-2167 | what could be reported once is reported at every later query until a request names it |
| Publication.DuplicateIff | src/cluster_runtime.rs:2419-2540 | a Put is acknowledged without a write exactly when the master, asked just then, would report the very bytes it carries as committed |
| Boundaries.TornScanOvertakes | src/cluster_runtime.rs:3158-3195 | for any content and ref of one host and any times: a run in which the ref, enqueued during the scan, is sent while the content is queued |
| Boundaries.OrderedIff | src/cluster_runtime.rs:3158-3228 | over all runs of a fresh master, a ref sent in a round never overtakes what should go first exactly when it was enqueued before the scan of that round began |
| Boundaries.LateHydrationKeepsIff | src/cluster_runtime.rs:2232-2259 | the second half of a read-through keeps the invariant and what is read exactly when it does nothing or is harmless by queue, tombstone and backend |
| Boundaries.LateHydrationNeverShowsIff | src/cluster_runtime.rs:2232-2259 | over every later run in which nobody asks about the key, it reads only as before or as a write logged for it, exactly when the late write does nothing, is harmless, or stores what that write is about to store |
| Boundaries.TimelyHydrationKeeps | src/cluster_runtime.rs:2232-2259 | while the backend still holds the fetched bytes, the late write keeps the whole invariant |
| Boundaries.LateHydrationResurrects | src/cluster_runtime.rs:2232-2259 | a run after which a late write brings back a key whose Delete was acknowledged and completed |
| Boundaries.CollectionResurrects | src/cluster_runtime.rs:2232-2259 | a run after which a late write is hidden at first and comes to light when the tombstone, which names other bytes, is collected |
| SlaveQueue.LayersAgree | src/queue_runtime.rs:502-522 | the slave gives every key the layer the master gives it; what the layers mean is in KeyLayers and HostPublication |
| SlaveQueue.UploadQueue.SendClusterUploadBatch | src/queue_runtime.rs:354-400 | durable storage of all removes payloads and entries, failure counts one attempt on each, a malformed reply changes nothing |
| SlaveQueue.UploadQueue.UploadQueueItems | src/queue_runtime.rs:285-298 | every entry once, in the order of layer and key |
| UploadBatches.BatchesCover | src/queue_runtime.rs:313-342 | cutting the items greedily loses and reorders nothing, and every batch is within the limits or a single object |
| UploadBatches.FewestBatches | src/queue_runtime.rs:313-342 | no way of cutting the items into batches within the limits has fewer |
| SlaveQueue.UploadQueue.DrainUploadQueueViaMaster | src/queue_runtime.rs:285-352 | sends the planned batches, as the files held them, up to the one refused; what left is a prefix of the order; the rest is unchanged but for one attempt on the failed batch; the queue is emptied exactly when all sources can be read and the batches are no more than the master accepts |
| SlaveQueue.UploadQueue.LowerLayersLeaveFirst | src/queue_runtime.rs:285-352 | however a drain ends, no entry has left before one of a lower layer; by form, no ref before journal, metadata or content, none of these before content |
| SlaveQueue.UploadQueue.NothingPassesMissingSource | src/queue_runtime.rs:313-335 | an entry whose source is missing stops every drain: neither it nor anything ordered after it leaves |
| EndToEnd.SettledStays | src/cluster_runtime.rs:2419-2540 | a readable upload stays readable through every step of the master that makes no new request on its key |
| EndToEnd.AcknowledgedIsSettled | src/cluster_runtime.rs:2419-2540 | the write that acknowledges a Put leaves it readable with nothing in progress against it |
| EndToEnd.StepConserves | src/queue_runtime.rs:354-400 | no step of slave, network or master loses an upload, except making one while an older request with other bytes is out |
| EndToEnd.UploadsAreConserved | src/queue_runtime.rs:285-400 | over every run with undisputed uploads, an upload is in the slave's queue, or readable on the master and logged, queued or in the backend |
| UploadRaces.RequestIsAcknowledged | src/cluster_runtime.rs:2419-2540 | on a master without quota any request that is out can be served to its acknowledgement |
| UploadRaces.AbandonedRequestOverwrites | src/queue_runtime.rs:354-400 | an abandoned older request, served late, puts the older bytes back |
| UploadRaces.UndisputedIsSafe | src/queue_runtime.rs:57-134 | with a quota or without: an upload made while no request with other bytes is out is never lost |
| UploadRaces.SafeIffUndisputed | src/queue_runtime.rs:57-134 | on a master without quota an upload can be lost if and only if a request for its key with other bytes is out when it is made |
| UploadRaces.EntryIsStranded | src/queue_runtime.rs:394-398 | from every fresh slave: a crash between the two removals leaves an entry whose source is missing |
| UploadRaces.LossIsReachable | src/queue_runtime.rs:366-378 | from every fresh slave, on any key it may overwrite: a timeout and a newer upload lead to the loss of the newer bytes |
| UploadRaces.DuplicateChangesNothing | src/cluster_runtime.rs:2419-2540 | a repeated upload of a held object changes no file: entry, generation and age are kept |
| Eviction.AnswerBackendCommitted | src/cluster_runtime.rs:2137-2167 | of the keys asked about, exactly those the master can vouch for (see Publication.ReportedIffDrained); more than 1024 keys are refused |
| Eviction.BackendCommittedKeys | src/cluster_runtime.rs:1050-1069 | the slave asks in batches, none of which is refused, and gets what the master vouches for when each batch arrives |
| Eviction.FilterBackendCommitted | src/cache_runtime.rs:305-337 | keeps exactly the candidates committed under the host key or its canonical alias, in order |
| Eviction.PlanEviction | src/cache_runtime.rs:305-337 | asked of a master that goes on working, the plan holds only files that are in the backend when it answers, and every file whose upload was complete before and is not rewritten meanwhile |
| Eviction.RemovePayloadCacheCandidates | src/cache_runtime.rs:218-242 | removes the planned files and no other |
| Eviction.EvictedIsInBackend | src/cache_runtime.rs:305-337 | a file evicted through the filter is, and stays, in the backend with the bytes the master reported |
| GcCatalog.LocalGcCatalog.Remove | src/cluster_runtime.rs:225-262 | both time indexes and the byte total stay functions of the item map |
| GcCatalog.LocalGcCatalog.Insert | src/cluster_runtime.rs:225-262 | replacing an item updates size and both indexes |
| GcCatalog.LocalGcCatalog.Stats | src/cluster_runtime.rs:225-262 | count, total, oldest deletion and next deadline, read off the indexes, are those of the items |
| GcCatalog.LocalGcCatalog.KeysWithPrefix | src/cluster_runtime.rs:3010-3027 | the ordered range from the prefix, cut at the first key without it, is all keys with the prefix |
| GcCatalog.LocalGcCatalog.Due | src/cluster_runtime.rs:3069-3079 | the time index, cut at the first item not due, is all due items |
| GcCatalog.CatalogFollowsFiles | src/cluster_runtime.rs:2931-2988 | over every interleaving of refreshes, writers and writers cut off by errors, a loaded catalog differs from the tombstone files at most on the key being written and on keys cut off since they were last read |
| GcCatalog.CatalogEqualsFiles | src/cluster_runtime.rs:2931-2988 | without cut-offs a loaded catalog equals the files whenever no writer is between its two writes |
| GcCatalog.AbandonedWriteIsMissed | src/cluster_runtime.rs:3029-3067 | a writer cut off after its file write leaves the catalog without the tombstone |
| KeyOrder.PrefixIsContiguous | src/cluster_runtime.rs:3010-3027 | keys with a prefix are consecutive in the order of keys |
| BackendGate.Gate.constructor | src/cluster_runtime.rs:585-606 | a limit of zero is taken as one |
| BackendGate.Gate.Enter | src/cluster_runtime.rs:607-634 | a caller gets a permit exactly when fewer than the limit are held and, if it is a background caller, no foreground caller waits |
| BackendGate.Gate.LookAgain | src/cluster_runtime.rs:607-634 | the same for a woken caller; the counters stay exact and no wakeup is lost |
| BackendGate.Gate.Release | src/cluster_runtime.rs:636-642 | gives back one permit and wakes every sleeper |
| BackendGate.SomeoneProceeds | src/cluster_runtime.rs:585-642 | no deadlock: with a caller awake and a permit free, or with no permit out, some waiting caller is awake and admissible |
| BackendGate.SleeperWillBeWoken | src/cluster_runtime.rs:607-642 | whoever sleeps although it could be admitted is a background caller, and some permit is out whose return will wake it |
| BackendGate.BackgroundSleepsBesideFreePermit | src/cluster_runtime.rs:607-634 | callers that leave a background caller asleep with a permit free and nobody else waiting |
| ListCache.MasterList | src/cluster_runtime.rs:2261-2281 | a sorted listing of exactly the keys that read as present, the backend's only if it answers |
| ListCache.MasterListWithSizes | src/cluster_runtime.rs:2299-2328 | the same with the size of what a read returns |
| ListCache.DegradedListingIsCompleteIff | src/cluster_runtime.rs:2261-2281 | a listing made without the backend is the full one exactly when the store has every visible key |
| ListCache.Cache.List | src/cluster_runtime.rs:2168-2177 | a young cached listing is given out, anything else is a fresh scan and is cached; while the backend answers and the cache agrees, either is the listing of now |
| ListCache.Cache.ListWithSizes | src/cluster_runtime.rs:2188-2197 | the same for sized listings |
| ListCache.Cache.Clear | src/cluster_runtime.rs:2359-2363 | an empty cache agrees with every state |
| ListCache.Cache.UpdateAfterPuts | src/cluster_runtime.rs:2365-2417 | editing the cached listings after a batch gives what a fresh scan would give |
| ListCache.BackgroundKeepsCache | src/cluster_runtime.rs:2338-2363 | between requests the cache stays right through any background run |
| ListCache.SkippedUpdateIsHarmlessIff | src/cluster_runtime.rs:2365-2417 | a key listing survives a skipped update exactly when every written key under its prefix was visible before |
| ListCache.SkippedSizesAreHarmlessIff | src/cluster_runtime.rs:2365-2417 | a sized listing moreover exactly when each such key kept its size |
| ListRuns.Serve | src/cluster_runtime.rs:2168-2215 | over every run of listings, batches, Deletes, background work and silent writes that keep visibility and size, with a backend that answers, each listing given out equals a fresh scan at that moment |
| ListRuns.DegradedListingIsCached | src/cluster_runtime.rs:2261-2281 | a listing made while the backend is down is given out again after it is back, and hides what only the backend holds |
| ListRuns.StoppedBatchHidesKey | src/cluster_runtime.rs:2419-2540 | a reached batch that writes a new key and stops at the quota leaves a listing without it |
| ListRuns.StoppedBatchHidesSize | src/cluster_runtime.rs:2419-2540 | a reached batch that changes a size and stops at the quota leaves the key listing right and the sized listing wrong |
| ListRuns.ReplayHidesKey | src/cluster_runtime.rs:2687-2728 | a reached replay, by the worker, of a write cut off by an error leaves a listing without its key |
| PackFormat.LengthSurvivesIff | src/main.rs:3095-3106 | a length field reads back exactly when the length fits it |
| PackFormat.RecordReadsBack | src/main.rs:3095-3106 | a slice is accepted with a payload exactly when it is the record of that payload |
| PackWriter.ReadersAgree | src/pack_runtime.rs:497-549 | the compacting reader and the ordinary reader give the same on every row with a position |
| PackWriter.CompactPayloadReader.ReadBlob | src/pack_runtime.rs:497-549 | keeping the last pack in memory gives what a fresh read would give |
| PackWriter.Repository.WriteBlobPacks | src/pack_runtime.rs:127-164 | fails exactly when a payload cannot be read; else the records tile the packs in order, each pack is within target or one record, and splits only when it must |
| PackWriter.Repository.FinishPack | src/pack_runtime.rs:232-251 | the pack file holds the bytes appended, and the summary describes them |
| PackWriter.ReadIsStable | src/pack_runtime.rs:127-164 | packs under new ids change no read |
| Compaction.SortBlobsSorts | src/pack_runtime.rs:388-395 | the compacting sort is sorted and a permutation |
| Compaction.SortedIsGrouped | src/pack_runtime.rs:388-395 | blobs of one pack are neighbours, so each pack is loaded once |
| Compaction.FilterSplits | src/pack_runtime.rs:166-195 | the two sides of a partition are the list, as multisets |
| Compaction.WriteTieredBlobPacks | src/pack_runtime.rs:166-195 | packs that hold only blobs of at most 128 KiB, then packs that hold only larger ones, each tiled by its records and within its tier's target unless it has one record; fails exactly when a payload cannot be read |
| Compaction.PersistWrittenPacks | src/pack_runtime.rs:271-298 | pack rows are added and each row moves to its last place |
| Compaction.MovedReadsBack | src/main.rs:5124-5171 | a moved row reads back its payload from the new pack |
| Compaction.PackCompact | src/pack_runtime.rs:300-386 | fails, changing no row, exactly when some payload cannot be read; else every blob is in one new pack, reads as before, no old pack is recorded; first come the packs of the current snapshot's blobs, then the others', small blobs apart from larger ones, tiled and within target |
| Compaction.PackLooseBlobs | src/pack_runtime.rs:63-125 | fails exactly when a loose object on disk cannot be read; exactly the loose rows without object and reference go, exactly the loose rows on disk move into tiled packs, small apart from larger, and read as before |
| Compaction.ReadsForward | src/pack_runtime.rs:300-386 | in the order of compaction the blobs of one pack follow each other from front to back |
| ObjectGraph.EnumerationIsReachability | src/object_paths.rs:182-190 | enumeration succeeds exactly when every reachable node can be read, and then lists exactly the reachable nodes |
| ObjectGraph.PushChildTreeNodeKeys | src/object_paths.rs:182-190 | the appending recursion extends its vector by exactly those keys |
| ObjectGraph.MergeIsRecords | src/object_paths.rs:154-180 | merging succeeds exactly when every reachable node can be read; each entry is a record and every recorded path is there |
| ObjectGraph.MergeIsCompleteIff | src/object_paths.rs:154-180 | the merge shows every record exactly when no two reachable nodes give one path two payloads |
| ObjectGraph.LastVisitedWins | src/object_paths.rs:154-190 | of several records of one path the merge shows that of the node the enumeration visits last |
| ObjectGraph.ReachabilityIsLocal | src/object_paths.rs:182-190 | keeping what is reachable keeps reachability |
| MarkSweep.LocalObjectKeys | src/object_paths.rs:33-123 | the mark phase fails exactly when something needed cannot be read; else it finds exactly the live keys |
| MarkSweep.MarkTree | src/object_paths.rs:33-123 | the keys and blobs of one tree, records merged over its nodes |
| MarkSweep.QueuedLocalObjectKeys | src/prune_runtime.rs:671-700 | exactly the valid keys queued for upload or named by the journal |
| MarkSweep.Gc | src/prune_runtime.rs:596-669 | removes exactly the files neither live nor queued, nothing on a dry run or a failed mark, and counts them |
| MarkSweep.RestoreSurvives | src/prune_runtime.rs:596-669 | after `Gc` a snapshot has the same trees, the same records, the same chunk lists, and every chunk that was there |
| MarkSweep.NodesSurvive | src/object_paths.rs:33-123 | every node below the root node or a recorded subtree of an exported snapshot's tree survives |
| MarkSweep.LargeFilesSurvive | src/object_paths.rs:33-123 | every large file an exported snapshot records keeps its manifest and the chunks that were here |
| MarkSweep.SweepIsStable | src/prune_runtime.rs:596-669 | after `Gc` everything is readable, live keys are the same, and a second collection finds no garbage |
| MarkSweep.IndexedBlobSurvives | src/object_paths.rs:33-123 | a blob with a row keeps its object, or its pack and index, as far as they were there |
| MarkSweep.BlobStaysReadableIff | src/main.rs:5124-5172 | a blob readable before `Gc` is readable after it, from the same file, exactly when its record's key is kept for another reason, its loose row names that key, or its pack file is here |
| MarkSweep.OnlyCopyIsCollected | src/main.rs:5124-5172 | three inputs on which `Gc` takes the only local copy: no row, a pack file that is not here, a loose row with another key |
| Journal.PreviousSnapshotFinish | src/queue_runtime.rs:1526-1531 | sorting, deduplicating and counting from the end gives the newest time but one |
| Journal.GoesIff | src/queue_runtime.rs:1620-1649 | what a compaction removes, in terms of the records alone: finishes and other records before the second newest finish; triggers before the newest that are synced and covered |
| Journal.PendingIff | src/queue_runtime.rs:1481-1500 | a record is pending exactly if it is a trigger and no finish is as late |
| Journal.FinishesSurvive | src/queue_runtime.rs:1541-1610 | compaction leaves the last finish and the one before it as they were |
| Journal.CompactionIsIdempotent | src/queue_runtime.rs:1541-1610 | a second compaction has nothing to remove |
| Journal.PendingSurvives | src/queue_runtime.rs:1620-1649 | what is pending before is exactly what is pending after |
| Journal.LostTriggersAreSafe | src/queue_runtime.rs:1620-1649 | a trigger goes only after it is in the remote journal and a later snapshot finish, which stays, has covered it |
| Journal.ArrivalsAreHarmless | src/queue_runtime.rs:1541-1610 | records that arrive during removal never make a removal wrong |
| Journal.EventJournal.Summarize | src/queue_runtime.rs:1481-1524 | pending are exactly the triggers no finish has reached; the other counts are the sizes of the sets they name |
| Journal.EventJournal.Compact | src/queue_runtime.rs:1541-1610 | a run that compacts keeps a record exactly if its kind, its times and the two newest finishes do not let it go; none goes when the journal is short and not forced, or on a dry run |
| RangeRead.ReadFile | src/fuse_mount.rs:191-223 | a read fails exactly when the blob, the manifest or an overlapping chunk cannot be read, and else gives exactly the slice of the file |
| RangeRead.ReadsConcatenate | src/fuse_mount.rs:191-223 | consecutive reads of any sizes give one longer read |
| RangeRead.ReadsGiveTheFile | src/fuse_mount.rs:191-223 | and the whole file once the sizes reach its length |

## Left out

- MasterWorker.DrainBackendQueue: models a backend that answers every call and no request in between; it starts after recovery, so no write is pending; failed calls are in `MasterServer.Server.UploadBackendQueueItem` and in the step system.
- MasterWorker.WorkerTick: with several logged writes, one replay can take or give back the room of the next, so the outcome depends on the order in which the directory is read; the exact condition is stated for one write, and that all refused means nothing changes.
- MasterWorker.FlushUntilEmpty: the same, for repeated forced flushes.
- MasterWorker.RunRound: sends one entry at a time; the step system lets uploads run side by side. Conditional uploads found in a backend listing are `Skip` steps there.
- MasterServer.Server.MasterGetOptional: fetching and caching are one call here; `Boundaries` and the `Hydrate` step treat the second half apart.
- SlaveQueue.UploadQueue.DrainUploadQueueViaMaster: does not model the skipping of entries, which never happens towards a master.
- SlaveQueue.UploadQueue.SendClusterUploadBatch: does not model the retry time written with an attempt; a crash among the removals is a step of `EndToEnd`.
- UploadRaces.SafeIffUndisputed: the losing direction is stated for a master without quota, which may otherwise refuse the requests that lose the upload.
- EndToEnd.UploadsAreConserved: an enqueue that replaces a spooled upload by a local object first removes the spooled payload, and from there on the replaced upload counts as withdrawn.
- ListRuns.Serve: a listing is made and cached in one step; a listing that is made before a Put and cached after the Put has updated the cache is not modelled.
- MarkSweep.BlobStaysReadableIff: speaks of local reads; a read that fails locally may still fetch the object from the remote.
- PackWriter.Repository.FinishPack: does not model the index file, whose content repeats the pack's entries.
- MarkSweep.Gc: removal of the files is one step; an error in the middle of the sweep is not modelled.
- GcCatalog.LocalGcCatalog.Stats: byte totals are unbounded; saturation at 2^64 is not modelled.
- BackendGate.SomeoneProceeds: states that some caller can go on, not that each one eventually does.
- Legacy host normalisation and reconciliation of queue entries from older versions.
- Ranged gets, existence queries, common prefixes, archive restore and lifecycle calls of the master: pass-through or easy variants of what is modelled.
- The wire protocol, its frame and batch limits other than that of the commit query, key validation, access control, node identity and leases.
- Counters left out of step by an I/O error after a rename, status, metrics and notices, retry jitter.
- The upload path from a slave straight to object storage, without a master.
- Hydration of snapshot manifests and of local objects from the remote, which adds local files.
- Statistics of packs.
- Compaction of snapshot-manifest metadata, pruning of remote history, payload indexes of snapshots.
- How an event is matched against a snapshot: coverage is a parameter of the journal's policy.
- Snapshot creation, restore to disk, watching, branches, configuration, the daemon and FUSE callbacks other than reading.
