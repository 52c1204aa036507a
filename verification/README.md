# filigrio daemon: verification project

A Dafny model of the filigrio daemon's write-behind graph store and of the run loop that feeds it,
with four smaller cores beside them. It answers three questions for every run: which graph does a
project have, what of it is on disk, and what survives a crash.

Run `dafny verify dfyconfig.toml` in this directory.

## What is modelled

**The store** (`Graph`, `CacheSpec`, `Cache`, `FlushSpec`, `Flush`). `ProjectStateCache` is an LRU
cache of full graphs with pinned manifests, a dirty set and one derived query view per entry;
`Flusher` is the persistence cadence around it: a client lane that writes through, a producer lane that
defers, a dirty table with two timers, write-back on eviction, and the flush at shutdown. Both are
classes updated in place, and every method's `ensures` equates its whole new state with a function of the
old one. `CacheSpec` and `FlushSpec` hold those functions; the laws are lemmas over runs of them
(`StoreSteps`, `StoreOps`, `StoreRuns`, `StoreLaws`, `Facets`, `Staleness`, `Cadence`, `Views`, `Lru`, `Windows`).

A graph state is eight facets known only by identity. `symbols` and `symbol_index` are never persisted,
so loading gives back the state with those two emptied (`Erase`), and "the same state" always means the
same up to one such trip (`Agrees`); `Facets` says what that means facet by facet, for reads, exports and
crashes. `Cadence` tells the dirty windows and the scheduled flush from a run's calls and the clock alone.
A state object has an address, so that the cache's identity check is modelled as it is. Checkpoints are one
map from output directory to state.

**Applies, views, lifecycle** (`Locks`, `Applies`, `ApplyDebt`, `Source`, `Serial`, `Startup`, `Lifecycle`, `Lifetimes`). The apply
path takes the project's lock, reads the prior state, runs the pipeline and records what it made; the
pipeline is an arbitrary function from a prior state to an optional fresh one, which may fail. `Serial`
interleaves any number of such applies, lock by lock, with each other, flushes and unlocked reads.
`Lifetimes` is the machine-level life of daemons: start, consume the marker, serve, shut down one write at
a time, crash anywhere. `Startup` is what startup convergence does to every project.

**The run loop** (`LoopSpec`, `RunLoop`, `Watchers`, `Delivery`, `LoopOrder`, `LoopDebt`, `LoopHead`, `LoopExit`, `LoopProgress`). The
three-lane queue, the bounded one-per-project scheduler, the producers and their channels, and the loop's
deferred backlog and recluster debts are classes; a history records what was submitted, admitted, started
and finished. `Delivery` follows each produced item into the backlog; `LoopHead` says when slots are
filled, debts met and the idle exit taken.

**Edits** (`Pipeline`, `WatchSpec`, `Watch`, `WatchExact`, `WatchStart`). One project's creations, writes and removals
from the file system to the graph. A job gates by time and then by hash, extracts, and stamps the
manifest's time and hash, each a separate look at the file; removals are passed through unread. `Watch` says
which steps can lose an edit and that no other does, `WatchExact` what the graph of a quiet project is,
`WatchStart` what a daemon's start leaves; `Pipeline` is one job over one file.

**Smaller cores**: the ancestor probe of `Workspace::project_of` (`Workspace`), the adjusted Rand index over
exact reals (`Ari`), the span printer and parser (`Spans`) and the token-budget cutter (`Budget`).

## Assumptions, and what the code does without them

- *Atomic calls.* Each public method of the flusher and the cache is one step. The code drops the cache
  mutex inside `state_of`, between the miss and `load_into`: an apply taken up there is lost exactly when it saves
  otherwise than the checkpoint that was loaded, and nothing else is (`Windows`). The window between an
  eviction and its write-back stays one step.
- *Eviction write-backs succeed* where a lemma requires `Reliable`, `GoodRun`, `NoLoss`, `NoLossAll` or
  `Loses(...).None?`. Every other write may fail at any time. The dirty flag is dropped before a write-back is attempted, so when one fails an
  acknowledged apply is gone: `StoreLaws.LossIsExact` says exactly when, `StoreLaws.FailedWriteBackLoses` gives the
  run. The invariant (`StoreRuns.RunKeepsInv`) and integrity (`StoreLaws.NeverTorn`) need no such assumption.
- *A project id keeps one output directory, no two projects share one.*
- *Lifetimes are sequential.* Removing the marker may fail: the next shallow start is then right exactly when what
  the daemon left dirty was already on disk (`Lifetimes.ShallowIsRightIff`).
- *The previous lifetime* in the marker's promise is the last one that served. A process that dies between
  reading the marker and removing it leaves it behind, and its successor is shallow again without any
  intervening shutdown; that is safe (`Lifetimes.CrashBeforeConsumeIsShallowAgain`), but the promise read literally, "the
  previous process completed its shutdown", is false there.
- *A recluster that errors* is forgotten until the next change-making apply; the debt results say exactly so, for
  every run, and `LoopExit.FailedReclusterForgets` gives the run.
- *The watcher emits an event for every edit*, in batches that name what to index and what is gone.
- *An edit of a watched project is lost* only by one of the steps `Watch.Risky` lists, each with its run or its exact
  cost: a job fails; a gate passes over a write that kept the file's time, or a file its own batch also names
  as removed; the watcher is turned on over an older removal still queued, or over nodes no manifest entry
  stands for; or daemon startup starts it with no walk behind. Beside these the graph, not the manifest, is
  old where a file was written between its extraction and its stamp (`WatchExact.QuietPathIsExact`), and
  neither the write's own event nor a deep reconcile repairs that (`Pipeline.PassedOverLasts`).
- *Daemon startup walks first and starts the watchers after*: `WatchStart.StartedProjectIsExact` is what holds there.
- Time is an explicit clock; which I/O fails, the order of hash-table walks and all scheduling are arbitrary.

## Model

| member | source | states |
|---|---|---|
| StateCache.ProjectStateCache.Insert | src/crates/filigrio-daemon/src/cache.rs:232-257 | The whole entry, its manifest, flag and recency are replaced, the view dropped, and the cache evicted to capacity |
| StateCache.ProjectStateCache.Touch | src/crates/filigrio-daemon/src/cache.rs:262-267 | The search-remove-push loop moves the id last and keeps the rest in order |
| StateCache.ProjectStateCache.EvictToCapacity | src/crates/filigrio-daemon/src/cache.rs:273-294 | The nested loop drops exactly the victims of the recursive specification, dirty ones with their state |
| CacheSpec.InsertEvicts | src/crates/filigrio-daemon/src/cache.rs:232-294 | Under the invariant an insert evicts nothing or exactly the front of the recency order, never the id inserted |
| CacheSpec.InsertKeepsInv | src/crates/filigrio-daemon/src/cache.rs:232-294 | An insert keeps the cache's invariant: order against residents, flags, views, manifests, capacity |
| CacheSpec.TouchKeepsInv | src/crates/filigrio-daemon/src/cache.rs:262-267 | Recency keeps exactly one entry per resident id |
| Lru.OrderIsByLastUse | src/crates/filigrio-daemon/src/cache.rs:101-294 | In every run the recency order lists exactly the residents, once each, sorted by the time of last use |
| Lru.VictimIsLeastRecent | src/crates/filigrio-daemon/src/cache.rs:232-294 | An insert pages out at most one project, only when full, never the one inserted, and every other resident was used after it; it carries its state exactly when dirty |
| Lru.ManifestsStayHot | src/crates/filigrio-daemon/src/cache.rs:196-257 | After every run each id ever inserted keeps the manifest of its last inserted state, evicted or not |
| Lru.ResidentsFillTheCapacity | src/crates/filigrio-daemon/src/cache.rs:101-294 | In every run as many projects are resident as distinct ones were ever inserted, up to the capacity asked for, at least one; nothing is paged out while they fit |
| Lru.AllKeepInv | src/crates/filigrio-daemon/src/cache.rs:101-294 | Every run of cache operations keeps the cache's invariant |
| Flush.Flusher.StateOf | src/crates/filigrio-daemon/src/flush.rs:251-269 | Hit, failed load, page-in with write-back, and the vanished error, with the whole new store |
| Flush.Flusher.RecordApply | src/crates/filigrio-daemon/src/flush.rs:276-307 | Both lanes' whole effect on cache, windows, disk and counters, and the error answered |
| Flush.Flusher.FlushProject | src/crates/filigrio-daemon/src/flush.rs:314-321 | Persists a dirty project under its lock, which the caller must not hold; the lock is free again on every path |
| Flush.Flusher.FlushLocked | src/crates/filigrio-daemon/src/flush.rs:325-348 | Clean is a no-op; unknown directory, not resident and write failure each leave the state the code leaves |
| Flush.Flusher.Due | src/crates/filigrio-daemon/src/flush.rs:352-363 | Lists, once each, exactly the projects past the quiescence window or the dirty-age cap |
| Flush.Flusher.FlushDue | src/crates/filigrio-daemon/src/flush.rs:368-370 | Flushes exactly the due projects and answers the failures |
| Flush.Flusher.FlushAll | src/crates/filigrio-daemon/src/flush.rs:373-376 | Flushes exactly the dirty projects and answers the failures |
| Flush.Flusher.FlushEach | src/crates/filigrio-daemon/src/flush.rs:378-388 | Flushes a list in order, one lock at a time, collecting failures without stopping |
| Flush.Flusher.FlushEvicted | src/crates/filigrio-daemon/src/flush.rs:475-492 | Drops each victim's window first, writes the dirty ones, stops at the first failure |
| StoreSteps.AbsorbKeeps | src/crates/filigrio-daemon/src/flush.rs:288-305 | An insert with its write-backs keeps the cross-structure invariant even when the write-back fails, and errs exactly then |
| StoreSteps.AbsorbLatest | src/crates/filigrio-daemon/src/flush.rs:475-492 | Its exact effect on every other project's latest state: none, the victim's erasure, or the old checkpoint when the write-back fails |
| StoreOps.StateOfKeeps | src/crates/filigrio-daemon/src/flush.rs:251-269 | A read keeps the invariant and answers the resident object, an I/O error, or a new object holding the latest state |
| StoreOps.RecordKeeps | src/crates/filigrio-daemon/src/flush.rs:276-307 | A record keeps the invariant; it succeeds exactly when its state is taken up and no write-back is lost |
| StoreOps.RecordLatest | src/crates/filigrio-daemon/src/flush.rs:276-307 | A record that is taken up makes its state the project's latest; a failed client write leaves everybody's |
| StoreOps.FlushIs | src/crates/filigrio-daemon/src/flush.rs:314-348 | In a reachable store a dirty project is resident and registered, and a flush writes exactly it, in its own directory |
| StoreOps.FlushLatest | src/crates/filigrio-daemon/src/flush.rs:314-348 | No flush changes any project's latest state |
| StoreRuns.StepKeepsInv | src/crates/filigrio-daemon/src/flush.rs:251-492 | Every call keeps the invariant: the dirty records agree, dirty implies resident, residents have a directory, clean residents equal their checkpoint |
| StoreRuns.StepLatest | src/crates/filigrio-daemon/src/flush.rs:251-492 | One call's whole effect on one project's latest state |
| StoreRuns.RunKeepsInv | src/crates/filigrio-daemon/src/flush.rs:251-492 | Every reachable store keeps the invariant, whichever writes fail |
| StoreRuns.RunRefines | src/crates/filigrio-daemon/src/flush.rs:245-307 | The paged write-behind store refines one plain map from project to latest state, whatever the capacity and cadence |
| StoreRuns.ReadAnswersLatest | src/crates/filigrio-daemon/src/flush.rs:245-269 | After any run from start-up a read answers the last state taken up, or the initial checkpoint, and fails only by its own I/O |
| Facets.CheckpointRoundTrip | src/crates/filigrio-core/src/state.rs:335-368 | A checkpoint written and loaded has the six saved facets of the state and neither symbol table, and no other directory changes |
| Facets.ReadsByFacet | src/crates/filigrio-daemon/src/flush.rs:245-269 | After any such run a read answers the graph, partition, reverse index, manifest, workspace and exports of the last state taken up, and its two symbol tables or neither |
| Facets.ExportsByFacet | src/crates/filigrio-daemon/src/daemon.rs:1507-1520 | An export after it has those six facets and no symbol table |
| Facets.CrashByFacet | src/crates/filigrio-daemon/src/flush.rs:325-348 | After a crash of a clean project the next daemon answers those six facets in every run until it takes up an apply of its own |
| StoreRuns.FlushEachFailures | src/crates/filigrio-daemon/src/flush.rs:365-388 | A walk reports exactly the dirty listed projects whose write fails, none swallowed |
| StoreRuns.OnlyIoFails | src/crates/filigrio-daemon/src/flush.rs:268-346 | "Not resident", "unknown output directory" and "vanished after load" are unreachable answers |
| StoreLaws.LossIsExact | src/crates/filigrio-daemon/src/flush.rs:475-492 | A call that is no apply of a project leaves its persistable state alone if and only if it does not page it out dirty with the write failing, or the checkpoint already held it |
| StoreLaws.FailedWriteBackLoses | src/crates/filigrio-daemon/src/flush.rs:475-489 | A concrete run where an acknowledged apply is lost to a failed write-back |
| StoreLaws.CrashKeepsTheClean | src/crates/filigrio-daemon/src/flush.rs:325-348 | A crash costs a project its dirty window and nothing else |
| StoreLaws.NeverTorn | src/crates/filigrio-daemon/src/flush.rs:449-461 | Whichever writes fail, checkpoint and served state are always one whole state the project once had |
| Windows.LateInstallLosesIff | src/crates/filigrio-daemon/src/flush.rs:260-267 | A checkpoint loaded a while ago and installed now loses the project's state if and only if that is no longer what was loaded |
| Windows.NoApplyNoLoss | src/crates/filigrio-daemon/src/flush.rs:256-267 | Between a read's load and its install nothing is lost unless an apply of the project is taken up there |
| Windows.ApplyInWindow | src/crates/filigrio-daemon/src/flush.rs:256-307 | An apply taken up there is lost if and only if its state saves otherwise than the checkpoint did |
| StoreLaws.WritesBounded | src/crates/filigrio-daemon/src/flush.rs:276-348 | In every run store writes plus dirty projects never exceed the applies taken up |
| StoreLaws.DeferResident | src/crates/filigrio-daemon/src/flush.rs:292-304 | Deferring to a resident project writes nothing and only extends its window |
| StoreLaws.BurstWritesNothing | src/crates/filigrio-daemon/src/flush.rs:292-304 | However long a burst of deferred applies, nothing is written and the start of the window does not move |
| StoreLaws.BurstCostsOneWrite | src/crates/filigrio-daemon/src/flush.rs:309-348 | The flush after a burst is one write of the last state, and the next flush none |
| Staleness.FlushEachClears | src/crates/filigrio-daemon/src/flush.rs:368-388 | Flushing a list closes exactly the windows of the listed projects whose write succeeds |
| Staleness.StepWindows | src/crates/filigrio-daemon/src/flush.rs:292-303 | No call moves the start of an open window |
| Staleness.PollIsYoung | src/crates/filigrio-daemon/src/flush.rs:352-370 | After a poll that did its duty by a project the project is not due, whichever other writes failed |
| Staleness.BoundedStaleness | src/crates/filigrio-daemon/src/flush.rs:352-425 | With such a poll at most a period ago a project is dirty no longer than the cap plus the period, nor than quiescence plus the period after its last apply, whatever happens to the others |
| Cadence.WindowsAreTheRuns | src/crates/filigrio-daemon/src/flush.rs:276-348 | In every reachable store, whichever writes failed, a project is dirty if and only if a deferred apply of it has been neither saved nor paged out since, and its window runs from the first such apply to the last |
| Cadence.PollFlushesTheRipe | src/crates/filigrio-daemon/src/flush.rs:352-370 | A poll saves a project if and only if its last deferred apply is a quiescence window ago or its first unsaved one a cap ago, and the write succeeds; where there is no such project it does nothing |
| Cadence.UnsavedIsBounded | src/crates/filigrio-daemon/src/flush.rs:352-425 | The staleness bounds over the times of a run's own applies |
| Cadence.PolledBurstWritesNothing | src/crates/filigrio-daemon/src/flush.rs:292-370 | A burst with gaps below the quiescence window and shorter than the cap is never written, wherever polls fall in it, and nothing is if nothing else is unsaved |
| Views.GenuineStays | src/crates/filigrio-daemon/src/cache.rs:174-193 | The object a builder holds is never confused with a later one |
| Views.SourcedIsLegal | src/crates/filigrio-daemon/src/state_source.rs:156-169 | Publishing only what earlier reads answered is all the invariant asks |
| Views.ViewsAreCurrent | src/crates/filigrio-daemon/src/cache.rs:159-193 | In every interleaving a view handed out was built from exactly the object resident for the project then |
| Views.GoneStaysGone | src/crates/filigrio-daemon/src/cache.rs:232-257 | A state object once replaced or paged out is never resident for the project again |
| Views.InstallsIffNeverReplaced | src/crates/filigrio-daemon/src/cache.rs:170-193 | A view is installed if and only if the object it was built from has been resident ever since it was read |
| Source.ServeView | src/crates/filigrio-daemon/src/state_source.rs:131-169 | Hit, or read, build and publish; neither resident nor checkpointed answers that the project is not indexed |
| Source.QueriesSeeTheLatest | src/crates/filigrio-daemon/src/state_source.rs:122-169 | A query answers from the latest state, its view is then cached beside the object it describes, and "not indexed" is answered if and only if nothing is resident and there is no checkpoint |
| Locks.ProjectLocks.LockFor | src/crates/filigrio-daemon/src/locks.rs:39-45 | The id's lock, made on first use; nobody else's changes, and a lock not held stays not held |
| Locks.SameLockIffSameId | src/crates/filigrio-daemon/src/locks.rs:36-45 | However many locks are handed out in between, two calls answer the same mutex if and only if the id is the same |
| Applies.WithProjectApply | src/crates/filigrio-daemon/src/apply.rs:180-214 | Lock, prior, pipeline, record; the guard is dropped on every path, and no lock already held is taken |
| Applies.Recluster | src/crates/filigrio-daemon/src/apply.rs:251-270 | The recluster of one project is the apply whose update replaces the partition, on the producer lane |
| Applies.ExecApply | src/crates/filigrio-daemon/src/daemon.rs:1462-1473 | A client command is an apply and then a flush of the project, never taking a lock it holds |
| Applies.ExecExport | src/crates/filigrio-daemon/src/daemon.rs:1507-1520 | An export flushes under the lock it already holds, then copies the checkpoint |
| Applies.ApplyIsAtomicUpdate | src/crates/filigrio-daemon/src/apply.rs:180-214 | The update runs on the latest state; success leaves exactly its result and answers its change count, failure what was there |
| Applies.ApplyKeepsOthers | src/crates/filigrio-daemon/src/apply.rs:180-214 | An apply leaves every other project's latest state alone |
| Applies.SuccessIsPersisted | src/crates/filigrio-daemon/src/daemon.rs:1466-1473 | A client command that reports success left nothing of its project unpersisted, earlier deferred work included |
| Applies.CommandIsAllOrNothing | src/crates/filigrio-daemon/src/daemon.rs:1462-1473 | Success answers the update's change count and means its result is the checkpoint; failure that the project is as it was |
| Applies.ExportIsLatest | src/crates/filigrio-daemon/src/daemon.rs:1507-1520 | An export is the latest state, never the older checkpoint write-behind left; when it fails is exact |
| Applies.ReclusterOnlyPartition | src/crates/filigrio-daemon/src/apply.rs:244-270 | A recluster of the latest state replaces its partition and nothing else |
| Applies.UnchangedPartitionIsNoOp | src/crates/filigrio-daemon/src/apply.rs:260-262 | A partition that comes out unchanged records nothing |
| ApplyDebt.LostWriteBackHidesTheDebt | src/crates/filigrio-daemon/src/apply.rs:155-159 | A producer apply that is taken up leaves a debt if and only if it changed something and lost no write-back; a lost one hides the debt while the new state is served |
| Pipeline.ExactIffSettles | src/crates/filigrio-pipeline/src/lib.rs:152-317 | From any manifest, a job over a file that holds still leaves its nodes exact if and only if the gate let it through, or nothing was removed and they already were |
| Pipeline.PassedOverLasts | src/crates/filigrio-pipeline/src/dedup.rs:22-66 | What a shallow gate passes over stays so for every run of signals and shallow reconciles, and under the file's own hash for deep ones too |
| Pipeline.DeepRepairsTheUntorn | src/crates/filigrio-pipeline/src/reconcile.rs:37-130 | A deep reconcile repairs what is passed over if and only if the manifest has another hash than the file |
| Serial.MutualExclusion | src/crates/filigrio-daemon/src/apply.rs:180-189 | In every interleaving at most one thread is between lock and unlock of a project |
| Serial.NextKeeps | src/crates/filigrio-daemon/src/apply.rs:180-270 | Every move of every thread keeps the invariant that ties locks, priors, log and store |
| Serial.UpdatesSerialise | src/crates/filigrio-daemon/src/apply.rs:180-214 | Each project's updates are logged in lock order, each ran on exactly the previous one's result, and the store's latest state is the last result |
| Serial.FinalStateIsFold | src/crates/filigrio-daemon/src/apply.rs:251-270 | When updates ignore the unsaved facets, the final state is the fold of the update functions in lock order |
| Lifecycle.Daemon.StartupReconcile | src/crates/filigrio-daemon/src/daemon.rs:881-956 | Deep unless the marker reads back complete; the marker is consumed whatever it said; then each watched project is reconciled through the client lane at that depth, and from a store just started every project converges |
| Startup.ReconcileAllKeeps | src/crates/filigrio-daemon/src/daemon.rs:934-953 | Startup convergence keeps the store's invariant |
| Startup.PassConverges | src/crates/filigrio-daemon/src/daemon.rs:934-953 | Over any store, no write-back lost: each watched project whose reconcile succeeds has the update of its walk at this depth on what it had; every other project, and each failing one, has what it had; what was saved stays saved |
| Startup.StartConverges | src/crates/filigrio-daemon/src/daemon.rs:881-956 | At a daemon's start, each watched project whose load, walk and write succeed has that update of its checkpoint as latest state and as checkpoint, and every other one its old checkpoint |
| Lifecycle.Daemon.Shutdown | src/crates/filigrio-daemon/src/daemon.rs:1226-1265 | Flushes every dirty project, withholds the marker after any failure, and otherwise leaves nothing dirty and every checkpoint current before writing it |
| Lifecycle.ShutdownIsItsSteps | src/crates/filigrio-daemon/src/daemon.rs:1226-1265 | The method's effect is that of the write-by-write steps of a life, partial marker writes included |
| Lifetimes.LiveKeeps | src/crates/filigrio-daemon/src/daemon.rs:881-932 | Over any sequence of lifetimes, crashes anywhere and marker removals failing, a marker completed by the last serving daemon means every checkpoint is current |
| Lifetimes.ShallowIffMarked | src/crates/filigrio-daemon/src/daemon.rs:881-932 | A start is shallow if and only if the marker is readable and the last serving daemon completed it or failed to remove an older one; in the first case every checkpoint is the latest state |
| Lifetimes.ShallowIffPromised | src/crates/filigrio-daemon/src/daemon.rs:881-916 | While removals succeed, a start is shallow if and only if the last serving daemon completed its marker, and every checkpoint is then the latest state |
| Lifetimes.ShallowIsRightIff | src/crates/filigrio-daemon/src/daemon.rs:917-932 | For every run, a shallow start over a daemon's remains has every latest state if and only if that daemon completed its shutdown or everything it left dirty was already on disk |
| Lifetimes.FailedFlushWithholds | src/crates/filigrio-daemon/src/daemon.rs:1235-1254 | Once a flush of the shutdown pass fails, no complete marker exists until another daemon serves, whatever happens in between |
| Lifetimes.FailedRemovalIsUnsafe | src/crates/filigrio-daemon/src/daemon.rs:919-932 | A marker that cannot be removed, a deferred apply and a crash make the next start trust a stale checkpoint |
| Lifetimes.CrashBeforeConsumeIsShallowAgain | src/crates/filigrio-daemon/src/daemon.rs:910-932 | A crash between reading and removing the marker leaves it for the successor, which is rightly shallow |
| RunLoop.PriorityQueue.HasProject | src/crates/filigrio-daemon/src/priority.rs:59-65 | True exactly when some lane holds an item of the project |
| RunLoop.ApplyScheduler.Dispatch | src/crates/filigrio-daemon/src/scheduler.rs:87-115 | Each job in turn starts, or is deferred when the pool is full or its project runs |
| RunLoop.Daemon.Top | src/crates/filigrio-daemon/src/daemon.rs:309-338 | The backlog is dispatched, then each quiet owing project's debt becomes one Recluster job |
| RunLoop.Daemon.QuietOwing | src/crates/filigrio-daemon/src/daemon.rs:315-326 | Exactly the owing projects with nothing queued, running or deferred, each once |
| RunLoop.Daemon.MakeReclusters | src/crates/filigrio-daemon/src/daemon.rs:327-333 | One Recluster job for each registered one |
| RunLoop.Daemon.Collect | src/crates/filigrio-daemon/src/daemon.rs:968-983 | The queue is emptied in priority order into jobs behind the backlog, unregistered items skipped |
| RunLoop.Daemon.Complete | src/crates/filigrio-daemon/src/daemon.rs:389-399 | A completion frees its slot and leaves a debt exactly when it changed something and was no recluster |
| RunLoop.Daemon.Drain | src/crates/filigrio-daemon/src/scheduler.rs:135-147 | Every running job is waited for, in whatever order they finish, debts collected |
| RunLoop.Daemon.ForcedExit | src/crates/filigrio-daemon/src/daemon.rs:432-457 | Running jobs finish, then every project still owing is reclustered; the backlog is dropped |
| Watchers.WatcherSet.Start | src/crates/filigrio-daemon/src/watchers.rs:59-77 | Idempotent: a watched project keeps its producer and its buffered items; a failed bind changes nothing |
| Watchers.WatcherSet.StartAll | src/crates/filigrio-daemon/src/watchers.rs:92-98 | Every project that can be watched is, whichever others cannot |
| Watchers.WatcherSet.Drain | src/crates/filigrio-daemon/src/watchers.rs:118-127 | Every channel is emptied into one list, producer after producer |
| Watchers.Route | src/crates/filigrio-daemon/src/daemon.rs:1113-1121 | Everything drained is submitted on its producer's lane, in order |
| Watchers.DrainTick | src/crates/filigrio-daemon/src/daemon.rs:371-386 | A drain tick empties every channel and leaves the loop as if all of it had been submitted and collected at once |
| Watchers.DrainIsEachChannel | src/crates/filigrio-daemon/src/watchers.rs:118-127 | Of each project a drain holds exactly its channel, in order, once |
| Watchers.RoutingKeepsEachChannel | src/crates/filigrio-daemon/src/daemon.rs:1113-1121 | Routing appends to a project's queued items exactly its channel, on its producer's lane and no other |
| Delivery.DrainCarriesEachChannel | src/crates/filigrio-daemon/src/watchers.rs:118-127 | Of each project a drain has as many items as its channel, the k-th with its id, its producer's lane and the op of the k-th thing produced: a signal gated, a diff exact, a rescan at its depth |
| Delivery.RoutingCarriesEachChannel | src/crates/filigrio-daemon/src/daemon.rs:1113-1121 | Those items, one by one, are what routing puts behind a project's queued items on its producer's lane, the other lanes unchanged |
| Delivery.JobsPerformItems | src/crates/filigrio-daemon/src/daemon.rs:968-983 | Each registered project's items become its jobs one by one, op and lane unchanged; an unregistered one's become none |
| Delivery.TickDeliversEachChannel | src/crates/filigrio-daemon/src/daemon.rs:371-386 | End to end, a drain tick appends to the backlog exactly the jobs of each registered project's channel, in order |
| Watchers.DrainsAreProduced | src/crates/filigrio-daemon/src/apply.rs:72-78 | Nothing a producer says becomes a recluster |
| LoopOrder.DispatchKeeps | src/crates/filigrio-daemon/src/scheduler.rs:87-115 | At most `permits` jobs run, at most one per project |
| LoopOrder.DispatchConserves | src/crates/filigrio-daemon/src/scheduler.rs:87-115 | No job given to a dispatch is lost or doubled |
| LoopOrder.DispatchKeepsOrder | src/crates/filigrio-daemon/src/scheduler.rs:87-115 | What a dispatch starts of a project comes before what it defers of it |
| LoopHead.HeadFillsThePool | src/crates/filigrio-daemon/src/scheduler.rs:60-115 | After the head of any turn of any run a job is deferred only if as many run as the pool was made for, at least one, or one of its project runs; never more run |
| LoopOrder.DrainedIs | src/crates/filigrio-daemon/src/priority.rs:69-77 | Popping until empty yields the manual lane, then git, then fs, each first in first out |
| LoopOrder.LoopConserves | src/crates/filigrio-daemon/src/daemon.rs:306-430 | In every run of the loop every admitted job is deferred, running or finished exactly once, within the bounds |
| LoopOrder.StartsInSubmissionOrder | src/crates/filigrio-daemon/src/daemon.rs:306-430 | For each project and lane jobs start in submission order across all dispatch passes |
| LoopDebt.DebtIsExact | src/crates/filigrio-daemon/src/daemon.rs:299-399 | After any run, whatever fails, a project's last change-making apply is newer than its last completed recluster if and only if it is owing, or its Recluster job is deferred or running, or its recluster errored with no such apply since; never two of these |
| LoopDebt.DebtNeverForgotten | src/crates/filigrio-daemon/src/daemon.rs:299-338 | While no recluster of the project errors, it needs one if and only if it is owing or its Recluster job is deferred or running |
| LoopDebt.CompletionForgetsExactly | src/crates/filigrio-daemon/src/daemon.rs:389-399 | A completion takes a debt off every record if and only if it is the project's own recluster erroring |
| LoopDebt.ReclustersAlternate | src/crates/filigrio-daemon/src/daemon.rs:299-338 | Between two Recluster jobs of a project a change-making apply completed |
| LoopHead.ReclustersAfterTheBurst | src/crates/filigrio-daemon/src/daemon.rs:299-338 | In every run a loop head makes a Recluster job of a project, and just one, if and only if it owes one and every job ever admitted for it has finished; until then the debt stays |
| LoopHead.ReclusterMadeIff | src/crates/filigrio-daemon/src/daemon.rs:315-333 | Over any queue, only a registered owing project with nothing queued, running or deferred is reclustered |
| LoopHead.ExitsIffDone | src/crates/filigrio-daemon/src/daemon.rs:347-363 | In every run the loop exits for idleness if and only if the timeout passed, every job ever admitted has finished and nothing is owed |
| LoopExit.IdleExitIsSettled | src/crates/filigrio-daemon/src/daemon.rs:347-363 | An idle exit leaves every admitted job finished, and needs only where a recluster errored with no change-making apply since |
| LoopExit.ForcedExitIsExact | src/crates/filigrio-daemon/src/daemon.rs:432-457 | A forced exit leaves a project in need of a recluster if and only if its Recluster job was in the dropped backlog or its recluster errored, before the exit or at it |
| LoopExit.FailedReclusterForgets | src/crates/filigrio-daemon/src/daemon.rs:389-399 | A run of three turns, an apply arriving, changing a file, and its recluster erroring, ends with a need nothing will meet |
| LoopProgress.DispatchProgress | src/crates/filigrio-daemon/src/scheduler.rs:87-115 | After a dispatch nothing is deferred or something is running |
| LoopProgress.BacklogDrainsExactly | src/crates/filigrio-daemon/src/scheduler.rs:60-148 | A backlog drains after exactly as many completions as it has jobs, whichever job finishes each time |
| LoopProgress.LoopSettles | src/crates/filigrio-daemon/src/daemon.rs:309-338 | With no arrivals only so many completions are possible, debts included, and when nothing is left running nothing is left at all |
| Watchers.LoopTurn | src/crates/filigrio-daemon/src/daemon.rs:306-430 | One turn in place, head, idle exit and branch, is a turn of the specification with the debts walked in some order |
| Watchers.PlanWatch | src/crates/filigrio-daemon/src/daemon.rs:694-747 | On, the watcher is started before a converge is asked for, once; off, it and its buffer are dropped |
| Watch.NoLostEdit | src/crates/filigrio-daemon/src/daemon.rs:694-729 | Whatever is created, written or removed, in every interleaving of the separate looks of its jobs, each path of a watched project is recorded as it is, or a job has yet to look at it, or an event or a walk is on its way for it, unless one of the listed risky steps was taken for it |
| Watch.GateErrCosts | src/crates/filigrio-pipeline/src/lib.rs:281-317 | A gate that passes over a file of an old time, or one its batch also names as removed, uncovers it if and only if nothing more is on its way |
| Watch.FailureCosts | src/crates/filigrio-daemon/src/apply.rs:180-214 | A failing job uncovers exactly the paths recorded otherwise than they are that nothing is coming for |
| Watch.FreshTimesNeverLie | src/crates/filigrio-pipeline/src/dedup.rs:46-66 | While every write moves the file's time, no gate takes an old time for the file, its two stamps split by writes included |
| WatchExact.QuietPathIsExact | src/crates/filigrio-pipeline/src/lib.rs:152-189 | A quiet watched path is in the manifest as it is, and in the graph if and only if the job that last recorded it extracted the content it stamped |
| WatchExact.QuietIsExact | src/crates/filigrio-daemon/src/daemon.rs:694-729 | The graph of a quiet watched project is of exactly its tree if and only if no path is torn so |
| WatchExact.TornNowIffTornIn | src/crates/filigrio-pipeline/src/lib.rs:152-177 | After any run whatever a path is torn if and only if the job that last recorded it tore it |
| WatchExact.IdleIsSafe | src/crates/filigrio-daemon/src/daemon.rs:712-729 | `watch on` from an idle project is safe for every path but nodes no manifest entry and no file stand for |
| WatchExact.TornRunLosesAnEdit | src/crates/filigrio-pipeline/src/lib.rs:153-177 | A write between extraction and stamping, its own event delivered and gated away: quiet, watched, and the graph old under the new hash |
| WatchExact.KeptTimeLosesAnEdit | src/crates/filigrio-pipeline/src/dedup.rs:44-54 | A write that keeps the file's time is passed over by the shallow gate |
| WatchExact.RestoredIsDropped | src/crates/filigrio-pipeline/src/lib.rs:291-317 | A file removed and restored within one batch passes the gate as unchanged and is taken by its own removal |
| WatchExact.StaleRemovalLosesAFile | src/crates/filigrio-daemon/src/daemon.rs:734-747 | A removal queued across `watch off`, a new write and `watch on` takes the file after the converge indexed it |
| WatchStart.StartupCoversExactly | src/crates/filigrio-daemon/src/daemon.rs:484-497 | At daemon start, walk first and watcher after, the walk deep or shallow, failed or not, a path is covered if and only if it is now as the walk left it, and torn if and only if the walk tore it |
| WatchStart.NewsDecides | src/crates/filigrio-daemon/src/daemon.rs:694-747 | A path left uncovered stays so until it is edited again or a walk is asked for that finds it, and is covered from then on while watched |
| WatchStart.StartedProjectIsExact | src/crates/filigrio-daemon/src/daemon.rs:484-497 | Over the whole watched life of a project a daemon starts with, whenever it is quiet, a path is recorded right if and only if the startup walk had it right or news of it came since, and then in the graph unless torn |
| WatchStart.StartupLosesAnEdit | src/crates/filigrio-daemon/src/daemon.rs:491-493 | The start-up order loses an edit made between the walk's look and the watcher's start |
| Workspace.ProjectOf | src/crates/filigrio-core/src/state.rs:177-190 | The ancestor probe answers exactly what the containment scan does, in at most one lookup per slash and two more |
| Workspace.RootOf | src/crates/filigrio-core/src/state.rs:193-195 | The longest root containing the path, or none when none does |
| Workspace.ScanIsUnique | src/crates/filigrio-core/src/state.rs:558-563 | The scan has one answer |
| Ari.OneIffSamePartition | tools/oracle_diff/compare.py:175-191 | The index is at most 1, and 1 if and only if the two lists are the same partition, degenerate branches included |
| Ari.Symmetric | tools/oracle_diff/compare.py:175-191 | Swapping the lists changes nothing |
| Ari.RelabellingIsInvisible | tools/oracle_diff/compare.py:175-191 | Injective relabelling of either side changes nothing |
| Ari.OnlyPartitionsMatter | tools/oracle_diff/compare.py:175-191 | The index depends only on the two partitions |
| Ari.TrivialPartitionScoresZero | tools/oracle_diff/compare.py:175-191 | An all-in-one or all-apart list scores 0 against any different one |
| Ari.CountersCountPairs | tools/oracle_diff/compare.py:181-185 | What a counter's values add up to is the number of pairs of equally labelled items |
| Ari.AriIsTextbook | tools/oracle_diff/compare.py:175-191 | The index is the textbook one: from the pairs both lists put together, only one does, or neither, twice the product of the agreements less that of the disagreements over their spread, and 1 where that is nothing |
| Spans.ParseOfRender | src/crates/filigrio-core/src/model.rs:54-76 | What parsing a rendered span gives back, for every pair of 32-bit numbers |
| Spans.RoundTripIffOrdered | src/crates/filigrio-core/src/model.rs:54-76 | Parsing inverts rendering if and only if the end is not before the start |
| Spans.ParseDecimal | src/crates/filigrio-core/src/model.rs:68-73 | Every 32-bit number reads back from its decimal form |
| Spans.RenderIsInjective | src/crates/filigrio-core/src/model.rs:54-60 | Distinct ordered spans print differently |
| Spans.DashIffLines | src/crates/filigrio-core/src/model.rs:54-60 | A dash is printed if and only if the span has more than one line |
| Spans.ParseU32Iff | src/crates/filigrio-core/src/model.rs:68-73 | A number parses if and only if it is digits, perhaps behind a plus, worth at most 32 bits, and to what they are worth |
| Spans.ParseIffWritten | src/crates/filigrio-core/src/model.rs:63-76 | Any string parses to a span if and only if it is an L and a numeral for both ends, or two numerals with "-L" between |
| Budget.BudgetCut | src/crates/filigrio-client-mcp/src/format.rs:68-100 | Within three bytes a token unchanged; otherwise the kept prefix ends on a character boundary, at the window's last line break past its start if any, and dropped plus shown node lines are all of them |
| Budget.PrefixShowsNoMore | src/crates/filigrio-client-mcp/src/format.rs:79-84 | A cut text never shows more node lines than the whole, so the subtraction never saturates |
| Budget.NodeLinesAreStarts | src/crates/filigrio-client-mcp/src/format.rs:79-84 | Node lines are counted one for each place where a line starts with the tag |

## Left out

- Serial.UpdatesSerialise: threads, locks and interleavings are a value-level state machine over the flusher's atomic calls; the in-place methods of Applies are its steps run without interruption.
- Lifetimes.ShallowIffPromised: crashes and the write-by-write shutdown are a value-level state machine, because an in-place method cannot stop half way; Lifecycle.ShutdownIsItsSteps ties the two.
- Watch.NoLostEdit: a value-level state machine of one project over indexable paths; scope by ignore files, workspace manifests and the shrink guard are not modelled, and a hash tells contents apart.
- Views.ViewsAreCurrent: the index built over a state is known only by the state object it was built from.
- StoreRuns.RunRefines: requires that no eviction write-back fails and each call is atomic, for the reasons under the assumptions.
- Staleness.BoundedStaleness: the polls are the steps of a run; that the driver's thread keeps polling for the project is an assumption on the run.
- LoopDebt.DebtIsExact: for a fixed registry.
- Ari.OneIffSamePartition: exact reals; floating-point rounding is not modelled, and neither is NMI, which needs logarithms.
- Budget.BudgetCut: the text of the truncation marker is its two numbers; bytes stand for UTF-8 text, whatever they are.
- Extraction, resolution, the clustering algorithm, the graph index and the store's file format: to the store an apply is an arbitrary function of the prior state.
- Sockets, framing, the handshake and its lock file, process spawning, signals, one-shot mode, real time and threads.
- Project removal, re-registration of an id with another root, and path lookup in the registry.
- Telemetry (pool statistics, health, the age of windows) and logging.
- Command-line parsing, tool schemas, text rendering of replies and installers: plumbing.
