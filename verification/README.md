# PatchBay: coordination, backup and dispatch

This project models the parts of PatchBay on which several local processes depend at once, and proves what
they promise each other:

- **Repository mutation locks** (`FileLocks`, `RepoLockProtocol`, `RepoLockRuns`, `RepoLockProgress`,
  `RepoLockHandoff`, `RepoLockCalls`, `RepoLockManager`, `CleanupBook`, `CleanupDictionaries`). Advisory locks are
  open-file descriptions with a set of descriptors and a mode. Managers, waiter threads and supervisors interleave at
  every system call, and any process may die at any point. Beside the protocol stand the manager and its leases as
  objects, call by call, and the cleanup dictionaries they keep; whole calls are runs of the protocol with the lock
  files that the methods promise.
- **The admission gate** (`AdmissionProtocol`, `AdmissionInvariant`, `AdmissionCalls`, `AdmissionRuns`,
  `AdmissionDrain`, `AdmissionProgress`, `AdmissionThaw`, `AdmissionLeases`, `AdmissionController`). Threads of many
  processes enter and leave short mutation sections while one process may freeze them all. Any number of threads of a
  process may be inside `wait_for_drain` and `release` at once, for the same lease or for different ones, and every
  access of theirs to a field of the controller is a step of its own.
- **State proofs** (`ByteStrings`, `Decimal`, `Utf8`, `Ordering`, `Utf8Order`, `StableHash`, `StableHashParser`,
  `StableHashMeaning`, `StableHasher`, `StableHashFormat`, `TableProof`, `DurableState`, `OutboxUpgrade`). The byte
  stream under the hashes, what a table proof and a complete state proof identify, and what the check of an upgraded Edge outbox
  establishes.
- **Backup bundles** (`BackupBundle`, `BackupPublication`, `BackupCreator`, `BackupRestore`, `MigrationGate`).
  Validation, publication of two files by racing and crashing calls, restore, and the marker that opens the way
  to a migration.
- **Dispatch and paging** (`Dispatch`, `DispatchRace`, `DispatchPort`, `WorkerPaging`, `PollCache`). Operations handed
  to the Edge by coroutines of one event loop and by racing processes, and pages of the worker list.
- **Preview tokens** (`Base64Url`, `PreviewTokens`).

`Wrappers`, `Sequences` and `NumberSets` hold what several of these use.

A protocol is a state machine: `Can`/`Do` give one step of one process, an invariant is kept by every step, and
runs are sequences of steps. Code that updates objects in place is a class whose methods are proved against a
specification function (or against the protocol's steps), and the promises are lemmas about that function. Where a
name ends in `Means`, the lemma says in other terms what that function computes.

## What the code does not do

Some promises do not hold as they are worded. The model keeps the code as it is, shows the failure, and
proves the condition under which the promise holds.

- *Crash hand-off.* It is not enough that the restarted instance calls `block_job_cleanup` before the supervisor
  exits: until that call holds the turnstile another process can take the main lock
  (`RepoLockProgress.HandoffNeedsTurnstile` is one such run). In every reachable state in which the lease of a dead
  manager is left to its supervisor, the hand-off holds if and only if some barrier is up
  (`RepoLockHandoff.HandoffNeedsBarrier`): then no continuation gives the lock to another writer
  (`RepoLockRuns.CrashHandoff`), and without one some continuation always does (`UnbarredHandoffIsLost`).
- *Cleanup bookkeeping.* It stays consistent exactly when the call does not have to open a lock file that fails to
  open (`CleanupBook.BlockKeeps`); `OpenErrorPoisons` says what such a failure leaves behind.
- *A drained gate is empty.* A release that overlaps a `wait_for_drain` between its lock and its flag leaves the flag
  up (`AdmissionDrain.OverlapLeavesFlagUp`), and the drain of the next freeze then returns True without the lock. For
  a controller at rest, drains tell the truth if and only if the flag is down, or a marker left behind keeps it from
  ever freezing again (`TruthfulIffFlagDown`). Calls that begin in turn keep the flag truthful (`OrderlyCallsDrain`).
- *No permanent freeze.* A release that overlaps another one of its lease can run over the next freeze and strand its
  marker (`AdmissionThaw.OverlapStrands`), and so does a freeze whose active file fails after the marker was published
  (`FailedFreezeStrands`). The marker of a live owner can go if and only if the controller keeps it, or is about to,
  or a release has read it (`ThawsIffKept`); every other marker blocks for as long as its owner lives
  (`StrandedBlocksForEver`).
- *At most one process holds a lease, and a lease keeps every section shut.* A release of an earlier lease that was
  overtaken before it read the kept marker takes away the marker of the present freeze. Then another process is handed
  a lease (`AdmissionLeases.TwoProcessesHoldLeases`) or opens a section (`SectionOpensUnderALease`) while the lease is
  out and nobody releases it. For every lease that is out both promises hold, over every continuation short of a
  release by its process, if and only if its marker is published and no release under way can take it away
  (`ExcludesIffShielded`); with no release under way that is, if and only if its marker is published
  (`ExcludesIffPublished`). Calls that begin in turn keep it so (`AdmissionDrain.OrderlyLeases`).
- *A release removes only its own marker.* A release under way can come to take away the published marker, whosever
  freeze it is, if and only if it has still to read the marker that is kept and will find this one, or has read it,
  and no other release is ahead of it (`AdmissionLeases.TakesIffThreatens`); that marker is of its own lease or of a later one
  (`TakesOwnOrLater`). Calls that begin in turn remove their own (`AdmissionDrain.OrderlyReleases`).
- *The migration gate.* A marker file that holds the empty JSON object is falsy in Python, so that none of its
  checks is made (`MigrationGate.EmptyMarkerOpensTheGate`); with every other marker the gate is sound
  (`ValidatedMeansBacked`). An empty manifest is passed over in the same way (`BackupBundle.EmptyManifestPasses`).
- *One state, one proof.* A table whose different rows share the types and quoted forms of their cells has more than
  one proof (`TableProof.OneProof`, if and only if). Equal proofs mean equal rows all the same
  (`TableProof.ProofIsOfRows`, `DurableState.EqualHashesMeanSame`).
- *One delivery.* Several dispatching processes may deliver one operation twice, or one that was cancelled
  (`DispatchRace.TwoProcessesDeliverTwice`, `CancelledIsDelivered`); a process delivers what it has set running itself
  exactly if nobody moved the operation between its reading and its setting (`DispatchRace.RacingDelivery`).

A fault behind the link of a manifest is reported as a reuse (`BackupPublication.FaultIsReportedAsReuse`).

## Assumptions

- `fcntl` is available. Opening lock files and creating temporary files succeeds unless a property is about the
  failure. Process identities are non-empty and exact and are not used twice.
- The protocol of the repository locks is that of one repository, with one manager a process. A supervisor owns
  nothing but the descriptor it inherited.
- SHA-256 is an injective function of byte strings where a lemma says so; checksums of JSON objects, HMAC,
  `casefold`, SQLite's `quote` and what SQLite reads in a file are function parameters.
- A file of a backup bundle is a byte string or does not exist; a published file is never removed by anybody else.
- Clocks are real numbers that do not run backwards. A timeout is a call that returns without success.
- A coroutine's stretch between two awaits is one step; processes interleave at every call of the broker. The broker
  is a register with a revision per operation, and its transitions are those of `src/patchbay/hub/operations.py:12-23`.

## Model

| member | source | states |
|---|---|---|
| `FileLocks.OpenSound` | src/patchbay/repo_locks.py:398-406 | a file opened with a lock that is grantable leaves no two conflicting locks on one file |
| `FileLocks.LockSound` | src/patchbay/repo_locks.py:112-120 | a grantable lock on an open description conflicts with nobody |
| `FileLocks.CloseSound` | src/patchbay/repo_locks.py:61-66 | unlocking and closing, in either combination, keep the lock table free of conflicts |
| `FileLocks.CrashSound` | src/patchbay/repo_locks.py:160-168 | the death of a process, which closes only its own descriptors, keeps the lock table free of conflicts |
| `FileLocks.LockSurvivesCrash` | src/patchbay/repo_locks.py:160-168 | a lock outlives a process exactly if some other process has a descriptor for the same description |
| `RepoLockProtocol.WriterStepKeeps` | src/patchbay/repo_locks.py:92-140 | every step of acquire, release and lease duplication keeps the process invariant: which descriptions it holds, in which mode |
| `RepoLockProtocol.BlockerStepKeeps` | src/patchbay/repo_locks.py:183-288 | every step of block_job_cleanup keeps it: the turnstile is held shared from the moment it is granted |
| `RepoLockProtocol.WaiterStepKeeps` | src/patchbay/repo_locks.py:331-372 | every step of a waiter thread, of release_job and of shutdown keeps it: an unstopped waiter holds the turnstile or the main lock |
| `RepoLockProtocol.OthersKeep` | src/patchbay/repo_locks.py:398-406 | a process keeps its invariant under any step that leaves its open descriptions alone |
| `RepoLockRuns.StepKeepsInv` | src/patchbay/repo_locks.py:71-396 | booting, every step of any manager, handing a descriptor to a supervisor and the death of any process keep the global invariant |
| `RepoLockRuns.RunKeepsInv` | src/patchbay/repo_locks.py:71-396 | the invariant holds in every reachable state |
| `RepoLockRuns.BarrierBars` | src/patchbay/repo_locks.py:216-236 | a standing barrier holds the turnstile shared or the main lock exclusively |
| `RepoLockRuns.NoWriterPasses` | src/patchbay/repo_locks.py:104-122 | while a barrier stands, no step of any process makes a writer owner of the main lock |
| `RepoLockRuns.BarrierStays` | src/patchbay/repo_locks.py:290-329 | only the release of the job, shutdown, a failed thread start or the death of its process takes a barrier down |
| `RepoLockRuns.NoWriterPassesBarrier` | src/patchbay/repo_locks.py:183-288 | over whole runs: from the barrier going up to the step that lifts it, every writer that owns the main lock owned it before |
| `RepoLockRuns.OnlyOwner` | src/patchbay/repo_locks.py:118-122 | in every reachable state at most one description, of a writer or of a cleanup waiter, owns the main lock |
| `RepoLockRuns.LeaseOverRun` | src/patchbay/repo_locks.py:57-68 | a lease stays with its process until release or death, whatever others do |
| `RepoLockRuns.InheritedOverRun` | src/patchbay/repo_locks.py:160-181 | a lease inherited by a supervisor stays locked until the explicit unlock or the supervisor's death, whether or not the manager lives |
| `RepoLockRuns.CrashHandoff` | src/patchbay/repo_locks.py:160-288 | from the acquire, over the death of the manager, to the lifting of a barrier that was up before the supervisor exited, no other writer ever owns the main lock |
| `RepoLockProgress.TurnstileOwner` | src/patchbay/repo_locks.py:104-140 | who holds the turnstile exclusively is a writer between its two locks |
| `RepoLockProgress.TurnstileIsFreed` | src/patchbay/repo_locks.py:104-140 | a blocked turnstile is at most two steps of its owner away from being free, and neither needs a guard |
| `RepoLockProgress.GuardIsFreed` | src/patchbay/repo_locks.py:202-288 | whoever holds the cleanup guard leaves it after at most five enabled steps, none of which takes a guard |
| `RepoLockProgress.StoppedWaiterEnds` | src/patchbay/repo_locks.py:331-372 | a stopped waiter ends by at most five steps of its own once nobody else owns the main lock |
| `RepoLockProgress.OnlyLocksBar` | src/patchbay/repo_locks.py:92-140 | in every reachable state with both locks free a new process owns the main lock after four steps |
| `RepoLockProgress.HandoffNeedsTurnstile` | src/patchbay/repo_locks.py:202-225 | a run in which block_job_cleanup was called before the supervisor exited and another process still takes the main lock |
| `RepoLockHandoff.RunKeepsTidy` | src/patchbay/repo_locks.py:183-372 | in every state that a run from the beginning reaches, a shared turnstile belongs to a call in progress or to a waiter that still needs it, and every waiter but the recorded one has been told to stop |
| `RepoLockHandoff.TurnstileClears` | src/patchbay/repo_locks.py:331-372 | with no barrier up and the main lock free, the waiters on their way out go through one after the other and leave the turnstile free |
| `RepoLockHandoff.UnbarredHandoffIsLost` | src/patchbay/repo_locks.py:92-140 | in every reachable state with the lease left to the supervisor and no barrier up, the supervisor's exit can be followed by another writer that owns the main lock, without any step that lifts a barrier or ends a process |
| `RepoLockHandoff.HandoffNeedsBarrier` | src/patchbay/repo_locks.py:160-288 | the hand-off holds, over every continuation, if and only if some barrier is up when the supervisor exits |
| `RepoLockCalls.AcquireRun` | src/patchbay/repo_locks.py:92-140 | an acquire that meets no lock is a run of the protocol to a lease: one new description holds the main lock, the turnstile is closed again |
| `RepoLockCalls.RefusedAtTurnRun` | src/patchbay/repo_locks.py:104-116 | with any lock on the turnstile, shared ones included, an acquire ends where it began |
| `RepoLockCalls.RefusedAtMainRun` | src/patchbay/repo_locks.py:117-140 | with a lock on the main file it leaves nothing but a closed turnstile file |
| `RepoLockCalls.ReleaseRun` | src/patchbay/repo_locks.py:57-68 | a release unlocks the description for all its descriptors and closes its own |
| `RepoLockCalls.BlockRun` | src/patchbay/repo_locks.py:208-288 | a block_job_cleanup that starts a waiter is a run of the protocol to the lock files that `BlockJobCleanup` promises, with the job behind the barrier |
| `RepoLockCalls.FailedStartRun` | src/patchbay/repo_locks.py:261-283 | one whose thread does not start leaves no lock and no job |
| `RepoLockCalls.JoinRun` | src/patchbay/repo_locks.py:208-214 | one for a repository with a waiter joins its barrier and touches no lock file |
| `RepoLockCalls.ReleaseJobLifts` | src/patchbay/repo_locks.py:290-329 | the last job to leave takes the barrier down and tells its waiter to stop, any other leaves it standing; a shutdown takes it down at once |
| `RepoLockCalls.StoppedWaiterRun` | src/patchbay/repo_locks.py:331-372 | a stopped waiter that has or can have the main lock unlocks and closes both files and ends; every other description is as it was |
| `RepoLockManager.RepoMutationLease.Release` | src/patchbay/repo_locks.py:57-68 | unlocks the main lock of the lease, whoever else has a descriptor for it, closes its handle and frees the in-process lock, and touches no other description; a second call changes nothing at all |
| `RepoLockManager.RepoMutationLockManager.LockForWriting` | src/patchbay/repo_locks.py:104-140 | the lock files after an acquire, description by description: either one new one that holds the main lock, or nothing new that is open or locked, with the exact conditions of each outcome |
| `RepoLockManager.RepoMutationLockManager.Acquire` | src/patchbay/repo_locks.py:92-140 | succeeds exactly if no barrier and no holder in this process and no description with any lock on either file stands in the way, and both files open; then one new description holds the main lock, and otherwise no lock has changed; the in-process lock is held exactly for one unreleased lease |
| `RepoLockManager.RepoMutationLockManager.ReleaseLease` | src/patchbay/repo_locks.py:57-68 | releasing a lease of the manager unlocks and closes its description only and keeps the account of in-process locks; releasing it again does nothing |
| `RepoLockManager.RepoMutationLockManager.BindToJob` | src/patchbay/repo_locks.py:150-152 | binding changes the binding of that job only |
| `RepoLockManager.RepoMutationLockManager.BoundJobIds` | src/patchbay/repo_locks.py:154-158 | a job is reported exactly if it has a lease or a barrier in this process |
| `RepoLockManager.RepoMutationLockManager.DuplicateJobLockFd` | src/patchbay/repo_locks.py:160-181 | a descriptor is handed out exactly for a bound, unreleased lease; it is one more name of that description, and no lock changes |
| `RepoLockManager.RepoMutationLockManager.BlockJobCleanup` | src/patchbay/repo_locks.py:183-288 | comes to the specified change of the dictionaries; a started barrier adds two descriptions, one that holds the turnstile shared and one that holds the main lock exactly if nobody held it, and every old one is as it was; in every other case, failures included, nothing new is open or locked |
| `RepoLockManager.RepoMutationLockManager.ReleaseJob` | src/patchbay/repo_locks.py:290-306 | the job has neither lease nor barrier afterwards, its lease is released, all accounts are kept |
| `CleanupBook.UnblockKeeps` | src/patchbay/repo_locks.py:308-329 | releasing a job keeps the dictionaries consistent and removes just that job |
| `CleanupBook.UnblockStops` | src/patchbay/repo_locks.py:314-329 | a waiter is told to stop exactly when the last job behind its barrier leaves |
| `CleanupBook.DismissUndoes` | src/patchbay/repo_locks.py:261-283 | a failed thread start leaves the dictionaries as they were |
| `CleanupBook.BlockKeeps` | src/patchbay/repo_locks.py:198-288 | block_job_cleanup keeps the dictionaries consistent if and only if it does not run into an open error, which it does exactly if the job has no lease and no barrier here, the repository has no waiter and one of the two files does not open; the job's barrier changes as its outcome says |
| `CleanupBook.BlockOutcomes` | src/patchbay/repo_locks.py:198-288 | the exact condition of every outcome; only a started waiter is new, and exactly those whose barrier is gone have been told to stop |
| `CleanupBook.BlockedMeansBehind` | src/patchbay/repo_locks.py:203-215 | a call that starts, joins or finds a barrier leaves the job behind it |
| `CleanupBook.OpenErrorPoisons` | src/patchbay/repo_locks.py:203-229 | after such a failure the same call hits a missing key, a barrier without a waiter stays, and releasing the job repairs both |
| `CleanupBook.CallsKeep` | src/patchbay/repo_locks.py:183-396 | for every sequence of blocks, releases, failed starts, thread ends and shutdowns in which no call has to open a file that does not open: a job maps to a repository exactly if it is in that repository's non-empty set, all dictionaries have the same keys, and every barrier has a live waiter of its own |
| `CleanupBook.StopAllKeeps` | src/patchbay/repo_locks.py:374-396 | shutdown empties every dictionary and tells every waiter, and nobody else, to stop |
| `CleanupDictionaries.CleanupSide.ReleaseCleanupBlockLocked` | src/patchbay/repo_locks.py:308-329 | the updates of the dictionaries come to the specified release, and all six keep the same keys |
| `CleanupDictionaries.CleanupSide.BlockUnleased` | src/patchbay/repo_locks.py:202-283 | the updates come to the specified block, outcome by outcome |
| `CleanupDictionaries.CleanupSide.EquipWaiter` | src/patchbay/repo_locks.py:238-260 | a new waiter enters all six dictionaries and the thread set at once |
| `CleanupDictionaries.CleanupSide.DismissWaiter` | src/patchbay/repo_locks.py:263-283 | the cleanup after a failed thread start comes to its specification |
| `CleanupDictionaries.CleanupSide.Shutdown` | src/patchbay/repo_locks.py:374-389 | the loop over the barriers comes to the specified shutdown: every dictionary is empty and exactly the stop events of the waiters have been set |
| `AdmissionInvariant.AdmissionKeeps` | src/patchbay/hub/backup_v2.py:269-286 | every step of an admission keeps the process invariant |
| `AdmissionInvariant.AdmissionCounts` | src/patchbay/hub/backup_v2.py:275-286 | the counter equals the number of threads that are counted in, at every step |
| `AdmissionInvariant.FreezeKeeps` | src/patchbay/hub/backup_v2.py:288-310 | every step of a freeze keeps the process invariant: whose intent lock it is, which marker is published, which file is open |
| `AdmissionInvariant.DrainKeeps` | src/patchbay/hub/backup_v2.py:324-357 | every step of every thread in wait_for_drain keeps it |
| `AdmissionInvariant.ReleaseKeeps` | src/patchbay/hub/backup_v2.py:359-377 | every step of every thread in release keeps it, whatever other releases are under way |
| `AdmissionInvariant.PublishedOrSpent` | src/patchbay/hub/backup_v2.py:359-369 | the marker that is kept is published unless some release has dealt with it and not yet cleared the field |
| `AdmissionInvariant.OpenIsReachable` | src/patchbay/hub/backup_v2.py:366-371 | an active file that is open is the one that is kept, or in the hands of a release that will close it |
| `AdmissionInvariant.StepTolerated` | src/patchbay/hub/backup_v2.py:340-448 | no step of a process touches another live process's locks or marker |
| `AdmissionInvariant.StepLockOk` | src/patchbay/hub/backup_v2.py:340-426 | the active lock is never held shared and exclusively at once |
| `AdmissionCalls.FreezeRun` | src/patchbay/hub/backup_v2.py:288-310 | a whole freeze_admissions, for every way the opening of its file ends, is a run of the protocol |
| `AdmissionCalls.DrainRun` | src/patchbay/hub/backup_v2.py:332-349 | so is a wait_for_drain that gets the lock |
| `AdmissionCalls.ReleaseRun` | src/patchbay/hub/backup_v2.py:359-377 | so is a whole release, of the active lease or of a stale one |
| `AdmissionRuns.StepKeepsInv` | src/patchbay/hub/backup_v2.py:235-480 | boots, steps of any process and deaths keep the global invariant |
| `AdmissionRuns.RunKeepsInv` | src/patchbay/hub/backup_v2.py:235-480 | the invariant holds in every reachable state |
| `AdmissionRuns.MarkerBlocks` | src/patchbay/hub/backup_v2.py:414-426 | where a marker is published no step of any process opens a section |
| `AdmissionRuns.MarkerOfTheLiving` | src/patchbay/hub/backup_v2.py:359-377 | the marker of a live process is removed by nothing but a release of that process that has read it, and nothing replaces it |
| `AdmissionRuns.FreezeOverRun` | src/patchbay/hub/backup_v2.py:288-310 | from a state in which a marker is published and no release under way can take it away, until its process begins to release a lease or dies, it stays so and the set of open sections, over all processes, never grows |
| `AdmissionRuns.MarkerBlocksLeases` | src/patchbay/hub/backup_v2.py:437-448 | where the marker of a live process is published no step hands anybody a lease, but for the end of that very freeze |
| `AdmissionDrain.DrainHolds` | src/patchbay/hub/backup_v2.py:324-357 | from a state with no release under way and a flag that is up only together with the lock, until a release begins or the owner dies: once the flag is up it stays up, and while it is up nobody is inside a section, in any process |
| `AdmissionDrain.OrderlyCallsDrain` | src/patchbay/hub/backup_v2.py:324-377 | in every run in which the calls of a process begin in turn, its flag tells the truth whenever no release is under way |
| `AdmissionDrain.OrderlyLeases` | src/patchbay/hub/backup_v2.py:288-377 | in every run in which the calls of each process begin in turn, at most one live process has a lease out that it is not releasing |
| `AdmissionDrain.OrderlyReleases` | src/patchbay/hub/backup_v2.py:359-377 | and a release is about to remove no marker but that of its own lease |
| `AdmissionDrain.TruthfulIffFlagDown` | src/patchbay/hub/backup_v2.py:340-349 | for a controller at rest: over every continuation short of a release, a wait_for_drain that returns True finds all sections empty, if and only if the flag is down or a marker of its own is left behind |
| `AdmissionDrain.RaisedFlagMisleads` | src/patchbay/hub/backup_v2.py:340-341 | with the flag up, the next freeze can be drained while another process is inside its section |
| `AdmissionDrain.OverlapLeavesFlagUp` | src/patchbay/hub/backup_v2.py:347-371 | a run in which a release overlaps a drain between lock and flag and leaves the flag up |
| `AdmissionProgress.ExclusiveWithoutMarker` | src/patchbay/hub/backup_v2.py:362-371 | who has the active lock while no marker is published is a release about to drop it |
| `AdmissionProgress.ShareNeverDeadlocks` | src/patchbay/hub/backup_v2.py:414-426 | a thread that keeps the intent lock while it waits for the shared lock gets it after at most six steps of one release, none of which waits for anything |
| `AdmissionProgress.IntentIsFreed` | src/patchbay/hub/backup_v2.py:404-448 | in every reachable state the intent lock is at most nine enabled steps from being free, none of which waits for it |
| `AdmissionProgress.AdmissionProceeds` | src/patchbay/hub/backup_v2.py:414-426 | with no live marker the next admission clears a stale one and gets into its section |
| `AdmissionProgress.FreezeProceeds` | src/patchbay/hub/backup_v2.py:428-448 | with no live marker the next freeze goes through |
| `AdmissionProgress.DeathThaws` | src/patchbay/hub/backup_v2.py:465-474 | the death of the owner makes its marker stale and frees its locks |
| `AdmissionThaw.SafeIffShielded` | src/patchbay/hub/backup_v2.py:359-365 | over every continuation short of another release, a published marker stays if and only if no release under way has still to read it or has read it |
| `AdmissionThaw.ThawsIffKept` | src/patchbay/hub/backup_v2.py:359-377 | the marker of a live owner can go if and only if the controller keeps it, is about to, or a release has read it |
| `AdmissionThaw.OwnerThaws` | src/patchbay/hub/backup_v2.py:359-377 | and then it goes by steps of the owner and of the thread that holds the intent lock |
| `AdmissionThaw.StrandedBlocksForEver` | src/patchbay/hub/backup_v2.py:359-377 | every other marker stays, no section opens and nobody is handed a lease, as long as its owner lives |
| `AdmissionThaw.FailedFreezeStrands` | src/patchbay/hub/backup_v2.py:445-448 | a freeze whose active file does not open, or cannot be hardened, leaves such a marker |
| `AdmissionThaw.OverlapStrands` | src/patchbay/hub/backup_v2.py:366-374 | a run in which one of two overlapping releases of a lease runs over the next freeze and leaves such a marker |
| `AdmissionLeases.ExcludesIffShielded` | src/patchbay/hub/backup_v2.py:288-377 | for every lease that is out, over every continuation short of a release by its process: no other process is handed a lease, if and only if its marker is published and no release under way can take it away; and no section opens under the same condition |
| `AdmissionLeases.ExcludesIffPublished` | src/patchbay/hub/backup_v2.py:288-377 | with no release under way: if and only if its marker is published |
| `AdmissionLeases.TwoProcessesHoldLeases` | src/patchbay/hub/backup_v2.py:229-232 | a run to a state in which two live processes have a lease each and neither is releasing it |
| `AdmissionLeases.SectionOpensUnderALease` | src/patchbay/hub/backup_v2.py:359-377 | a run to a state in which another process is inside a section it opened while a lease is out that nobody is releasing |
| `AdmissionLeases.TakesIffThreatens` | src/patchbay/hub/backup_v2.py:359-365 | a release under way can come to take away the published marker, of whatever freeze, if and only if it has still to read the kept marker and will find this one, or has read it, and no other release is about to take it |
| `AdmissionLeases.TakesOwnOrLater` | src/patchbay/hub/backup_v2.py:359-365 | that marker is never of an earlier freeze than the lease that is released |
| `AdmissionController.AdmissionFreezeController.EnterMutation` | src/patchbay/hub/backup_v2.py:269-280 | admission is refused exactly under a freeze here or a live marker elsewhere; otherwise the section is entered, counted and locked, and a stale marker cleared |
| `AdmissionController.AdmissionFreezeController.AcquireSharedAdmission` | src/patchbay/hub/backup_v2.py:414-426 | the effect on the coordination files |
| `AdmissionController.AdmissionFreezeController.ExitMutation` | src/patchbay/hub/backup_v2.py:281-286 | exactly this section is left and uncounted |
| `AdmissionController.AdmissionFreezeController.FreezeAdmissions` | src/patchbay/hub/backup_v2.py:288-310 | the exact condition of every result, a reason of white space included, and the whole state it leaves: a lease keeps marker and file, a file error leaves the marker behind and no freeze |
| `AdmissionController.AdmissionFreezeController.PublishMarker` | src/patchbay/hub/backup_v2.py:437-445 | a marker is published exactly if no live process has one |
| `AdmissionController.AdmissionFreezeController.BeginCrossProcessFreeze` | src/patchbay/hub/backup_v2.py:428-448 | the marker is published before the active file is opened, and stays if that fails |
| `AdmissionController.AdmissionFreezeController.PollDrain` | src/patchbay/hub/backup_v2.py:324-357 | the exact condition of every result: with the flag down true exactly if nobody is admitted here and the lock is granted, with the flag up true without a look at the lock |
| `AdmissionController.AdmissionFreezeController.Release` | src/patchbay/hub/backup_v2.py:359-377 | the marker that is kept goes where it is published, the lock of the file that is kept goes; the freeze ends exactly if the lease is the active one |
| `AdmissionController.AdmissionLease.Release` | src/patchbay/hub/backup_v2.py:229-232 | a lease marked as released does nothing; one whose release raised is not marked |
| `ByteStrings.BigEndian` | src/patchbay/hub/backup_v2.py:2127-2131 | a length that fits is written in exactly that many bytes and read back from them |
| `StableHashFormat.NumeralShape` | src/patchbay/hub/backup_v2.py:2104-2105 | a numeral has a sign exactly if negative, never a leading zero, digits throughout, and ends in its last digit |
| `StableHashFormat.Utf8Bits` | src/patchbay/hub/backup_v2.py:2108-2109 | the bytes of one character, for every width |
| `StableHashFormat.Utf8OfAscii` | src/patchbay/hub/backup_v2.py:2108-2109 | ASCII is encoded as it stands |
| `Utf8Order.Utf8KeepsOrder` | src/patchbay/hub/backup_v2.py:2042-2049 | texts compare by code point, as sorted compares them, exactly as their UTF-8 forms compare by byte, as the binary collation does |
| `StableHashFormat.TokenLayout` | src/patchbay/hub/backup_v2.py:2127-2131 | two bytes for the length of the tag, the tag, eight bytes for the length of the payload, the payload; highest byte first |
| `StableHashFormat.StreamsByKind` | src/patchbay/hub/backup_v2.py:2099-2120 | the tag and the payload of every kind of value, and of a list the count and then its items in order |
| `Decimal.ReadOfFormat` | src/patchbay/hub/backup_v2.py:2104-2118 | the decimal form of an integer, negative ones included, reads back |
| `Utf8.DecodeOfEncode` | src/patchbay/hub/backup_v2.py:2108-2109 | the UTF-8 form of a text reads back |
| `StableHash.CanonIsEncodable` | src/patchbay/hub/backup_v2.py:2112-2120 | sorting and normalising a value keeps it hashable, with the same first token |
| `StableHashParser.ReadTokenOfToken` | src/patchbay/hub/backup_v2.py:2127-2131 | tag, payload and rest are cut out of the framed bytes again |
| `StableHashParser.ParseOfStream` | src/patchbay/hub/backup_v2.py:2099-2124 | a parser recovers a value without tuples and the exact rest from its tokens |
| `StableHashParser.ParseOfEncode` | src/patchbay/hub/backup_v2.py:2099-2131 | a parser recovers the normal form of every hashable value and the exact rest |
| `StableHashMeaning.MappingOrderIsIrrelevant` | src/patchbay/hub/backup_v2.py:2112-2116 | reordering the entries of a mapping does not change what is hashed |
| `StableHashMeaning.SameIffCanon` | src/patchbay/hub/backup_v2.py:2099-2124 | values agree as data (dictionaries by key, sequences by member) exactly if their normal forms are equal |
| `StableHashMeaning.EncodeIdentifies` | src/patchbay/hub/backup_v2.py:2099-2131 | two streams with anything behind them are equal exactly if the values agree as data and the rests are equal |
| `StableHashMeaning.EncodeAllIdentifies` | src/patchbay/hub/backup_v2.py:2092-2096 | streams of several values are equal exactly if the values agree one by one |
| `StableHasher.UpdateHashToken` | src/patchbay/hub/backup_v2.py:2127-2131 | feeds the framed token, or raises exactly if the payload is too long |
| `StableHasher.UpdateStableHash` | src/patchbay/hub/backup_v2.py:2099-2124 | feeds exactly the stream of the value, or raises exactly if some part has none |
| `StableHasher.UpdateMapping` | src/patchbay/hub/backup_v2.py:2112-2116 | feeds the count and then the entries, each once, in the order of the code points of their keys, each key in front of its value, or raises exactly if some part has no stream |
| `StableHasher.EncodedInKeyOrder` | src/patchbay/hub/backup_v2.py:2112-2116 | the stream of a mapping is that of its entries by the code points of their keys |
| `StableHasher.UpdateSequence` | src/patchbay/hub/backup_v2.py:2117-2120 | the loop over a list or tuple feeds its stream |
| `Ordering.SortAscends` | src/patchbay/hub/backup_v2.py:2114 | the result of a sort ascends by its key |
| `Ordering.TextLeMeans` | src/patchbay/hub/backup_v2.py:2114 | one text is at most another exactly if it is a prefix or has the smaller code point where they first differ |
| `Ordering.KeyOfTwoMeans` | src/patchbay/hub/app_v2.py:805 | a key of two texts compares by the first and, where that is equal, by the second |
| `Ordering.SortIsStable` | src/patchbay/hub/app_v2.py:805 | members with equal keys stay in the order in which they came |
| `Ordering.AscendingIsUnique` | src/patchbay/hub/backup_v2.py:2042-2053 | a multiset can be put in order in one way only if the key tells its members apart |
| `TableProof.ProofForCursor` | src/patchbay/hub/backup_v2.py:2056-2064 | returns the number of rows of the cursor and the hash of the header and all rows, or fails exactly if one has no stream |
| `TableProof.ProofForTableColumns` | src/patchbay/hub/backup_v2.py:2033-2053 | and fails exactly also for a table without columns |
| `TableProof.RowKeyMeans` | src/patchbay/hub/backup_v2.py:2040-2053 | rows compare by their first cells that are not alike: blob before integer before null before real before text, and within a type by the code points of the quoted form |
| `TableProof.HeaderMeans` | src/patchbay/hub/backup_v2.py:2057-2059 | the names of the columns are hashed as a list under one key |
| `TableProof.ProofIdentifies` | src/patchbay/hub/backup_v2.py:2056-2064 | proofs are equal exactly if columns and rows in order are |
| `TableProof.OneProof` | src/patchbay/hub/backup_v2.py:2042-2053 | a table has the same proof for every order a cursor may deliver if and only if types and quoted forms tell its different rows apart |
| `TableProof.TwoProofs` | src/patchbay/hub/backup_v2.py:2042-2053 | two different rows with the same types and quoted forms give a table two proofs |
| `TableProof.ProofIsOfRows` | src/patchbay/hub/backup_v2.py:2033-2064 | equal proofs mean equal columns and equal multisets of rows, whatever the rows; where types and quoted forms tell different rows apart, equal columns and multisets have equal proofs |
| `TableProof.FaithfulSeparates` | src/patchbay/hub/backup_v2.py:2042-2049 | the condition holds where cells of one type with one quoted form are equal |
| `DurableState.TableProofsMean` | src/patchbay/hub/backup_v2.py:1908-1917 | tables with equal proofs by name are the same tables, name by name, whatever their rows |
| `DurableState.ValuesProofMeans` | src/patchbay/hub/backup_v2.py:2092-2096 | the proof of a list of values is equal exactly for lists that agree |
| `DurableState.AggregateShape` | src/patchbay/hub/backup_v2.py:1914-1915 | the one value under the aggregate hash: the proof of the schema and the count and hash of every table by name |
| `DurableState.StateProofMeans` | src/patchbay/hub/backup_v2.py:1908-1924 | what a state proof counts and hashes |
| `DurableState.TotalRowsAdds` | src/patchbay/hub/backup_v2.py:1915-1916 | the count of a state proof is that of all rows of all tables |
| `DurableState.EqualHashesMeanSame` | src/patchbay/hub/backup_v2.py:1903-1926 | two databases with one aggregate hash agree in their schema and, table by table, in columns and rows, whatever the rows and the order they were delivered in |
| `DurableState.SameStateHasOneProof` | src/patchbay/hub/backup_v2.py:1903-1926 | where the keys tell the rows of every table apart, databases that agree have one proof |
| `OutboxUpgrade.UpgradeBaseline` | src/patchbay/hub/backup_v2.py:1559-1583 | a baseline is returned exactly if the proof of the old table is the expected one |
| `OutboxUpgrade.VerifyUpgrade` | src/patchbay/hub/backup_v2.py:1586-1648 | accepts exactly if the columns are the old ones and hub_confirmed_at, REAL, nullable and without a default, the proof over the old columns is the old one, and every row ends in null |
| `OutboxUpgrade.PassingMeansUpgraded` | src/patchbay/hub/backup_v2.py:1559-1648 | whatever passes has the old columns plus an empty hub_confirmed_at, as rows the multiset of the old rows each with a null behind it, and no old column is hidden |
| `OutboxUpgrade.UpgradedPasses` | src/patchbay/hub/backup_v2.py:1559-1648 | such an upgrade passes, provided the keys tell the old rows apart |
| `BackupBundle.ValidateBackup` | src/patchbay/hub/backup_v2.py:1095-1225 | no error is left exactly if the bundle is valid |
| `BackupBundle.ValidBundleMeans` | src/patchbay/hub/backup_v2.py:1095-1225 | a bundle is valid exactly if both files are there, the database reads as a sound one of a supported version, and the manifest is sealed, says what it reads as, names these bytes and meets every expectation there is, or is the empty object |
| `BackupBundle.DatabaseErrors` | src/patchbay/hub/backup_v2.py:1165-1214 | the checks of the database file, with and without a manifest |
| `BackupBundle.ManifestErrors` | src/patchbay/hub/backup_v2.py:1126-1163 | the checks of a well-shaped manifest against what the caller expects |
| `BackupPublication.StepKeepsCall` | src/patchbay/hub/backup_v2.py:976-1065 | every step of a create call keeps what the call relies on and overwrites nothing |
| `BackupPublication.NothingIsOverwritten` | src/patchbay/hub/backup_v2.py:2479-2503 | over any interleaving of calls, crashes and faults a database or manifest once in place is never changed |
| `BackupPublication.ReturnsAgree` | src/patchbay/hub/backup_v2.py:1006-1092 | a call that returned left, for good, a database that holds its snapshot and a manifest that says so |
| `BackupPublication.CreatedOnce` | src/patchbay/hub/backup_v2.py:1015-1076 | of all calls at most one reports each file as created, and it put that file in place |
| `BackupPublication.OneSnapshot` | src/patchbay/hub/backup_v2.py:2412-2442 | calls that return for the same paths published the same snapshot of the same source for the same revision |
| `BackupPublication.StatusIsHonest` | src/patchbay/hub/backup_v2.py:1043-1076 | a call that put the manifest in place reports it as created unless something fails behind the link |
| `BackupPublication.FaultIsReportedAsReuse` | src/patchbay/hub/backup_v2.py:1043-1055 | after such a failure the call finds its own manifest and reports it as reused |
| `BackupCreator.BackupTarget.CreateBackup` | src/patchbay/hub/backup_v2.py:1006-1092 | with both paths free succeeds exactly if the copy reads as a sound database of the kind, of a supported version and of the generation asked for, if any, and leaves that copy and a sealed manifest for it; in general succeeds exactly if what is in place is this publication or a part of it; the exact files afterwards and the exact publication report |
| `BackupCreator.SucceedsMeans` | src/patchbay/hub/backup_v2.py:1006-1092 | a call that runs alone succeeds exactly with a sound copy, nothing or a database that reads the same at the one path, and nothing or a manifest that describes it at the other |
| `BackupCreator.FilesAfterMeans` | src/patchbay/hub/backup_v2.py:1015-1055 | the files it leaves: the copy where nothing was, and behind a database that reads as the copy a sealed manifest for that file where none was |
| `BackupCreator.RepeatedCallReuses` | src/patchbay/hub/backup_v2.py:1015-1076 | the same call again succeeds, finds both files and changes neither |
| `BackupCreator.CreateRun` | src/patchbay/hub/backup_v2.py:976-1092 | a whole undisturbed call is a run of the publication protocol with this outcome, these files and this status |
| `BackupCreator.BackupTarget.RequireMatchingDatabase` | src/patchbay/hub/backup_v2.py:2373-2409 | accepts exactly a database that reads as the snapshot |
| `BackupCreator.BackupTarget.RequireMatchingBundle` | src/patchbay/hub/backup_v2.py:2412-2442 | accepts exactly a valid bundle of the same publication |
| `BackupCreator.BackupTarget.PublishDatabase` | src/patchbay/hub/backup_v2.py:2479-2503 | links exactly if the destination is free |
| `BackupCreator.BackupTarget.PublishManifest` | src/patchbay/hub/backup_v2.py:2506-2525 | links exactly if the destination is free; an error behind the link does not take it back |
| `BackupCreator.OrphanIsCompleted` | src/patchbay/hub/backup_v2.py:1015-1076 | a database without a manifest is completed by the next undisturbed call that finds the durable state as it was, provided keys tell rows apart, and that call reports a recovery |
| `BackupRestore.RestoreTarget.RestoreBackup` | src/patchbay/hub/backup_v2.py:1268-1404 | publishes at a free path, accepts a path that reads the same, and changes nothing otherwise; the target then reads as the backup |
| `BackupRestore.RestorableMeans` | src/patchbay/hub/backup_v2.py:1268-1300 | the exact condition on the two files under which a bundle can be restored |
| `BackupRestore.CreatedIsRestorable` | src/patchbay/hub/backup_v2.py:1281-1289 | what a create call left can be restored, with its generation and revision asked for or without, and reads as the snapshot of that call |
| `MigrationGate.ValidateMarker` | src/patchbay/hub/backup_v2.py:656-814 | no error is left exactly for a sound marker, or for the empty object over a readable source |
| `MigrationGate.BindingErrors` | src/patchbay/hub/backup_v2.py:2274-2291 | no error exactly if the backup is valid and holds the snapshot of the source |
| `MigrationGate.RequireValidatedBackup` | src/patchbay/hub/backup_v2.py:817-887 | without a source, or with one that is readable and current, not required; an unsupported target, an unreadable source, or an older one without a marker that is sound or the empty object, refused; an older one with such a marker validated |
| `MigrationGate.GateAnswers` | src/patchbay/hub/backup_v2.py:817-887 | when the gate opens without a backup and when with one, if and only if |
| `MigrationGate.SoundMarkerMeans` | src/patchbay/hub/backup_v2.py:700-814 | a marker is sound exactly if it is sealed, speaks of this source as it reads now and of this target, and names a backup on disk, with the manifest it knows, that is valid for the caller and reads as the source does |
| `MigrationGate.BindableMeans` | src/patchbay/hub/backup_v2.py:533-598 | a marker may be made exactly for a readable source below a supported target and a valid backup that reads exactly as the source does |
| `MigrationGate.MarkerStore.CreateMarker` | src/patchbay/hub/backup_v2.py:533-653 | the exact condition for creating and for reusing a marker; one in place is never replaced |
| `MigrationGate.FreshMarkerPasses` | src/patchbay/hub/backup_v2.py:599-616 | a fresh marker opens the gate for as long as the bundle stays and the source holds the same schema and rows, provided keys tell rows apart |
| `MigrationGate.ValidatedMeansBacked` | src/patchbay/hub/backup_v2.py:763-887 | an older database that the gate lets through, not with an empty marker, has a valid bundle whose backup holds the same schema and the same rows in every table, whatever the rows |
| `MigrationGate.EmptyMarkerOpensTheGate` | src/patchbay/hub/backup_v2.py:683-887 | with an empty marker object the gate opens with no backup at all |
| `MigrationGate.ChangeIsNoticed` | src/patchbay/hub/backup_v2.py:763-887 | after any change to schema or rows, of whatever kind, the source is refused for the marker, unless it has become current and needs no backup |
| `Dispatch.HandedOverOnce` | src/patchbay/hub/app_v2.py:1156-1241 | for every interleaving at awaits, of any number of coroutines and outside transitions, no operation is handed over a second time |
| `Dispatch.DeliveriesBoundedByEntries` | src/patchbay/hub/app_v2.py:1178-1241 | deliveries of an operation never exceed its entries into the dispatchable state |
| `Dispatch.StepKeepsInv` | src/patchbay/hub/app_v2.py:1156-1300 | the count of entries and deliveries is kept by every step |
| `Dispatch.TransitionTable` | src/patchbay/hub/operations.py:12-23 | the transitions that are accepted, pair by pair |
| `Dispatch.HandMeans` | src/patchbay/hub/app_v2.py:1206-1245 | an operation with a dispatch record is handed over exactly if it is dispatchable and its payload can be put together, as it then is stored: running, one revision on; the record is delivering, and nothing else changes |
| `Dispatch.OfferIfPendingMeans` | src/patchbay/hub/app_v2.py:1178-1204 | one that is created or payload_ready is moved on first, a revision a transition; everything else is not offered |
| `Dispatch.OfferDelivers` | src/patchbay/hub/app_v2.py:1178-1245 | in every state a coroutine with work left can go on, and delivers its next operation exactly under that condition |
| `Dispatch.AnswerMeans` | src/patchbay/hub/app_v2.py:1240-1300 | what every kind of reply makes of an operation that nobody has moved, and of its record |
| `Dispatch.RaisedDelivery` | src/patchbay/hub/app_v2.py:1212-1331 | over every run: a delivery that raises makes the operation outcome_unknown if no step of anybody has moved it since the hand-over, and else leaves it as it is |
| `Dispatch.FinalDelivery` | src/patchbay/hub/app_v2.py:1249-1300 | over every run: an acknowledged final reply to anything but a preflight moves the operation to its target if no step of anybody has moved it since the hand-over, and else leaves it as it is |
| `Dispatch.SettledByFinalReply` | src/patchbay/hub/app_v2.py:1249-1331 | over every run: what makes an operation terminal is an acknowledged final reply to a delivery of this operation or a transition by somebody else; no pending, malformed or unacknowledged reply, no delivery that raises and no offer does |
| `Dispatch.LostPayload` | src/patchbay/hub/app_v2.py:1220-1233 | a payload that cannot be put together leaves the operation running, undelivered, and never offered again |
| `DispatchRace.OwnIffUnmoved` | src/patchbay/hub/app_v2.py:1212-1225 | a process sets the operation running itself if and only if nobody has moved it since it was read |
| `DispatchRace.RacingDelivery` | src/patchbay/hub/app_v2.py:1212-1245 | with the transition, the second reading and the delivery each a step between which others may move the operation: what is delivered is what this process set running if and only if nobody moved the operation before that, and else the operation as read again; it is still its present state if and only if nobody has moved it since |
| `DispatchRace.OwnDeliveryOnce` | src/patchbay/hub/app_v2.py:1212-1245 | however many processes race, at most one delivers an operation it has set running |
| `DispatchRace.TwoProcessesDeliverTwice` | src/patchbay/hub/app_v2.py:1220-1245 | two processes deliver one operation twice |
| `DispatchRace.CancelledIsDelivered` | src/patchbay/hub/app_v2.py:1220-1245 | a process that read the operation before it was cancelled delivers it cancelled |
| `DispatchPort.Broker.Transition` | src/patchbay/hub/broker.py:781-815 | a stale revision changes nothing, an illegal transition raises, otherwise state and revision move |
| `DispatchPort.EdgeDispatchPort.DispatchIfPending` | src/patchbay/hub/app_v2.py:1178-1204 | hands over exactly a created, payload_ready or dispatchable operation that has a dispatch record and whose payload can be put together, as stored: running, one revision on for every transition; no other operation changes |
| `DispatchPort.EdgeDispatchPort.DispatchOperation` | src/patchbay/hub/app_v2.py:1206-1245 | hands over exactly a dispatchable operation that has a dispatch record and whose payload can be put together, as stored: running, one revision on; a terminal one is not offered, everything else raises; no other operation or record changes |
| `DispatchPort.EdgeDispatchPort.MarkDeliveryUnknown` | src/patchbay/hub/app_v2.py:1302-1331 | likewise after a delivery that raised |
| `DispatchPort.EdgeDispatchPort.Finish` | src/patchbay/hub/app_v2.py:1246-1300 | likewise for every kind of reply |
| `WorkerPaging.QueryResult` | src/patchbay/hub/app_v2.py:778-870 | the filter, sort and count loops come to the specified page, whose workers stand by the code points of their folded names and then of their references |
| `WorkerPaging.Filter` | src/patchbay/hub/app_v2.py:791-804 | the loop keeps every entry that matches as often as it is there, and no other |
| `WorkerPaging.MatchesMeans` | src/patchbay/hub/app_v2.py:791-803 | the filters one by one |
| `WorkerPaging.LimitMeans` | src/patchbay/hub/app_v2.py:811-814 | the limit for every argument: fifty without one or for the number zero, else within 1 and 100 |
| `WorkerPaging.StartMeans` | src/patchbay/hub/app_v2.py:807-810 | where a cursor starts |
| `WorkerPaging.PageShows` | src/patchbay/hub/app_v2.py:815-859 | which workers of the list a page shows, and when and with what it names the next start |
| `WorkerPaging.Count` | src/patchbay/hub/app_v2.py:816-824 | the number of workers, of active, completed and failed turns, and the greatest revision |
| `WorkerPaging.MaxRevisionMeans` | src/patchbay/hub/app_v2.py:816 | the revision is the greatest in the list |
| `WorkerPaging.CollectedByQueries` | src/patchbay/hub/app_v2.py:807-859 | following next_cursor reads one list on, ends, and every page carries the totals, counts and revision of the whole list |
| `WorkerPaging.MatchingCounts` | src/patchbay/hub/app_v2.py:791-804 | an entry that matches is kept as often as it is in the source, and no other is kept |
| `WorkerPaging.FollowingPartitions` | src/patchbay/hub/app_v2.py:805-859 | for every limit the pages put together are the matching workers, each as often as the source has it, in the order of names and references |
| `WorkerPaging.PagesAreFull` | src/patchbay/hub/app_v2.py:811-815 | all pages but the last are full and none is empty unless nothing matches |
| `PollCache.StoreMeans` | src/patchbay/hub/app_v2.py:733-744 | the cache stays within 1024 entries, keeps what was just stored, and gives up one entry that no other is older than only when it is full and the key is new |
| `PollCache.WindowHolds` | src/patchbay/hub/app_v2.py:716-731 | within the minimum interval a manager gets the same snapshot with every poll, whoever else polls, as long as there is room |
| `PollCache.FreshMeans` | src/patchbay/hub/app_v2.py:716-731 | a cached snapshot answers exactly until the minimum interval has passed since it was stored |
| `PollCache.ProjectionPort.CachedPollSnapshot` | src/patchbay/hub/app_v2.py:716-731 | returns a snapshot exactly if one was stored for the key less than the minimum interval ago |
| `PollCache.ProjectionPort.StorePollSnapshot` | src/patchbay/hub/app_v2.py:733-744 | the update of the dictionary and the search for the oldest entry come to the specified cache |
| `PollCache.ProjectionPort.Query` | src/patchbay/hub/app_v2.py:872-913 | a page of the cached snapshot, and nothing stored, exactly while that is younger than the minimum interval, else of the present one, which is then kept |
| `Base64Url.DecodeOfEncode` | src/patchbay/hub/integration_tokens.py:92-98 | decoding undoes encoding for every byte string |
| `Base64Url.EncodeShape` | src/patchbay/hub/integration_tokens.py:92-93 | the alphabet and the length of the unpadded text |
| `Base64Url.AlphabetInOrder` | src/patchbay/hub/integration_tokens.py:92-98 | the n-th character of the URL alphabet stands for n, both ways |
| `Base64Url.GroupIsNumber` | src/patchbay/hub/integration_tokens.py:92-93 | three bytes are the four digits to the base 64 of one number, and the rest follows |
| `Base64Url.TailIsNumber` | src/patchbay/hub/integration_tokens.py:92-93 | one or two bytes at the end are filled up with zero bits |
| `Base64Url.OthersAreSkipped` | src/patchbay/hub/integration_tokens.py:96-98 | a character outside the alphabets that is no padding is skipped wherever it is |
| `PreviewTokens.VerifiesExactlyTheFormatted` | src/patchbay/hub/integration_tokens.py:38-64 | a token verifies to an identifier if and only if, stripped, it is what formatting that identifier gives |
| `PreviewTokens.IssuedTokenVerifies` | src/patchbay/hub/integration_tokens.py:28-64 | for every new secret and identifier the issued token fits the pattern with lengths 32 and 43 and verifies back |
| `PreviewTokens.FormatMeans` | src/patchbay/hub/integration_tokens.py:38-47 | a token is made exactly for an identifier of 24 to 96 URL-safe characters and a secret of 32 bytes at least, a bad identifier is reported first, and the token is the prefix, the identifier and the MAC of both |
| `PreviewTokens.StripMeans` | src/patchbay/hub/integration_tokens.py:75-79 | white space is taken off at both ends and nothing else |
| `PreviewTokens.MatchOfParts` | src/patchbay/hub/integration_tokens.py:21 | an identifier and a signature of the right shapes are found again in the token |
| `PreviewTokens.TwoSecretsMeanACollision` | src/patchbay/hub/integration_tokens.py:55-64 | a token that verifies under two secrets has the same MAC under both keys |

## Left out

- `RepoLockManager.RepoMutationLockManager.Acquire`: the wait for the in-process lock, which never blocks after the
  check that it is free, is one step; paths are normalised before.
- `RepoLockManager.RepoMutationLockManager.BlockJobCleanup`: the protocol has one repository, so that jobs that move
  between repositories are in `CleanupBook` only; that whole calls are runs of the protocol is proved beside the methods
  (`RepoLockCalls`), for the same lock files.
- `AdmissionProtocol.DoRelease`: a call on a file object is one step, and a file number is not used again between its
  check and the lock; a file that loses its last name in the controller is closed at once, even if a drain still has
  it in a local variable. Errors of the marker file are left out.
- `AdmissionDrain.OrderlyCallsDrain`: a controller without a coordination directory, which has neither marker nor lock.
- `RepoLockRuns.CrashHandoff`: the restarted instance is not told apart from other managers; the barrier may be
  that of any process.
- `StableHash.CanonIsEncodable`: mapping keys are texts, as in all callers; the collapse of other keys by `str` is
  not modelled. The three byte types are one.
- `StableHasher.UpdateStableHash`: what a failed call has fed to the digest is not stated; the digest is dropped.
- `DurableState.EqualHashesMeanSame`: the derived sections of a state proof (groups, operations, receipts,
  attempts, entity types), which repeat rows of the tables.
- `BackupBundle.ValidateBackup`: permission bits, sidecar files and the single conditions of the manifest's shape,
  which is one flag; the error codes of a misshapen manifest are one.
- `BackupRestore.RestoreTarget.RestoreBackup`: opening the restored store and creating its marker are one flag.
- `MigrationGate.ValidateMarker`: the single conditions of the marker's shape, which is one flag.
- `Dispatch.HandedOverOnce`: one event loop and one process; for several see `DispatchRace`, whose processes deliver
  and move operations but do not answer.
- `Dispatch.TransitionTable`: the compare-and-set of the store itself (`src/patchbay/hub/store_v2.py:2077`), which has
  another table and which the broker does not use.
- `DispatchPort.EdgeDispatchPort.DispatchIfPending`: creating operations, remembering and acknowledging payloads
  and the worker projection; whether a payload can be put together or acknowledged is a flag.
- `WorkerPaging.QueryResult`: the completion contract and the texts of a page; integer syntax beyond plain decimal.
- `PollCache.WindowHolds`: the wait call, which stores a snapshot whatever the interval.
- Timed waiting: polling loops, joins with timeouts and deadlines are single attempts.
- fsync, WAL, the SQLite backup API and JSON text: a copy is taken in one step and files read back as written.
- HTTP, MCP, launchers, scripts, the store, broker and journal internals, reports, redaction and authentication.
