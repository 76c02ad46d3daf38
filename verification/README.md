# Control plane of the headless controller, verified

The controller keeps three things in step: rows in PostgreSQL, state in memory and live
containers. Its workers are interrupted by crashes, reconnects and each other. This Dafny
project models the code that has to survive that, and proves what it keeps.

Each component has the same shape. Specification functions say what one statement or one
critical section does to a value. Where the program updates state in place, a class does
the same and is proved against these functions. A state machine then lets any number of
goroutines, instances or hosts take such steps in any order. `Step` is total: an action
that is not enabled changes nothing. A run is a sequence of actions, and a theorem about
`Exec(Init(), acts)` is about every reachable state. Times are natural numbers, SQL
statements are atomic, and answers of hosts, containers and clocks are parameters.

| file | component |
|---|---|
| `SessionTable`, `SessionLifecycle`, `EventConvergence`, `TouchedRows` | session rows, the lifecycle handler, many hosts' events replayed in any order, and rows the controller saves or deletes in between |
| `HostEventStream`, `StreamEpochs`, `HostStreamOnce`, `StreamReconcile` | one host's event stream with its checkpoint, the rows all streams leave, one connection, and the set of streams |
| `SessionStateCache`, `StreamReset`, `UserCounts`, `MovedSessions` | the snapshot cache, the handler that keeps it and the startup parameters in step with the hosts, what snapshots and counts follow from events, and all hosts' handlers at once |
| `ResetInterference`, `SessionUsecase` | stream resets and saved rows among the events, and starting, stopping and deleting through the controller |
| `UpgradeState`, `UpgradeProtocol`, `StaleSnapshots`, `UpgradeOrchestrator` | drain-then-restart upgrades as a protocol, which config they restore, and as code |
| `ClaimQueue`, `ExclusiveExecution`, `BatchDispatch`, `JobExecution` | the claim queue, batches in time, the semaphore loop, one execution |
| `NotificationBus`, `BusInterleaving`, `BusOverlap` | the drop-oldest bus alone, under concurrency, and with publishes that overlap |
| `RetryBackoff`, `PortProbe` | exponential backoff in int64, circular port probing |
| `PermissionState`, `PermissionUsecases`, `CallEffects`, `PermissionRuns`, `SystemKeyHolders`, `KeyGrants`, `LateKeys` | groups, roles, memberships and registration tokens: checks, calls, what each call does alone, interleaved calls, who holds the system keys, and where other keys come from |

Some promises of the code and its comments do not hold as stated. For each of them the
project keeps the code's behaviour, gives a run that breaks the promise, and proves
exactly when it holds.

- *No event of a host is missed.* A host whose first checkpoint was never written resumes live-only and can miss events (`HostEventStream.FirstCheckpointGap`). While tokens load, delivery is complete iff nothing is dispatched off such a stream (`HostEventStream.CompleteIffNotBlind`). What the rows are after such a gap, in every run: `StreamEpochs.RowsFollowEpoch`.
- *Hosts' events converge.* Two hosts that report the same latest start time of a session leave its owner to chance; iff there is no such tie, all complete deliveries agree (`EventConvergence.ConfluentIffNoTie`).
- *A reset demotes only what its host lost.* Since the list, another host may have started the session (`ResetInterference.DemotesNewOwner`) or the controller may have saved it as running there (`ResetInterference.DemotesSavedOwner`). The demoted row is still the listed run iff the last save, start or insert to take the row since, if any, was for the same host and start time (`ResetInterference.DemotesListedRunIff`).
- *An ended session stays ended.* The controller reads and later saves whole rows without a guard: at the end of a start, but also when parameters, memo or auto-upgrade are edited (usecase/session_usecase.go:162, usecase/session_usecase.go:451, usecase/session_usecase.go:565). A save that was prepared before an end makes the session read RUNNING again (`ResetInterference.RevivedByStart`), until an end takes effect after the last start that did, and no sooner (`ResetInterference.RevivedUntilEnded`). From the last save on, the row follows from the saved row and the events delivered since (`TouchedRows.LastTouchIsBase`).
- *A deleted session stays deleted.* A stream that returns to its start inserts it again (`TouchedRows.DeletedComesBack`). It stays deleted iff nobody saves it and no stream arrives at or returns to a start of it (`TouchedRows.StaysDeletedIff`), so for good once all streams are past its last start and none resumes before it (`TouchedRows.GoneForGood`).
- *A cached session that runs stays cached, under its host.* A late event of its former host takes it over, and that host's next reset drops it (`MovedSessions.LateEventLosesMovedSession`); a late report of its end drops it at once, whichever host it comes from (`MovedSessions.LateEndLosesMovedSession`). It stays iff it is never reported ended, never removed, and listed by every reset of the host that wrote it last (`MovedSessions.StaysCachedIff`); it stays with its host iff no other host writes it either (`MovedSessions.StaysWithOwnerIff`).
- *A stopped session leaves the cache.* An event that was half handled when the session was removed puts it back (`MovedSessions.StoppedSessionComesBack`); exactly when nothing does: `MovedSessions.StaysGoneIff`.
- *A host's config is captured before any of its sessions is stopped.* Every enrollment does so for its own stops (`UpgradeProtocol.CapturesBeforeStops`), but not for those of an earlier one: a goroutine that passed the drain check before can fetch the config in the middle of the drain and record it afterwards (`StaleSnapshots.StaleSnapshotIsEnrolled`), and a host given up after it was drained is enrolled again as it is (`StaleSnapshots.GivenUpHostIsEnrolledStale`). For every enrollment, the fetched config shows a host with sessions stopped iff at the fetch its current enrollment had stopped one, or one was given up after doing so and no restart has succeeded since (`StaleSnapshots.EveryEnrollment`, `StaleSnapshots.DisturbedIff`).
- *A claimed row runs once at a time.* With the async-job defaults a row can be claimed again while it still runs; with those of scheduled operations it cannot as long as claim and untimed work fit into 80 seconds (`ExclusiveExecution.DefaultsExclusive`; exactly when, for any settings: `ExclusiveExecution.ExclusiveIffRoundsFit`).
- *The second send in `busSend` always goes through.* As long as publishes do not overlap it does (`BusInterleaving.PushNeverBlocks`), but publishers share the read lock: another one's first send may take the slot that was freed, and the second send blocks (`BusOverlap.PushCanBlock`). Publishers that have dropped an event can all send theirs without the subscriber iff no slot taken in this way is outstanding (`BusOverlap.PushersFinishIff`).
- *Publishing never waits for a subscriber.* The receive before that send blocks when the channel has been emptied meanwhile (`BusInterleaving.DrainBlocksIffEmptied`, with overlap `BusOverlap.DrainBlocksIffAllTaken`), and the whole bus may stand still with it (`BusInterleaving.StandstillIsReached`). The publishers at such a receive all get past it iff none of them is in a circle of publishers that wait for each other (`BusOverlap.DrainersFinishIff`).
- *The system group never becomes empty.* Two administrators removing each other at the same time empty it (`PermissionRuns.GroupCanBeEmptied`). It keeps a member iff no removal or deletion is written whose user is by then the last one (`PermissionRuns.NeverEmptyIff`).
- *Someone always holds the system keys.* The last holder can be given a role without them, leave, be deleted, or see its role emptied (`SystemKeyHolders.KeysCanBeLost`, `SystemKeyHolders.HolderCanLeaveOrEmptyItsRole`). A key keeps a holder iff every statement spares some holder of it or grants it (`SystemKeyHolders.HeldIffKept`, over runs `SystemKeyHolders.AlwaysHeldIff`).
- *Nobody hands out a key it lacks.* A key that joins a role between the check and the write of a call is given all the same (`LateKeys.LateKeyIsGiven`). A membership gives nothing its caller lacked iff every key the role has got since the check is the caller's own (`KeyGrants.BackedIffNothingNew`). Where every key of every user comes from, in every run: `KeyGrants.KeysAreBacked`.

## Model

| member | source | states |
|---|---|---|
| SessionTable.SessionRepository.InsertSessionFromEvent | db/sessions.sql.go:193-217 | a row appears only for a known host and an unknown id, running, with that host's group; a present row keeps every column; one affected row iff it was inserted |
| SessionTable.SessionRepository.ApplySessionStarted | db/sessions.sql.go:109-119 | only a strictly newer start takes the row over, in all four lifecycle columns and the name at once; user columns never move |
| SessionTable.SessionRepository.ApplySessionEnded | db/sessions.sql.go:14-22 | only the owner, with a strictly newer end, ends the row |
| SessionTable.SessionRepository.DowngradeSessionToUnknownIfRunning | db/sessions.sql.go:155-157 | no row but a running one ever changes, and only its status |
| SessionLifecycle.SessionLifecycleHandler.HandleHostEvent | worker/session_lifecycle_handler.go:30-146 | the statements issued for one event amount to the event's specified effect on the whole table, for malformed, foreign, late and unknown events too |
| EventConvergence.RowsAreCanonical | worker/session_lifecycle_handler.go:58-146 | in every run of any number of hosts, with database calls interleaved, any replay, jumps ahead and rows saved by the controller in between, every row not saved by it is the canonical one: owned by the latest delivered start, ended iff its owner delivered a later end, at the greatest such time, user columns untouched |
| EventConvergence.CanonicalIsUnique | worker/session_lifecycle_handler.go:58-146 | canonical is a function of the delivered events alone, up to a tie of two hosts at the latest start |
| EventConvergence.Convergence | worker/session_lifecycle_handler.go:58-146 | two runs that delivered the same events agree on the row, whatever their interleavings, replays and resume points |
| EventConvergence.ConfluentIffNoTie | db/sessions.sql.go:109-119 | all complete deliveries of the same logs agree on a session iff no two hosts report the same latest start of it |
| EventConvergence.HandlerIsSteps | worker/session_lifecycle_handler.go:58-146 | the interleaved database calls, left uninterrupted, are the sequential handler |
| TouchedRows.CanonicalSince | worker/session_lifecycle_handler.go:58-146 | from any reachable state on, an untouched row is canonical for the row of then and the events delivered since, unless a handler was in the middle of an event that the row of then invalidates |
| TouchedRows.LastTouchIsBase | usecase/session_usecase.go:549-572 | in whole runs: the last save or deletion of a session takes the place of the initial row, whatever else is saved, deleted, delivered or replayed |
| TouchedRows.OriginStays | db/sessions.sql.go:485-513 | until a session is deleted, no save, event or replay changes its group or a creator once saved |
| TouchedRows.StaysDeletedIff | usecase/session_usecase.go:467-484 | from any state, a session without a row stays so iff nobody saves it and no stream arrives at a start of it with its insert still to be made |
| TouchedRows.GoneForGood | worker/session_lifecycle_handler.go:58-100 | no start at or after any stream's position and no resume point before one: the session never comes back, whatever else happens |
| TouchedRows.DeletedComesBack | db/sessions.sql.go:193-217 | a run from the start in which a replayed start inserts the deleted session again |
| HostEventStream.CompleteIffNotBlind | worker/host_event_watcher.go:171-233 | while this host's tokens load and no resume point of it is rejected, whatever the other hosts do: every event from the first received one up to the last dispatched one reached every handler, iff no event was dispatched off a live-only stream opened behind the host's back |
| HostEventStream.CompleteUnlessBlind | worker/host_event_watcher.go:192-233 | then also every event before the stored checkpoint reached every handler, through crashes, reconnects, failed writes and rejected resume points |
| HostEventStream.StoredCheckpointIsEnough | worker/host_event_watcher.go:171-190 | under the same condition on this host, a host whose checkpoint is stored when the run begins never misses an event |
| HostEventStream.ReceivedInOrder | worker/host_event_watcher.go:192-233 | as long as this host receives nothing off a live-only stream, what it received is, after dropping repeats, one contiguous in-order stretch of its log |
| HostEventStream.RowsStayCanonical | worker/host_event_watcher.go:192-245 | watcher, handlers and database together: the stored rows stay canonical for a set of events that holds all the lifecycle handler finished and none that was not received, through crashes, reconnects, live-only streams, rejected resume points and failed checkpoint writes, unless a stream goes live past a checkpoint that stays stored |
| StreamEpochs.RowsFollowEpoch | worker/host_event_watcher.go:171-233 | in every run without exception: rows are canonical for the rows at the last moment a stream returned behind a gap, or the beginning, and the events that took effect since, all of them received |
| StreamEpochs.OneEpoch | worker/host_event_watcher.go:192-228 | no stream ever returns behind a gap unless one went live past a checkpoint that stayed stored |
| HostEventStream.FirstCheckpointGap | pbgen/headless/v1/headless.pb.go:3519-3525 | a run in which no call fails and yet an event is lost: a crash before the first checkpoint write makes the restarted stream live-only |
| HostStreamOnce.HostStream.StreamOnce | worker/host_event_watcher.go:192-233 | one connection calls every handler for every event in order, ends with the token after the last one, stores the last checkpoint that could be written and forgets both on a rejected resume point; it takes only steps of the stream machine |
| HostStreamOnce.HostStream.Dispatch | worker/host_event_watcher.go:235-239 | each handler is called once, in order, before the event counts as dispatched |
| StreamReconcile.HostEventWatcher.CancelGone | worker/host_event_watcher.go:105-136 | exactly the tracked hosts that are no longer listed are untracked and handed over for waiting |
| StreamReconcile.HostEventWatcher.StartNew | worker/host_event_watcher.go:137-163 | exactly the listed untracked hosts get a new stream, the others keep theirs |
| StreamReconcile.AtMostOneStreamPerHost | worker/host_event_watcher.go:105-163 | with goroutines returning at any time and hosts flapping, no host ever has two live streams |
| StreamReconcile.ReconcileTracksListed | worker/host_event_watcher.go:105-163 | after every successful reconcile the tracked hosts are exactly the listed ones; those tracked before keep their goroutine, every other one is new and alive |
| StreamReconcile.ReconcileStopsUnlisted | worker/host_event_watcher.go:105-136 | a reconcile tells exactly the tracked streams of unlisted hosts to stop and leaves the others |
| StreamReconcile.ReconcileCanFinish | worker/host_event_watcher.go:128-137 | a reconcile is never stuck for good: it goes on once the goroutines it stopped have returned |
| StreamReconcile.ShutdownStopsAll | worker/host_event_watcher.go:288-305 | a shutdown tells every tracked stream to stop and tracks none |
| SessionStateCache.MemoryCache.Set | adapter/sessionstate/cache.go:60-82 | both indexes move together: a session that changes hosts leaves its old host's set, and no empty set stays |
| SessionStateCache.MemoryCache.Delete | adapter/sessionstate/cache.go:84-95 | the entry and its index position go, nothing else |
| SessionStateCache.MemoryCache.PruneHost | adapter/sessionstate/cache.go:97-118 | exactly the host's own sessions outside the live set go; the loop keeps entries and index mutual inverses |
| SessionStateCache.MemoryCache.Perform | adapter/sessionstate/cache.go:60-134 | any sequence of operations on the two indexes is the same sequence on one map |
| SessionStateCache.IndexIsDetermined | adapter/sessionstate/cache.go:25-37 | the host index carries no information of its own: entries determine it |
| SessionStateCache.CachedIffWrittenLast | adapter/sessionstate/cache.go:60-118 | a session is cached iff some write of it was followed neither by a delete nor by a prune of the host that wrote last, and that write gives owner and snapshot |
| SessionTable.SessionRepository.Save | db/sessions.sql.go:485-513 | an upsert keeps the first creator and the first group and replaces everything else |
| SessionUsecase.SessionUsecase.StartSession | usecase/session_usecase.go:81-171 | the container is called only on a host that is not draining, for a caller holding all three keys in the host's group, with the requested port or one of the configured range; wherever the process dies, the container comes before the row and the row before the cache, so no cached session is left without a row |
| SessionUsecase.SessionUsecase.StopSession | usecase/session_usecase.go:173-216 | a failed or interrupted stop leaves the cached state until the row says ENDED; the caller needs session:write in the row's group; the world address last seen replaces whatever world the saved startup parameters load |
| SessionUsecase.SessionUsecase.DeleteSession | usecase/session_usecase.go:467-484 | row and cached state go together, for a caller with session:write in the row's group, or nothing changes |
| StreamReset.SessionStateSyncHandler.HandleHostEventStreamReset | worker/session_state_sync_handler.go:70-121 | the host ends up owning exactly the sessions its list names, each with the snapshot of its last entry, with users or without; other hosts keep their unlisted ones; in the table exactly the host's running rows that no entry names and whose demotion works become UNKNOWN; a failed call before that changes nothing |
| StreamReset.ResetByTheList | worker/session_state_sync_handler.go:89-120 | cache and rows after a reset, read off the list entry by entry |
| StreamReset.SessionStateSyncHandler.HandleHostEvent | worker/session_state_sync_handler.go:51-66 | each event is one operation on the cache and at most one update of the table; a failed update leaves the cache as it is after the event; user counts follow int32 arithmetic and never go below zero |
| StreamReset.SessionStateSyncHandler.BumpUsersCount | worker/session_state_sync_handler.go:184-198 | an uncached session stays uncached, a cached one differs in its count and its owner only |
| StreamReset.RestartGetsLastEdits | db/sessions.sql.go:48-65 | what a restart reads back: of any sequence of events only the last reported parameters and the last saved world count, however they alternate; other parameters stay, and a world preset never stands beside a world address |
| UserCounts.SnapshotFollowsEvents | worker/session_state_sync_handler.go:143-198 | over any events of any hosts: from one report of a session to the next, its cached snapshot is that report but for joins minus leaves and the world last saved, as long as int32 holds the count |
| UserCounts.ReportReplaces | worker/session_state_sync_handler.go:122-177 | a report replaces the snapshot under its host, an end removes it, a leave from an empty session leaves it empty |
| MovedSessions.HandlerIsSteps | worker/session_state_sync_handler.go:143-198 | the read and the write of an event, left uninterrupted, are the sequential handler |
| MovedSessions.ResetIsSteps | worker/session_state_sync_handler.go:99-109 | the stores of a reset in any order of the listed sessions, then its prune, left uninterrupted, are the sequential rebuild |
| MovedSessions.StaysCachedIff | worker/session_state_sync_handler.go:99-177 | in every such run, a session stays cached iff nobody reports its end or removes it and every reset of the host that wrote it last lists it; that host owns it |
| MovedSessions.StaysWithOwnerIff | worker/session_state_sync_handler.go:122-198 | in every run, with reads and writes of several hosts' events interleaved with resets and controller calls, a session stays cached under its host iff no other host writes it, it is not reported ended by anyone, not removed, and listed by each of its host's resets |
| MovedSessions.LateEventLosesMovedSession | worker/session_state_sync_handler.go:184-198 | for every cache and every patching event: a late event of the former host, then its reset, evict a session its new host still runs, which the reset alone does not |
| MovedSessions.LateEndLosesMovedSession | worker/session_state_sync_handler.go:172-177 | a late report that the session ended, from any host, evicts a session another host runs |
| MovedSessions.StaysGoneIff | worker/session_state_sync_handler.go:184-198 | from any state, a session that is not cached stays so iff nobody reports or stores it and no write of it that was begun while it was cached is still to come |
| MovedSessions.StoppedSessionComesBack | usecase/session_usecase.go:211-213 | a session stopped between the read and the write of one of its events is cached again |
| ResetInterference.ResetsOnlyHideRunning | worker/session_state_sync_handler.go:109-120 | resets interleaved with events and saves change nothing but RUNNING to UNKNOWN compared with the same run without them; no reset undoes an end |
| ResetInterference.CanonicalUpToHiding | worker/session_state_sync_handler.go:109-120 | with resets in the run, and saves and deletions of other rows, a session's row is still canonical for the delivered events, up to a hidden run |
| ResetInterference.LastEffectsDecide | db/sessions.sql.go:109-119 | from any state, so from the last save of a row on, owner, name and start are those of the last start that took effect and status and end those of the last start or end that did, through any other saves, resets and replays; what none decides stays |
| ResetInterference.RevivedUntilEnded | usecase/session_usecase.go:162-162 | a row saved over an ended one reads ENDED again iff the last statement to take effect since is an end |
| ResetInterference.RevivedByStart | usecase/session_usecase.go:162-162 | a run from the start: both events of a short session are applied before its start is saved, and it reads RUNNING with its log exhausted |
| ResetInterference.DemotesListedRunIff | worker/session_state_sync_handler.go:70-121 | a demoted row was the host's, running and unreported when it was listed, and is still that run iff no save, start or insert took it for another host or start time since; if the controller left the row alone, iff its start time is the listed one |
| ResetInterference.DemotesLastOwner | db/sessions.sql.go:155-157 | otherwise the demoted row is the run of whoever took the row last: the last save of it, or the last start reported |
| ResetInterference.DemotesNewOwner | db/sessions.sql.go:155-157 | a run from the start in which a reset demotes the session another host has just taken over |
| ResetInterference.DemotesSavedOwner | usecase/session_usecase.go:162-162 | a run from the start, without any event, in which a reset demotes the session the controller has just saved as running on another host |
| ResetInterference.LastTakenOwns | db/sessions.sql.go:485-513 | in every run, saves and deletions included, host and start time of a row are those of the last save, start or insert that took it |
| UpgradeProtocol.EntryStaysWhileReconciling | worker/host_upgrade_orchestrator.go:382-452 | the drain entry a reconcile read stays the host's entry, below the retry limit, until that reconcile ends |
| UpgradeProtocol.OnePassPerHost | worker/host_upgrade_orchestrator.go:621-632 | two passes on one host are the same pass, so at most one Restart per host is in flight |
| UpgradeProtocol.RestartsBounded | worker/host_upgrade_orchestrator.go:457-485 | an enrollment issues at most five Restarts, and while it lasts exactly one per counted failure plus the one in flight |
| UpgradeProtocol.StopsOnlyEmptySessions | worker/host_upgrade_orchestrator.go:512-556 | whatever the cache says, a session is stopped only after the host told the same pass that nobody is in it |
| UpgradeProtocol.ListsOnce | worker/host_upgrade_orchestrator.go:401-406 | a pass lists its running sessions once, so "the listed sessions" of a pass are well defined |
| UpgradeProtocol.RestartsOnlyDrainedHosts | worker/host_upgrade_orchestrator.go:401-443 | Restart runs only if the same pass stopped every session it had listed |
| UpgradeProtocol.RestartsWithEnrolledSnapshot | worker/host_upgrade_orchestrator.go:574-579 | every Restart gets tag and snapshot as recorded at enrollment, and the snapshot was captured before that |
| UpgradeProtocol.EnrollsOnce | worker/host_upgrade_orchestrator.go:328-337 | with any number of goroutines racing, an entry is enrolled once |
| UpgradeProtocol.CapturesBeforeStops | worker/host_upgrade_orchestrator.go:277-351 | every stop of an enrollment comes after the capture of that enrollment's snapshot |
| StaleSnapshots.DisturbedIff | worker/host_upgrade_orchestrator.go:286-292 | in every run, the orchestrator has stopped a session of a host since its last successful restart iff the current enrollment did, or one that was given up without a restart since; a config fetched at any other time shows the host undisturbed |
| StaleSnapshots.StaleSnapshotIsEnrolled | worker/host_upgrade_orchestrator.go:277-337 | a run from the start that enrolls a host with a config fetched after the orchestrator stopped its only session |
| StaleSnapshots.EveryEnrollment | worker/host_upgrade_orchestrator.go:277-337 | every enrollment of every run got its config from a fetch by its own thread, and that shows the host with sessions stopped by the orchestrator iff at the fetch the current enrollment had stopped one, or a given-up one without a restart since |
| StaleSnapshots.GivenUpHostIsEnrolledStale | worker/host_upgrade_orchestrator.go:457-485 | a run from the start: a host is drained, its restart fails five times, and the next new image enrolls it with the config of the emptied host |
| UpgradeProtocol.StartsBoundedByAdmitted | usecase/session_usecase.go:81-84 | sessions the controller starts on a host during an enrollment come from the calls that had passed the drain check before it, so they number at most these |
| UpgradeProtocol.AdmittedCallStarts | usecase/session_usecase.go:81-84 | the bound is reached: a call that passed the check before the enrollment starts its session during it |
| UpgradeProtocol.DrainingHostAdmitsNobody | worker/host_upgrade_orchestrator.go:142-149 | over any stretch of a run in which a host stays enrolled, the StartSession calls on their way to its RPC can only become fewer |
| UpgradeOrchestrator.HostUpgradeOrchestrator.ReconcileHost | worker/host_upgrade_orchestrator.go:382-452 | for all answers of the host: exactly the sessions the cache does not vouch for and the host reports empty are stopped, Restart is called iff all of them went, and the drain table ends accordingly; the calls are a run of one protocol thread |
| UpgradeOrchestrator.HostUpgradeOrchestrator.DrainSessions | worker/host_upgrade_orchestrator.go:408-441 | the counter of remaining sessions is zero iff every session was stopped; no session's fate depends on those before it |
| UpgradeOrchestrator.HostUpgradeOrchestrator.EnrollIfAbsent | worker/host_upgrade_orchestrator.go:328-337 | a host that is already enrolled keeps its entry, tag and snapshot; otherwise it gets a new one with no failures |
| UpgradeOrchestrator.HostUpgradeOrchestrator.UserCountForSession | worker/host_upgrade_orchestrator.go:512-556 | only a positive cached count is trusted; a fresh answer is stored |
| UpgradeOrchestrator.HostUpgradeOrchestrator.RecordRestartFailure | worker/host_upgrade_orchestrator.go:457-485 | a failed restart is counted, and the one that reaches the limit takes the host out of the drain table and the count cache |
| UpgradeOrchestrator.HostUpgradeOrchestrator.BumpUserCount | worker/host_upgrade_orchestrator.go:581-596 | the cached count moves by the delta as long as it stays a non-negative int32, is zero where it would be negative, and a wrapped sum counts as negative; empty ids are ignored |
| UpgradeOrchestrator.HostUpgradeOrchestrator.ForgetSession | worker/host_upgrade_orchestrator.go:598-612 | a host without counted sessions leaves the cache |
| UpgradeOrchestrator.HostUpgradeOrchestrator.NoteVisit | worker/host_upgrade_orchestrator.go:198-207 | a join adds one, a leave takes one, an end forgets |
| UserCounts.CountsVisits | worker/host_upgrade_orchestrator.go:198-207 | over any joins, leaves and ends of any sessions and hosts: a session's count is joins minus leaves from where it began, until it ends, as long as no prefix leaves the non-negative int32 range |
| UserCounts.OthersKeepTheirs | worker/host_upgrade_orchestrator.go:581-612 | an event changes the count of its own session on its own host only |
| UserCounts.CountLimits | worker/host_upgrade_orchestrator.go:581-612 | a leave at zero stays at zero, a join at the largest int32 falls to zero, an end forgets, and empty ids count for nothing |
| UpgradeOrchestrator.HostUpgradeOrchestrator.HostReconcileMutex | worker/host_upgrade_orchestrator.go:621-632 | a host keeps its lock for good |
| ClaimQueue.JobTable.SelectDue | db/async_jobs.sql.go:14-25 | the loop returns at most a batch of pending unlocked rows, scheduled ones only once due; if one is left behind that might have been picked, the batch is full and none of it is younger; an async job is never held back by its time |
| ClaimQueue.JobTable.ClaimDue | db/scheduled_session_operations.sql.go:29-40 | exactly the selected rows become RUNNING under the claimer's name and time |
| ClaimQueue.JobTable.MarkJobSucceeded | db/async_jobs.sql.go:162-166 | a mark takes effect, and reports one row, iff the row is RUNNING |
| ClaimQueue.JobTable.MarkJobFailed | db/async_jobs.sql.go:143-147 | the same, with the error kept |
| ClaimQueue.JobTable.CancelJob | db/scheduled_session_operations.sql.go:14-18 | only a PENDING row is cancelled, and the affected count says so |
| ClaimQueue.JobTable.ReleaseStaleClaims | db/async_jobs.sql.go:182-188 | exactly the rows claimed longer ago than the limit go back to PENDING |
| ClaimQueue.TableInvariant | db/scheduled_session_operations.sql.go:241-296 | in every run of any number of instances: claim columns are set iff RUNNING, executed_at iff SUCCEEDED or FAILED, last_error iff FAILED, and open claims hold disjoint pending rows |
| ClaimQueue.ConcurrentClaimsDisjoint | db/async_jobs.sql.go:14-25 | claims open at the same time share no row |
| ClaimQueue.NothingRunsEarly | db/scheduled_session_operations.sql.go:29-40 | in every run, each scheduled operation in an open claim was due when the claim began, and each running one was due when it was claimed, which is not in the future |
| ClaimQueue.CanSucceedInTheEnd | db/scheduled_session_operations.sql.go:241-296 | a run in which an operation waits until it is due, is claimed, put back, claimed again, swept, claimed once more and succeeds |
| ClaimQueue.CanBeCanceled | db/scheduled_session_operations.sql.go:14-18 | a run in which a due operation is cancelled before any claim |
| ClaimQueue.TerminalRowsAreFrozen | db/async_jobs.sql.go:143-188 | a finished or cancelled row never changes again, however late an instance marks it |
| ClaimQueue.CompletesAtMostOnce | db/async_jobs.sql.go:143-188 | a row makes at most one terminal transition in any run |
| ClaimQueue.ClaimsAreConserved | db/scheduled_session_operations.sql.go:241-296 | a row is claimed exactly once more than it is put back while it runs or after it finished, and equally often otherwise |
| ClaimQueue.NoStarvation | db/async_jobs.sql.go:14-25 | without releases a job with k jobs ahead is taken by the (k / batch + 1)-th claim, however the claims overlap |
| ExclusiveExecution.SlotsComeInRounds | worker/async_job_executor.go:162-189 | in every run, job k gets its slot within k / concurrency rounds of the dispatch and no job of a batch is left after all rounds |
| ExclusiveExecution.RunIsExclusive | worker/async_job_executor.go:162-189 | if all rounds fit into the stale limit, every active job's row is still under its claim and no other execution holds it, across crashes, shutdowns, sweeps and requeues |
| ExclusiveExecution.UnsafeIsReached | worker/async_job_executor.go:47-58 | if they do not fit, a run of slow jobs, a sweep and a second claim give one row to two executions |
| ExclusiveExecution.ExclusiveIffRoundsFit | worker/async_job_executor.go:162-189 | no row is ever claimed again while an earlier execution of it is pending or runs, iff latency plus rounds times slot time is at most the stale limit |
| ExclusiveExecution.DefaultsExclusive | worker/scheduled_operation_executor.go:36-43 | the scheduled-operation defaults are safe iff the claim's latency and four times the untimed user lookup and trigger evaluation fit into 80 seconds; the async-job defaults are unsafe even if both take no time |
| BatchDispatch.DispatchOnce | worker/async_job_executor.go:173-188 | every job starts at the first moment at or after its predecessor's start at which fewer than `concurrency` earlier jobs hold a slot |
| BatchDispatch.StartsInRounds | worker/scheduled_operation_executor.go:156-171 | from that alone: job k starts within k / concurrency slot times |
| JobExecution.Executor.ExecuteOperation | worker/scheduled_operation_executor.go:174-289 | the action runs only for a named creator that exists or is not looked up, and a ready trigger; a missing creator or user or a failed lookup marks the row FAILED, an interrupted lookup leaves the table alone; SUCCEEDED iff it ran to its end, PENDING iff not ready, FAILED otherwise; no other row changes |
| JobExecution.Executor.ExecuteJob | worker/async_job_executor.go:196-302 | the same for a job, and the creator hears exactly once, a success iff the work was done even if the row could not be marked |
| NotificationBus.MemoryBus.Send | usecase/notification/bus.go:73-104 | every matching subscriber gets the event, at the price of its oldest pending one if its buffer is full, and no other buffer changes |
| NotificationBus.MemoryBus.PublishTo | usecase/notification/bus.go:88-104 | no event and no anonymous subscriber is ever addressed by an empty user id |
| NotificationBus.MemoryBus.Cleanup | usecase/notification/bus.go:119-126 | the channel is closed only once the bus no longer knows it |
| BusInterleaving.NeverTouchesClosed | usecase/notification/bus.go:73-145 | in every interleaving of publishers, subscriptions, cleanups, closes and receivers, no publisher touches a closed channel and no buffer exceeds 64 |
| BusInterleaving.LeavesAndIsClosed | usecase/notification/bus.go:119-126 | a run in which a subscriber with pending events leaves, its channel is closed, and the next publish passes it by |
| BusInterleaving.SubscriberSeesItsStream | usecase/notification/bus.go:132-145 | with publishes that do not overlap: received, dropped and pending events together are exactly the events meant for the user since the subscription, in order, and drops never exceed what the stream has beyond the buffer |
| BusInterleaving.PushNeverBlocks | usecase/notification/bus.go:136-140 | with publishes that do not overlap, the send after a drop finds room |
| BusInterleaving.DrainBlocksIffEmptied | usecase/notification/bus.go:136-138 | with publishes that do not overlap, the receive before it blocks iff the subscriber took all 64 pending events in between |
| BusInterleaving.UninterruptedSend | usecase/notification/bus.go:132-145 | left alone, the channel operations are the sequential send |
| BusInterleaving.StuckForever | usecase/notification/bus.go:73-126 | once a blocked publisher meets a waiting writer, no publish, subscription or cleanup takes effect in any continuation |
| BusInterleaving.StandstillIsReached | usecase/notification/bus.go:132-145 | that state is reachable without overlapping publishes |
| BusOverlap.StolenIsExcess | usecase/notification/bus.go:132-145 | in every run, slots filled and slots spoken for by publishers that have dropped an event exceed the buffer by exactly the slots that other publishers' first sends took and the subscriber has not given back |
| BusOverlap.PushBlocksIffFull | usecase/notification/bus.go:136-140 | in every run, the send after a drop blocks iff the buffer is full again, and never while no such slot is outstanding |
| BusOverlap.PushersFinishIff | usecase/notification/bus.go:136-140 | all publishers that have dropped an event can send theirs without the subscriber iff no such slot is outstanding; otherwise one waits for it, whatever anyone else does |
| BusOverlap.SerialStealsNothing | usecase/notification/bus.go:73-104 | without overlap no slot is ever taken in this way |
| BusOverlap.PushCanBlock | usecase/notification/bus.go:132-145 | a run in which the send after a drop blocks although the subscriber received nothing |
| BusOverlap.DrainBlocksIffAllTaken | usecase/notification/bus.go:136-138 | with any overlap, the receive blocks iff as many events have left the channel since it was found full as it holds and were sent meanwhile |
| BusOverlap.DrainersFinishIff | usecase/notification/bus.go:136-138 | with any overlap and no new publishes, the publishers at the receive of a subscriber can all get past it iff none is in a set of publishers that each wait on an empty channel which only members of the set have still to send to |
| BusOverlap.DeadlockWithWriterStays | usecase/notification/bus.go:73-126 | once such a set exists and a writer waits, it stays for good in every continuation: no publish or subscription takes effect |
| RetryBackoff.RetryWithBackoff | worker/loop.go:23-68 | the i-th wait depends only on the number of errors since the start or the last long call; clean returns neither wait nor count |
| RetryBackoff.CountsSinceLongCall | worker/loop.go:45-68 | that number is the failed calls since the last one that lasted long enough, or since the start |
| RetryBackoff.ClosedForm | worker/loop.go:66-66 | that wait is min(base * 2^n, max), or base for n = 0, and its double is at most twice the larger option |
| RetryBackoff.ClosedFormIffSmall | worker/loop.go:66-66 | in int64 the closed form holds for every n iff both delays are below 2^62 or the base is zero |
| PortProbe.GetFreeSessionPort | usecase/session_usecase.go:585-603 | every port of the range is probed at most once and none after a free one; a port is returned iff its probe found it free; on failure the whole range was probed; an empty range of width zero divides by zero |
| PortProbe.EveryPortIsACandidate | usecase/session_usecase.go:594-597 | from any start the circular walk reaches every port |
| PortProbe.CandidatesDiffer | usecase/session_usecase.go:594-597 | and no port twice |
| PermissionUsecases.Usecases.AddGroupMember | usecase/group_usecase.go:127-161 | a membership appears iff the caller's role in the group manages members or its system role manages groups, group and role match in scope, every key of the role is the caller's own, and the table's constraints allow it |
| PermissionUsecases.Usecases.RemoveGroupMember | usecase/group_usecase.go:165-202 | removal succeeds iff the caller manages members, in the same sense, of a group that is not personal, and the system group keeps another member |
| PermissionUsecases.Usecases.UpdateGroupMemberRole | usecase/group_usecase.go:206-250 | only an existing membership gets a role of matching scope whose keys are all the caller's own; in a personal group only from a manager of groups |
| PermissionUsecases.Usecases.CreateRole | usecase/role_usecase.go:65-126 | the new role has exactly the requested name, scope and keys, or nothing changes; an empty name and one taken in the group are refused |
| PermissionUsecases.Usecases.UpdateRole | usecase/role_usecase.go:137-188 | built-in roles and foreign keys are refused, and a taken name before the keys are touched; a nil key list leaves the keys alone, a nil name the name |
| PermissionState.PermissionMeans | usecase/permission_usecase.go:39-71 | a normal key is held iff the user's role in the group has it or its role in the system group has system:group.manage, a system key iff the role in the system group has it |
| PermissionState.MemberCallsMean | usecase/group_usecase.go:127-161 | who may add a member, from memberships and roles alone, both ways |
| PermissionState.MemberChangesMean | usecase/group_usecase.go:206-250 | who may change a member's role, both ways |
| PermissionState.RoleCallsMean | usecase/role_usecase.go:65-107 | who may create a role with which keys, both ways |
| PermissionState.RoleChangesMean | usecase/role_usecase.go:137-171 | who may change which role to which keys, both ways |
| PermissionState.UserCallsMean | usecase/user_usecase.go:50-142 | who may create, invite and delete users, both ways |
| PermissionState.GroupCallsMean | usecase/group_usecase.go:165-202 | who may found and dissolve groups and take members out of them, both ways |
| CallEffects.MembershipCalls | usecase/group_usecase.go:127-250 | uninterrupted, a membership call changes the one membership and nothing else, or nothing at all |
| CallEffects.FoundingCall | usecase/group_usecase.go:40-61 | a founder becomes the administrator of the new group |
| CallEffects.DissolvingCall | usecase/group_usecase.go:105-120 | memberships and roles of a dissolved group go with it, and nobody else's are touched |
| CallEffects.CreatingRole | usecase/role_usecase.go:109-126 | uninterrupted, a new role has exactly the requested name, scope and keys |
| CallEffects.ChangingRole | usecase/role_usecase.go:173-187 | uninterrupted, exactly the requested name and keys change |
| CallEffects.RefusedName | usecase/role_usecase.go:173-178 | a taken name leaves name and keys as they were |
| CallEffects.DroppingRole | usecase/role_usecase.go:190-208 | an unused role goes, and only it |
| CallEffects.CreatingUser | usecase/user_usecase.go:50-94 | a new user administers its personal group, or has the chosen role there |
| CallEffects.DroppingUser | usecase/user_usecase.go:118-142 | the user's memberships go with it, and only they |
| CallEffects.Inviting | usecase/user_usecase.go:196-228 | an invitation is stored unused with the chosen role, and nothing else changes |
| CallEffects.InvitationsForget | db/migrations/20260629000000_add_personal_role_id_to_registration_tokens.up.sql:5-6 | an invitation whose role goes away falls back to the default role |
| PermissionUsecases.Usecases.ReplacePermissions | adapter/role_repository.go:103-146 | the loops over single statements leave the role with exactly the wanted keys and everything else alone |
| PermissionState.KeyByKeyReplaces | adapter/role_repository.go:103-146 | left uninterrupted, any order of removing the superfluous and adding the missing keys replaces the keys; among other calls each is a statement of its own |
| PermissionUsecases.Usecases.ValidatePermissionKeys | usecase/role_usecase.go:230-251 | the early-exit loop accepts iff every key is known and of the role's scope |
| PermissionUsecases.Usecases.DeleteUser | usecase/user_usecase.go:118-142 | the user and all memberships go, nobody else's do; callers cannot delete themselves |
| PermissionUsecases.Usecases.RegisterWithToken | usecase/user_usecase.go:280-349 | registration succeeds iff the token is valid and the table takes every statement; then user, personal group and membership are there and the token is used, otherwise the store is as before |
| PermissionRuns.OnlySystemGroupYieldsSystemKeys | usecase/group_usecase.go:282-291 | however calls interleave between check and write, each member's role has the scope of its group's type and a key is a system key iff it comes from the system group |
| KeyGrants.KeysAreBacked | usecase/group_usecase.go:252-279 | every step of every run that gives a user a normal key in a group belongs to a call whose caller, when it was checked, held the key in that group, or gave a role that got the key since, or put the key into the user's role while holding it in the role's group or managing global roles, or founded the group or the user; or it is the user's registration |
| KeyGrants.BackedIffNothingNew | usecase/group_usecase.go:149-160 | a membership gives nothing its caller lacked iff the keys the role got since the check are the caller's own |
| LateKeys.LateKeyIsGiven | usecase/group_usecase.go:206-250 | a run from the seeded store in which a key joins the role between check and write |
| KeyGrants.RolesStayInOrder | usecase/role_usecase.go:230-251 | however calls interleave, role names stay unique within a group and roles hold known keys only |
| PermissionRuns.NeverEmptyIff | usecase/group_usecase.go:180-199 | in every run, the system group always has a member iff no removal or deletion is written of a user who is by then its only one |
| PermissionRuns.TokenRegistersOnce | usecase/user_usecase.go:280-349 | however many registrations read a token before one of them uses it, exactly one user comes of a used token and none of an unused one |
| PermissionRuns.InvitedUserRegisters | usecase/user_usecase.go:280-349 | a run from the seeded store in which a token is issued and a new user registers with it |
| PermissionRuns.SystemGroupNeverEmpty | usecase/group_usecase.go:180-199 | in particular: while no removal writes on a check another removal has outdated, the system group keeps a member through removals and user deletions |
| PermissionRuns.OverlappingRemovalsEmptyIt | usecase/group_usecase.go:165-202 | when two administrators are the only members, both removals pass their checks and together empty the group |
| PermissionRuns.GroupCanBeEmptied | usecase/group_usecase.go:165-202 | a run of the seeded controller that gets there and leaves the group empty |
| SystemKeyHolders.HeldIffKept | usecase/group_usecase.go:176-179 | for every statement and every key: the key has a holder afterwards iff some holder is untouched by the statement or the statement gives it to a member of the system group |
| SystemKeyHolders.AlwaysHeldIff | usecase/group_usecase.go:176-179 | in every run, a system key always has a holder iff no statement takes it from the last one without granting it anew |
| SystemKeyHolders.SoleMemberCanLoseItsKeys | usecase/group_usecase.go:206-250 | a role change the checks allow leaves a member and no holder of any system key |
| SystemKeyHolders.KeysCanBeLost | usecase/group_usecase.go:206-250 | a run of the seeded controller after which the system group has a member and no system key a holder |
| SystemKeyHolders.HolderCanLeaveOrEmptyItsRole | usecase/role_usecase.go:137-188 | the only holder may also be removed beside a keyless member, or have the keys taken off its role |

## Left out

- Startup parameters are a map from keys to texts; world records and other protobuf payloads are opaque.
- EventConvergence.RowsAreCanonical: the name and startup parameters of a row are as the lifecycle handler leaves them; the two updates of `StreamReset` that also write these columns do not run among its steps. No lifecycle statement reads either column.
- HostEventStream.RowsStayCanonical: excludes runs in which a stream goes live while an older checkpoint stays stored, because deleting or loading it failed; `StreamEpochs.RowsFollowEpoch` covers those too.
- SessionUsecase.SessionUsecase.StartSession: which port of the range is found free is what `PortProbe` proves; a panic of the probe counts as a refused call.
- `GetSession` writes the status of a row without a guard; it is no part of the session runs, and no claim is made that ENDED is final in its presence.
- `StartSession`, `StopSession` and `DeleteSession` run uninterrupted in `SessionUsecase`; among events they appear as a drain check, an RPC, and the save or deletion of any row at any time.
- Handler panics, which the watcher recovers from, count as the handler's return.
- Database calls of the lifecycle handler succeed; a failed call drops the event's effect until the next replay, and convergence is not claimed then.
- Crashes cost only what the program keeps in memory. Lost commits and clock skew between instances and the database are not modelled.
- The Go memory model: a critical section, a channel operation or a call to the outside is one step.
- `*drainState` pointers and mutexes are numbers; garbage collection of locks, which the program does not do either, is absent.
- The user-count seeding of a drain (`seedSessionUserCache`) is an arbitrary write to the count cache, since the theorems hold for arbitrary, even wrong, counts.
- ExclusiveExecution.ExclusiveIffRoundsFit: takes for granted that a slot is held at most `hold`, of which only the action and the final write have a timeout, and that a free slot is taken at once.
- ClaimQueue.NoStarvation: covers async jobs; requeued scheduled operations may be overtaken by design.
- PermissionRuns.OnlySystemGroupYieldsSystemKeys: group and role ids are fresh when drawn at random; the display names of groups and users are not modelled.
- PermissionUsecases.Usecases.RegisterWithToken: whether a token has expired is a parameter.
- BusInterleaving.SubscriberSeesItsStream: with overlapping publishes the order of two events differs between subscribers; which sends block is proved for them too, in `BusOverlap`.
- RetryBackoff.RetryWithBackoff: a context cancelled during a wait shows as a stop of the next call.
- gRPC and Connect handlers, JWT, password hashing, Docker, the registry, MinIO, Skyfrost, the front end and the command line.
- Log paging and in-application paging of scheduled operations.
- Group renaming, listing and read-permission filters: single guarded reads or writes.
