# WDL protocols, modelled and proved in Dafny

WDL keeps its state in Redis and around it runs several small protocols: a Durable Object alarm shim, owner
leases with generation fencing, a two-level read cache, gateway routing caches, control-plane projections,
quota-limited token issue, database metadata, and the WebSocket lifecycle scheduler and proxy queue. What each
promises only shows over whole runs, where any two awaits of different requests may interleave.

Each protocol is a state and a set of atomic steps: the code between two awaits, one Redis command, one timer or
one reply. A step the code refuses leaves the state as it is, so every sequence of steps is a run and the main
theorems quantify over all of them. The control plane's transactions are modelled twice: as whole
transactions, whose effect is proved, and as sessions that watch, read and send EXEC one command at a time, which
are proved to be exactly those transactions. Where the source works in place, a class with the source's
fields has one method per step, proved equal to that step and to keep the protocol's invariant, its `Valid()`;
loops keep the source's shape and are proved against a function.

| protocol | files |
|---|---|
| alarm shim | AlarmTokens, AlarmProtocol, AlarmProofs, AlarmTheorems, AlarmShim |
| D1 owner lease, lease budget, drain | OwnerLease, OwnerProofs, OwnerTheorems, OwnerRegistry |
| Durable Object ownership and drain | DoOwner, DoRegistry |
| D1 read cache and router | OrderedMap, ReadCache, D1ReadCache, RouterCaches, RouterState, CacheCoherence |
| gateway routing caches | GatewayCaches, GatewayProofs, GatewayRuntime |
| promote, bump, reconcile, rebuild | Projections, ProjectionProofs, HostIndexes, ControlStore, Crons |
| their sessions | ControlSessions, SessionProofs, SessionTheorems |
| delegated token quota | DelegatedIssue, DelegatedClock, TokenStore |
| D1 metadata and references | D1Metadata, D1Sessions, D1SessionProofs, D1Store |
| WebSocket lifecycle and proxy | WebSocketLifecycle, WebSocketProofs, LifecycleManager, Utf8, ProxyQueue |
| route patterns and first match | Patterns, FirstMatch |

Four promises hold only under a condition a caller can check. Each has lemmas with the inputs that break it and
the exact condition: an alarm time of at least 1 (`AlarmTheorems.SetThenGetKeepsAlarmIff`), a lease budget made
no later than the guard time after the owner read (`OwnerTheorems.StaleStartIffDelayExceedsGuard`), a generation
counter that was not lost below the newest generation (`OwnerTheorems.GenerationsStayFreshIff`,
`DoOwner.DoGenerationsStayFreshIff`), and issuers that do not read a clock that is ahead
(`DelegatedClock.QuotaHoldsIffNoClockAhead`).

What the model takes as given:

- Random ids (alarm tokens, lock values, database ids, token ids, epoch symbols) are fresh; alarm ids contain no
  colon. JSON is an injective codec, so comparing stored text is comparing records.
- Redis commands, scripts and transactions are atomic, EXEC is aborted when a watched key changed or expired since
  it was watched (and may be when it was rewritten with the same value), and Redis time only moves forward. A
  task's own clock differs from Redis time by a fixed offset.
- The alarm backend's set is unconditional and its delete is conditional on the row token
  (rust/workflows/src/api/do_alarms/scripts.rs); a failed call may or may not have been carried out, but is not
  carried out later. Native Durable Object transactions nest and do not overlap.
- An actor is handed only owner records of its own task, as the D1 router ensures before dispatching locally.
- A host id is built from the storage id, so all owner records under one key carry the same storage id.
- A statement without a write keyword does not change the database, and `changed_db` is set when it did.
- A cron's id is given; nothing depends on ids being free of hash collisions.
- INCR hands out a version number once; a SCAN for host keys and a SCAN for token keys are one step each.

## Model

| member | source | states |
|---|---|---|
| `AlarmTokens.LineageUndoesFence` | do-runtime/alarm-shim-source.js:89-104 | the token a delete fence was built over is read back from it exactly when the fence id has no colon and the token is not empty |
| `AlarmTokens.FencesDoNotNest` | do-runtime/alarm-shim-source.js:93-104 | fencing the lineage of a fence gives a fence over the original token, never a fence over a fence |
| `AlarmTokens.FenceInjective` | do-runtime/alarm-shim-source.js:102-104 | two fences are equal only when their ids and their tokens are |
| `AlarmTokens.UuidIsNotFence` | do-runtime/alarm-shim-source.js:85-91 | a generated token is never taken for a tombstone and is its own lineage |
| `AlarmShim.Shim.EnqueueMutation` | do-runtime/alarm-shim-source.js:106-161 | a mutation joins the FIFO tail, or the open transaction's single reservation, created on first use; every other slot is untouched |
| `AlarmShim.Shim.SetStorageAlarm` | do-runtime/alarm-shim-source.js:299-338 | an accepted call puts the alarm in the row under a fresh token and, while nothing failed or fired, the backend is headed for it; refused exactly for a non-positive time or a closed, rolled-back or nested transaction |
| `AlarmShim.Shim.DeleteStorageAlarm` | do-runtime/alarm-shim-source.js:340-380 | an accepted call leaves no live alarm and, while nothing failed or fired, the backend headed for none; refused exactly where transactions refuse calls |
| `AlarmShim.Shim.GetStorageAlarm` | do-runtime/alarm-shim-source.js:382-415 | reports a time exactly for a live, valid alarm that is not in flight; while nothing failed or fired a read leaves the row alone and the backend is headed for it |
| `AlarmShim.Shim.ClaimStorageAlarm` | do-runtime/alarm-shim-source.js:433-453 | a claim answers the stored token and retry count and leaves the same alarm in the row, in flight |
| `AlarmShim.Shim.CompleteStorageAlarm` | do-runtime/alarm-shim-source.js:455-457 | afterwards no row of the claimed lineage is left, and a row of another lineage is untouched |
| `AlarmShim.Shim.BeginTransaction` | do-runtime/alarm-shim-source.js:578-600 | an accepted begin saves the current row, and only an outermost transaction admits alarm calls; a refused one changes nothing |
| `AlarmShim.Shim.EndCallback` | do-runtime/alarm-shim-source.js:600-646 | once the innermost callback has ended, alarm calls are refused |
| `AlarmShim.Shim.RollbackTransaction` | do-runtime/alarm-shim-source.js:693-702 | the row goes back to the savepoint and the collected effects are dropped, keeping the backend headed for the row |
| `AlarmShim.Shim.FinishTransaction` | do-runtime/alarm-shim-source.js:600-646 | the reservation is decided and a failed transaction's row restored, keeping the backend headed for the row |
| `AlarmShim.Shim.RestorableContext` | do-runtime/alarm-shim-source.js:124-128 | the innermost transaction that is still open |
| `AlarmShim.Shim.SettleTransaction` | do-runtime/alarm-shim-source.js:124-161 | the reservation becomes its last effect, or nothing when discarded, and the innermost open transaction becomes active, keeping the shim's invariant |
| `AlarmShim.Shim.BackendApplies` | rust/workflows/src/api/do_alarms/scripts.rs:28-66 | carrying out the call at the head changes neither the row nor, on a failure-free run, where the backend is headed |
| `AlarmShim.Shim.MutationSucceeds` | do-runtime/alarm-shim-source.js:323-374 | on a failure-free run a confirmed call leaves the live alarm alone, and an emptied queue means the backend holds exactly that alarm |
| `AlarmShim.Shim.MutationFails` | do-runtime/alarm-shim-source.js:275-288 | a failure touches the row only if it is the failed set's own, which goes, or the failed delete's own tombstone, which turns back into the row deleted |
| `AlarmProofs.MirrorKept` | do-runtime/alarm-shim-source.js:106-161 | every step of a failure-free run keeps: the backend, once the queue drains, ends at the live row, for the row as it is and for the savepoint a rollback would restore |
| `AlarmTheorems.NoLostAlarm` | do-runtime/alarm-shim-source.js:290-415 | on every interleaving of sets, deletes, reads and nested committed or rolled-back transactions without backend failures, an empty queue means the backend holds exactly the live row's token |
| `AlarmTheorems.RolledBackTransactionIsInvisible` | do-runtime/alarm-shim-source.js:578-646 | failing the outer transaction puts the row back and leaves the backend headed for the row before it |
| `AlarmTheorems.NewestAlarmSurvives` | do-runtime/alarm-shim-source.js:251-288 | a newly set alarm stays in the row under every mix of older mutations completing, failing or being compensated, older alarms completing, and later transactions committing or rolling back |
| `AlarmTheorems.DeletedAlarmStaysDeleted` | do-runtime/alarm-shim-source.js:340-380 | after a delete, of an alarm or of none, no older mutation and no later rollback brings an alarm back, whatever the backend answers |
| `AlarmTheorems.FailedSetTakesItsAlarmBack` | do-runtime/alarm-shim-source.js:323-338 | over the same runs, a set whose own backend call then fails leaves no row |
| `AlarmTheorems.DeleteFailsOrCompletes` | do-runtime/alarm-shim-source.js:355-374 | over the same runs, a delete whose own call fails puts back exactly the row that was deleted, unless that alarm completed meanwhile, and one that succeeds leaves none |
| `AlarmTheorems.TransactionRunsOnlyItsLastEffect` | do-runtime/alarm-shim-source.js:130-161 | however many alarm calls a transaction makes, a commit queues exactly the last call's backend request behind everything queued before and an abort queues none and restores the row |
| `AlarmTheorems.ClaimedAlarmIsHidden` | do-runtime/alarm-shim-source.js:433-453 | an alarm goes in flight exactly when it is due or already was, and from then on over every run without a new set or a failed call no read reports it |
| `AlarmTheorems.CompletionEndsItsAlarm` | do-runtime/alarm-shim-source.js:455-457 | whatever deletes, repairs, transactions and backend answers ran since an alarm was in the row, its completion leaves no row unless a new alarm was set |
| `AlarmTheorems.SetThenGetKeepsAlarmIff` | do-runtime/alarm-shim-source.js:56-83 | an accepted alarm survives the next read exactly when its time is at least 1: between 0 and 1 the stored time truncates to 0 and the row is dropped while the backend keeps its token |
| `OwnerRegistry.Registry.PassTime` | d1-runtime/owner-registry.js:888-889 | a record that is still stored is unchanged and within its TTL, and no ownership is committed by time |
| `OwnerRegistry.Registry.BeginSession` | d1-runtime/owner-registry.js:552-561 | a claim or takeover begins only for a task that is not draining, and a refused session changes nothing |
| `OwnerRegistry.Registry.ExecSession` | d1-runtime/owner-registry.js:568-605 | EXEC never lowers the counter and commits at most one ownership, which the record then names and whose generation is above all earlier ones |
| `OwnerRegistry.Registry.CompareAndRenew` | d1-runtime/owner-registry.js:487-497 | the lease is extended only over the exact record that was read |
| `OwnerRegistry.Registry.FinishRenewal` | d1-runtime/owner-registry.js:489-503 | the renewal succeeds exactly when the stored record is still the one read, and otherwise leaves the record |
| `OwnerRegistry.Registry.CheckDraining` | d1-runtime/actor.js:284-286 | a query passes the check only while its task is not draining |
| `OwnerRegistry.Registry.AssertCurrentOwner` | d1-runtime/owner-registry.js:929-947 | a query is let on only under the stored record of its own fence with at least the guard left on the lease |
| `OwnerRegistry.Registry.RenewNearExpiry` | d1-runtime/owner-registry.js:948-965 | a query is let on only with the lease now stored and at least the guard between its read and that lease |
| `OwnerRegistry.Registry.AssertLeaseBudget` | d1-runtime/actor.js:148-156 | SQL starts exactly before the local deadline; with no move begun and the guard made within the guard time of the read, it then starts under the stored, unexpired, newest ownership |
| `OwnerRegistry.Registry.PollIdle` | d1-runtime/actor.js:76-91 | the wait ends idle exactly when its owner task has no pending query, else it may time out, and an idle drain has no query of its task past admission |
| `OwnerRegistry.Registry.DeleteIfUnchanged` | shared/owner-protocol.js:154-176 | the record goes only if its task is draining and has no query past admission |
| `OwnerProofs.SessionsKept` | d1-runtime/owner-registry.js:552-605 | every step keeps: a session whose watched keys are unchanged read what is stored, and leases never outlive the record's TTL |
| `OwnerProofs.ClaimIsFreshIff` | shared/owner-lease.js:153-160 | a committed claim gets a generation above every earlier one exactly when a record was stored or the counter was not behind |
| `OwnerProofs.CommitRaisesCounter` | d1-runtime/owner-registry.js:319-332 | whatever was lost before, no commit lowers the counter, and a repair that was not overtaken brings it to its generation and changes neither record nor log |
| `OwnerProofs.NewestKept` | d1-runtime/owner-registry.js:468-504 | no step breaks increasing generations while the store remembers the newest one, lost and repaired counters included |
| `OwnerTheorems.GenerationsIncrease` | d1-runtime/owner-registry.js:753-793 | over claims, takeovers, moves, releases, expiry, counter losses and repairs, on every run that takes no step with the record gone and the counter behind, every committed owner has a generation above all earlier ones and the record is the newest |
| `OwnerTheorems.SupersededFenceStaysOut` | d1-runtime/owner-registry.js:929-934 | on such runs, once a later owner is committed an earlier fence never matches the record again |
| `OwnerTheorems.NextClaimIsFreshIff` | shared/owner-lease.js:120-160 | after any such run, an undisturbed claim keeps generations increasing if and only if the run does not end with the record gone and the counter behind |
| `OwnerTheorems.GenerationsStayFreshIff` | shared/owner-lease.js:120-160 | from any state such a run leads to, generations increase over every further run without another counter loss if and only if the counter is at least the newest generation |
| `OwnerTheorems.HeldKept` | d1-runtime/owner-registry.js:552-605 | until its lease ends, an ownership is ended only by a move or by a drain of its own idle task |
| `OwnerTheorems.SingleWriter` | d1-runtime/actor.js:122-156 | if the guard is made within the guard time of the owner read, every SQL start that passes the budget precedes the stored lease end and runs under the stored ownership, which is the newest while generations are remembered |
| `OwnerTheorems.NoTwoWriters` | d1-runtime/actor.js:287-291 | two queries that may start SQL at the same moment belong to the same task and generation |
| `OwnerTheorems.StaleStartIffDelayExceedsGuard` | d1-runtime/actor.js:122-127 | the delay bound is exact: a lapsed owner starts SQL beside a new owner exactly when the guard was made more than the guard time after the read |
| `OwnerTheorems.ClaimSucceeds` | d1-runtime/owner-registry.js:865-894 | an undisturbed claim of an unowned database commits, one generation above the counter |
| `OwnerTheorems.LostCounterRepeatsGeneration` | shared/owner-lease.js:120-136 | without the counter, a record that lapses takes its generation with it and the next claim repeats it |
| `OwnerTheorems.RepairRestoresCounter` | d1-runtime/owner-registry.js:319-332 | after any run, an EXEC never lowers the counter and a repair that was not overtaken restores it to its generation, changing nothing else |
| `OwnerTheorems.DrainedTaskStaysIdle` | d1-runtime/owner-registry.js:652-702 | once a drain has seen its task idle, no query of that task ever starts SQL again |
| `OwnerTheorems.ReleasedOnlyWhenIdle` | d1-runtime/owner-registry.js:506-549 | apart from moves a record leaves before its TTL only through a drain that saw its task draining and idle; a drain whose wait failed never removes it |
| `DoRegistry.Runtime.ExecSession` | do-runtime/owner-registry.js:450-541 | any write the session commits happened under the record's storage pointer, and a claim also outside a worker delete and above all earlier generations |
| `DoRegistry.Runtime.DecideSession` | do-runtime/owner-registry.js:479-529 | a session goes on to a write only if its task was not draining when it decided |
| `DoRegistry.Runtime.EvalRenewal` | do-runtime/owner-registry.js:65-76 | the script answers 1 exactly when it wrote, and otherwise leaves the record |
| `DoRegistry.Runtime.BeginInFlightDispatch` | do-runtime/state.js:98-102 | a dispatch is admitted and counted exactly while its task is not draining, so never for a drained one |
| `DoRegistry.Runtime.EndInFlightDispatch` | do-runtime/state.js:104-107 | exactly this task's count drops by one, never below zero |
| `DoRegistry.Runtime.FinishDrainWait` | do-runtime/state.js:114-136 | the wait answers drained exactly when its task is draining with nothing in flight |
| `DoRegistry.Runtime.ReleaseIfEqual` | do-runtime/owner-registry.js:742-754 | the record goes only if its task is draining with nothing in flight |
| `DoOwner.DoWritesAreFenced` | do-runtime/owner-registry.js:450-541 | on every run that takes no step with the record gone and the counter behind: each write of the record happens under the record's storage pointer, each claim also outside a worker delete and above all earlier generations, each renewal under its predecessor's fence, and the stored record is the last write |
| `DoOwner.DoSupersededFenceStaysOut` | do-runtime/owner-registry.js:550-598 | on such runs, once a later claim is committed an earlier owner never passes its assertion again |
| `DoOwner.DoGenerationsStayFreshIff` | do-runtime/owner-registry.js:450-541 | from any state such a run leads to, claims take growing generations over every further run without a counter loss if and only if the counter is at least the newest generation |
| `DoOwner.DoDrainedStaysIdle` | do-runtime/index.js:393-417 | on every run, once a task's wait answered drained it never dispatches again |
| `DoOwner.DoReleasedOnlyWhenDrained` | do-runtime/owner-registry.js:757-785 | a record leaves before its TTL only for a draining task with nothing in flight |
| `DoOwner.RenewalFollowsThePointer` | do-runtime/owner-registry.js:632-682 | a renewal overtaken by a storage move is refused, an undisturbed one extends the lease |
| `OrderedMap.Locate` | d1-runtime/read-cache.js:201-206 | the index of a key in an insertion-ordered map, with what deleting it there leaves |
| `D1ReadCache.DropExpired` | d1-runtime/read-cache.js:209-213 | the purge visits every entry and removes exactly the expired ones, giving their sizes back |
| `D1ReadCache.ResultCache.DeleteEntry` | d1-runtime/read-cache.js:201-206 | removes the entry under the key, if any, and its size |
| `D1ReadCache.ResultCache.PurgeExpired` | d1-runtime/read-cache.js:209-213 | exactly the unexpired entries stay, in order |
| `D1ReadCache.ResultCache.BeginRead` | d1-runtime/read-cache.js:220-257 | purges, then hits and moves the entry last, misses with a token, or bypasses an oversized key |
| `D1ReadCache.ResultCache.FinishRead` | d1-runtime/read-cache.js:266-296 | stores only under the current epoch and version and within the byte bound, then evicts oldest entries |
| `D1ReadCache.ResultCache.MarkInvalid` | d1-runtime/read-cache.js:305-311 | empties the cache and ages every token |
| `D1ReadCache.ResultCache.RetireAs` | d1-runtime/read-cache.js:298-302 | empties the cache under a fresh epoch |
| `D1ReadCache.CacheKeyStringsCouldFit` | d1-runtime/read-cache.js:153-169 | the countdown with early exit answers exactly whether twelve bytes per code unit of the key strings fit |
| `ReadCache.BeginAccounted` | d1-runtime/read-cache.js:220-257 | beginning a read keeps distinct keys and the byte sum, and adds nothing |
| `ReadCache.HitIsStored` | d1-runtime/read-cache.js:237-256 | a hit returns the payload stored under the key, unexpired, and makes it the newest |
| `ReadCache.FinishAccounted` | d1-runtime/read-cache.js:266-296 | after a store the byte sum and both bounds hold and the entry just stored is there; otherwise nothing changed |
| `RouterState.ReadCaches.RemoveRouterReadCache` | d1-runtime/router.js:87-96 | a removed cache gives back exactly its bytes |
| `RouterState.ReadCaches.EnforceByteBudget` | d1-runtime/router.js:99-104 | oldest databases go until the shared budget holds |
| `RouterState.ReadCaches.MakeRoomForOne` | d1-runtime/router.js:119-123 | oldest databases go until there is room for one more |
| `RouterState.ReadCaches.InvalidateRouterReadCache` | d1-runtime/router.js:133-139 | only an existing cache is invalidated, in its place |
| `RouterState.ReadCaches.BeginRead` | d1-runtime/router.js:213-234 | a hit or a miss makes the database the newest; a bypass keeps its place |
| `RouterState.ReadCaches.FinishRead` | d1-runtime/router.js:336-352 | a stored result makes its database the newest before the shared budget is enforced |
| `RouterCaches.EnforceOk` | d1-runtime/router.js:99-104 | enforcing the budget never reaches a newest cache that fits it |
| `RouterCaches.BeginRouterReadOk` | d1-runtime/router.js:196-234 | both byte sums and all bounds survive the beginning of a read |
| `RouterCaches.InvalidateDbOk` | d1-runtime/router.js:133-139 | both byte sums and all bounds survive an invalidation |
| `RouterCaches.ForgetOk` | d1-runtime/router.js:87-96 | both byte sums and all bounds survive forgetting a database, which is then gone |
| `RouterCaches.FinishRouterReadOk` | d1-runtime/router.js:336-352 | after a store both byte sums and all four bounds hold and the entry just stored survives both eviction loops |
| `CacheCoherence.CoherentKept` | d1-runtime/router.js:327-386 | every step keeps: nothing stored, and nothing a token could still store, is older than the newest acknowledged write |
| `CacheCoherence.NoStaleRead` | d1-runtime/router.js:86-139 | on every run over many databases, every answered read, hit or miss, was computed at or after the newest write the router had acknowledged when it began, across evictions, recreations, pre-, post- and delayed invalidation and errors |
| `CacheCoherence.StoredReadHits` | d1-runtime/read-cache.js:237-256 | a stored result is served to the next read of its key until it expires |
| `CacheCoherence.InvalidatedReadMisses` | d1-runtime/read-cache.js:267-274 | after an invalidation nothing is served, and no older token stores |
| `GatewayRuntime.Runtime.SetBoundedCacheEntry` | gateway/runtime.js:359-367 | the entry is the newest and the oldest goes when the bound is passed |
| `GatewayRuntime.Runtime.ResolveAttempt` | gateway/runtime.js:254-281 | an answer given at the gate or from the cache comes from a read begun after everything delivered for its key, and no delivered promotion is rejected |
| `GatewayRuntime.Runtime.OnReply` | gateway/runtime.js:254-300 | a reply that is answered was begun after everything delivered for its key; earlier answers stay |
| `GatewayRuntime.Runtime.OnFailure` | gateway/runtime.js:295-297 | a failed read leaves no trace in cache or answers, and its reader is released |
| `GatewayRuntime.Runtime.DropCacheEntry` | gateway/runtime.js:454 | the key's entry, if any, is gone |
| `GatewayRuntime.Runtime.OnInvalidation` | gateway/runtime.js:404-460 | afterwards nothing cached for the key is left and no read of it that is in flight will be used |
| `GatewayRuntime.Runtime.ClearState` | gateway/runtime.js:103-115 | afterwards cache and gate are empty and no read in flight will be used |
| `GatewayProofs.CoherentKept` | gateway/runtime.js:241-351 | every step keeps: cached entries, the gate and every reply that would still be accepted come from reads begun after what was delivered |
| `GatewayProofs.ResolutionsFollowDeliveries` | gateway/runtime.js:241-351 | on every interleaving, each resolution, cached, fresh or rejected, comes from a Redis read begun after everything delivered for its key, a promoted and delivered key is not rejected, and the cache stays within its bound |
| `GatewayProofs.ResolutionCompletesUnlessOvertaken` | gateway/runtime.js:254-300 | an undisturbed first resolution answers, is cached and serves the next; a delivery in between makes the reply be dropped |
| `ControlStore.Store.DeclaresHosts` | control/routing.js:722-737 | answers exactly whether every route's host is declared for the namespace |
| `ControlStore.Store.HostIsOurs` | control/routing.js:757-761 | answers exactly whether a host holds only slots of the namespace |
| `ControlStore.Store.RoutesAreFree` | control/routing.js:740-786 | answers exactly whether no route meets a foreign host or another worker's slot |
| `ControlStore.Store.QueuesAreFree` | control/routing.js:692-719 | answers exactly whether no declared queue is another worker's |
| `ControlStore.Store.OwnsRemaining` | control/routing/route-plan.js:33-44 | answers exactly whether a slot that will remain on the host belongs to the namespace |
| `ControlStore.Store.StageNsHosts` | control/routing/route-plan.js:23-46 | every affected host is added to or removed from the reverse index by that answer |
| `ControlStore.Store.StageRouteRemovals` | control/routing.js:1042-1046 | exactly the old slots that are not declared again are deleted |
| `ControlStore.Store.StageVersionFlip` | control/routing.js:455-470 | every declared slot is written with the new version, and the version becomes active |
| `ControlStore.Store.StageConsumers` | control/routing.js:561-568 | every declared queue record is replaced |
| `ControlStore.Store.StageConsumerRemovals` | control/routing.js:553-572 | exactly the old queues that are not declared again lose their record |
| `ControlStore.Store.PromoteWithRoutes` | control/routing.js:1083-1149 | a promote planned on what its session read goes through exactly when the stored state allows it, is then the atomic promote, and leaves every slot, index entry and queue record what the active bundles declare; an overtaken one changes nothing |
| `ControlStore.Store.BumpActiveAndPromote` | control/routing.js:1156-1355 | the same of a bump with a version number of its own |
| `ProjectionProofs.OwnsAfterIsOwns` | control/routing/route-plan.js:23-46 | the planned reverse-index change is what the flip will leave |
| `SessionProofs.ActiveBundleStays` | control/routing.js:247-262 | while a version is active no transaction changes its bundle, so the unwatched read of the current version's metadata is current while the watched routes are unchanged |
| `SessionProofs.IndexFollowsPatterns` | control/routing.js:1402-1410 | a namespace enters or leaves a host's reverse-index entry only with a change of that host's patterns, so the unwatched reverse-index read is current while the watched patterns are unchanged |
| `SessionProofs.PromoteVerdict` | control/routing.js:920-964 | a promote session whose reads are current decides as the stored state would |
| `SessionProofs.PromoteAgrees` | control/routing.js:977-1076 | and stages exactly the writes the stored state asks for |
| `SessionProofs.ReconcileVerdict` | control/routing.js:1388-1425 | a reconcile session whose reads are current decides as the stored state would |
| `SessionTheorems.CommitIsAtomic` | control/optimistic.js:13-28 | on every reachable state, a promote, bump, reconcile, deploy or version delete whose EXEC is not aborted makes exactly the atomic transaction on the store as it is then, though its watches and reads were interleaved with other sessions |
| `SessionTheorems.SessionsAreAtomic` | control/optimistic.js:13-28 | every run of interleaved session commands leaves what its committed transactions make of the store one after another in commit order |
| `SessionTheorems.ProjectionsStayExact` | control/routing.js:1083-1439 | over every interleaving of those commands: a slot holds a worker's route exactly when its active version declares it, hosts belong to one declaring namespace, and queue records match active declarations |
| `SessionTheorems.OvertakenSessionIsRetried` | control/optimistic.js:13-28 | after another session's commit a ready session starts over, writing nothing, exactly when a key it watched changed or was rewritten, and otherwise commits atomically |
| `ControlStore.GroupByHost` | control/shared.js:405-423 | grouping the scopes read one after another gives exactly their inverse, without empty names or sets |
| `ControlStore.ScanKeys` | control/shared.js:340-353 | the scan returns exactly the distinct keys of all pages, and fails exactly when there are more than the limit |
| `HostIndexes.ReconcileSetsHosts` | control/routing.js:1388-1438 | the namespace's hosts become the body, other namespaces keep theirs, as in the routing state |
| `HostIndexes.RebuildInstallsInverses` | control/shared.js:425-436 | whatever the indexes held before, a rebuild that commits installs exactly the inverses |
| `HostIndexes.OvertakenRebuildIsDropped` | control/shared.js:362-369 | a reconcile between a rebuild's start and its commit makes the commit change nothing |
| `SessionTheorems.IndexesStayExact` | control/shared.js:362-437 | over every interleaving of reconcile, promote and other sessions with rebuilds' scans and reads, once a rebuild commits, whatever the indexes held, host declarations and the declared set are the exact inverses of the namespaces' hosts and stay so |
| `Crons.AllocateGenerations` | control/routing.js:502-518 | the loop hands out the numbers after the seed in order, and fails exactly when they would pass the safe range |
| `Crons.EntriesAfter` | control/cron-index.js:35-59 | the hash after a promote holds exactly the promoted ids, keeps old entries and numbers new ones |
| `Crons.AddedCronsGetFreshGenerations` | control/routing.js:473-525 | after any run from an empty state, a promote within the safe range leaves exactly the promoted ids, keeps kept entries, and numbers added crons above everything ever issued, even after all were removed |
| `DelegatedIssue.CountActiveDelegatedTokens` | auth/index.js:194-211 | the loop counts exactly the scope's unrevoked, unexpired records, and fails exactly when an unrevoked one has no valid expiry |
| `TokenStore.Store.AcquireTokenLock` | shared/redis-lock.js:19-27 | the lock is taken exactly when it is free, under a value of its own |
| `TokenStore.Store.CompareWithQuota` | auth/index.js:509-517 | whoever is admitted and still holds the lock finds fewer active tokens than the quota |
| `TokenStore.Store.CheckLockValue` | auth/index.js:162-177 | the attempt goes on exactly while the lock is its own |
| `TokenStore.Store.ExecIssue` | auth/index.js:545-560 | a token is written only while the lock is the issuer's, and the scope stays within its quota |
| `TokenStore.Store.ReleaseDelegatedIssueLock` | auth/index.js:147-153 | a release never takes another holder's lock, and its own is gone afterwards |
| `DelegatedIssue.CommitWithinQuota` | auth/index.js:478-586 | a commit adds one token to fewer than the quota, because its count still covers every active one |
| `DelegatedIssue.QuotaIsNeverExceeded` | auth/index.js:478-586 | over every interleaving of issuers, revokes, lock expiry and EXECs of unknown outcome, no scope exceeds its quota, provided no issuer reads a clock that is ahead once it holds the lock |
| `DelegatedClock.Issues` | auth/index.js:506-585 | an undisturbed issuer that counts fewer than the quota stores exactly one more token and leaves no lock or attempt behind |
| `DelegatedClock.AheadClockExceedsQuota` | auth/index.js:507-517 | for every positive quota, however little ahead the clocks are that issuers read, some run ends one token over the quota |
| `DelegatedClock.QuotaHoldsIffNoClockAhead` | auth/index.js:478-586 | over all runs whose clock reads are at most a bound ahead, a positive quota holds if and only if the bound lets no clock be ahead |
| `D1Store.Store.CommitDatabaseMetadata` | control/d1-store.js:147-201 | with current reads the database is committed exactly when its name is free, with record, name and set entry together; names stay one to one |
| `D1Store.Store.MarkDatabaseReady` | control/d1-store.js:209-239 | with current reads exactly a provisional database becomes ready |
| `D1Store.Store.RollbackProvisionalDatabaseMetadata` | control/d1-store.js:246-273 | with current reads exactly a provisional database is rolled back, and its name is free again |
| `D1Store.Store.RollbackExpiredProvisionalDatabaseMetadata` | control/d1-store.js:281-284 | the same, and only when the record the sweep read was past its deadline |
| `D1Store.Store.DeleteDatabaseMetadata` | control/d1-store.js:293-347 | with current reads a ready database goes, with its name and a tombstone, exactly when no retained version binds to it, and otherwise the versions that do are reported |
| `D1Store.Store.DependenciesPresent` | control/routing.js:628-666 | answers exactly whether every bound database still has its record |
| `D1Store.Store.StageReferrers` | control/lifecycle-indexes.js:174-185 | every bound database learns of the version |
| `D1Store.Store.PromoteVersion` | control/routing.js:1062-1065 | with current reads the version becomes active exactly when every database it binds to is present, and references hold afterwards |
| `D1SessionProofs.CommitIsAtomic` | control/d1-store.js:147-347 | on every reachable state, a metadata commit, ready, rollback or delete, or a deploy, promote, bump or version delete whose EXEC is not aborted makes exactly the atomic transaction on the store as it is then |
| `D1SessionProofs.SessionsAreAtomic` | control/optimistic.js:13-28 | every run of interleaved session commands leaves what its committed transactions make of the metadata one after another |
| `D1SessionProofs.MetadataStaysConsistent` | control/routing.js:628-683 | over every interleaving of those commands names and databases are one to one, no retained version, active or not, is bound to a database that is gone or not ready, and each database lists exactly the retained versions that bind to it |
| `D1SessionProofs.DeletedExactlyWhenUnbound` | control/d1-store.js:293-347 | over every interleaving, a delete of a ready database whose EXEC is not aborted changes nothing exactly when a retained version binds to the database at that moment, and otherwise removes its record and frees its name |
| `D1SessionProofs.DeleteBeforePromote` | control/d1-store.js:293-347 | of a database delete and a promote that binds the database, both about to send EXEC, a delete that goes first makes the promote change nothing |
| `D1SessionProofs.PromoteBeforeDelete` | control/d1-store.js:310-333 | and a promote that goes first makes the delete change nothing |
| `D1Metadata.ActiveVersionsKeepTheirDatabases` | control/routing.js:1062-1065 | on every run of whole transactions, even one whose deploys record nothing in the referrer index, no active version is bound to a database that is gone, not ready, or unaware of it |
| `D1Metadata.DeletedExactlyWhenUnreferenced` | control/d1-store.js:317-345 | on every run of whole transactions a ready database's delete changes nothing exactly when the referrer index lists a version for it, and otherwise frees its name; when every deploy records itself, as the source's do, that is exactly when a retained version, active or not, binds to it |
| `D1Metadata.IndexKept` | control/lifecycle-indexes.js:174-201 | every transaction, with deploys that record themselves as the source's do, keeps the referrer index exact: a version is listed under a database exactly when it is retained and binds to it, and only databases that exist are listed |
| `LifecycleManager.Manager.Register` | gateway/websocket-lifecycle.js:181-199 | a new session is in its key's group with its sequence, and no group in the map is empty |
| `LifecycleManager.Manager.Unregister` | gateway/websocket-lifecycle.js:200-207 | the session is not in the key's group afterwards, and nobody is told anything |
| `LifecycleManager.Manager.SettleSessions` | gateway/websocket-lifecycle.js:267-281 | one pass over the sessions the read was bound to |
| `LifecycleManager.Manager.FailSessions` | gateway/websocket-lifecycle.js:258-261 | unusable state fails exactly those sessions |
| `LifecycleManager.Manager.IsNews` | gateway/websocket-lifecycle.js:226-233 | answers exactly whether the event is newer than one of the group's sessions |
| `LifecycleManager.Manager.OnPolicyEvent` | gateway/websocket-lifecycle.js:384-398 | after an event every live group that is owed a read is pending, being read or up for retry |
| `LifecycleManager.Manager.OnReadAnswers` | gateway/websocket-lifecycle.js:263-281 | of the sessions the read was bound to, those that stay carry the sequence that was read |
| `LifecycleManager.Manager.OnReadUnusable` | gateway/websocket-lifecycle.js:256-262 | none of the sessions the read was bound to stays |
| `LifecycleManager.Manager.OnTimer` | gateway/websocket-lifecycle.js:317-327 | no live group that is owed a read is dropped when the retry timer fires |
| `LifecycleManager.Manager.OnFinally` | gateway/websocket-lifecycle.js:359-368 | when the loop ends, every live group that is owed a read is being read or left to an armed timer |
| `LifecycleManager.Manager.OnSubscriberConnect` | gateway/websocket-lifecycle.js:372-376 | after a reconnect every group in the map is owed a read and looked after |
| `LifecycleManager.Manager.OnSubscriberDisconnect` | gateway/websocket-lifecycle.js:378-381 | nothing is left up for retry and no timer is armed |
| `WebSocketProofs.NoLostReconcile` | gateway/websocket-lifecycle.js:240-381 | on every run: while connected, a live group with an unanswered request is pending, in the batch, or up for retry with the loop running or the timer armed; no group in the map is empty; no session is signalled twice |
| `WebSocketProofs.RequestStaysOwed` | gateway/websocket-lifecycle.js:334-369 | a request is discharged only by a read of its group that began after it and came back |
| `WebSocketProofs.NoSessionLeftBehind` | gateway/websocket-lifecycle.js:267-281 | after a read, a bound session is still registered only with the sequence that was read, and not at all when the worker is gone |
| `WebSocketProofs.IdleRequestIsAnswered` | gateway/websocket-lifecycle.js:334-354 | an idle scheduler answers a request with one read |
| `Utf8.Utf8ByteLength` | shared/utf8.js:11-35 | the counting loop gives the UTF-8 length of a UTF-16 string, lone surrogates included |
| `Utf8.AtLeastUnits` | shared/utf8.js:11-35 | a string never has fewer UTF-8 bytes than UTF-16 units |
| `Utf8.BoundedCloseReason` | gateway/websocket.js:50-62 | the reason is cut to whole characters within 123 bytes, as section 5.5 of RFC 6455 leaves, and not at all when it fits |
| `Utf8.BoundedIsLongest` | gateway/websocket.js:50-62 | every longer whole-character prefix is over the limit |
| `ProxyQueue.ShortcutIsExact` | gateway/websocket.js:705-712 | not measuring a string longer than the room left gives the same verdict, and accepted frames are measured truly |
| `ProxyQueue.Proxy.MarkDownstreamClosed` | gateway/websocket.js:304-311 | after a close nothing is queued, counted or on the gauge |
| `ProxyQueue.Proxy.OnClientMessage` | gateway/websocket.js:698-716 | a frame is queued last with its size in bytes, or the socket closes, exactly when the queue is full or that size does not fit the room left |
| `ProxyQueue.Proxy.TrySend` | gateway/websocket.js:651-680 | what is sent is the first unsent frame, still at the head of the queue |
| `ProxyQueue.Proxy.ReleaseClientMessage` | gateway/websocket.js:314-319 | while the socket is open only the head leaves the queue, and only after it was sent |
| `ProxyQueue.SentFramesAreAPrefix` | gateway/websocket.js:651-733 | on every run the frames sent upstream are the first ones received, each once, in order; bytes are the sum over the queue within 32 MiB and the count cap; after a close the gauge is zero; an open empty queue means all were sent |
| `Patterns.ParsedSlot` | control/topology.js:81-135 | a parsed slot is its value plus a trailing star exactly for prefixes, starts with a slash, and has no other star, query, fragment or space |
| `Patterns.SlotRoundTrip` | control/topology.js:115-134 | reading such a slot back gives its kind and value |
| `Patterns.SlotInjective` | control/topology.js:131-134 | distinct kinds or values never share a slot |
| `Patterns.ParseRoutes` | control/topology.js:142-157 | all patterns in order with distinct host and slot, or failure for an invalid or repeated one |
| `FirstMatch.KeepUsable` | gateway/lib.js:101-133 | exactly the usable fields are kept, the rest reported |
| `FirstMatch.ToSorted` | gateway/lib.js:134-139 | a sorted arrangement of the same entries |
| `FirstMatch.SortPatterns` | gateway/lib.js:101-141 | the usable fields in match order, one report for each other, and for a hash's fields distinct well-formed slots, as the scan needs |
| `FirstMatch.MatchPattern` | gateway/lib.js:163-170 | the first match of a sorted list is the unique best match, with nothing returned exactly when nothing matches |
| `FirstMatch.ResolvePattern` | gateway/lib.js:101-170 | sorting and scanning a hash's fields answers the unique best usable field, and none exactly when no usable field matches |
| `FirstMatch.SortedScansAgree` | gateway/lib.js:134-170 | the scan of any two sorted arrangements of the same entries finds the same entry |
| `FirstMatch.NoTies` | gateway/lib.js:152-155 | two entries that match one request are never tied |
| `FirstMatch.FieldOrderIsIrrelevant` | gateway/lib.js:101-141 | filtering, sorting and scanning any rearrangement of a hash's fields gives the same answer |
| `FirstMatch.BestExists` | gateway/lib.js:163-170 | when something matches, a best match exists |

## Left out

- Alarm `transactionSync` refusals, `deleteAll`, the `last_error` column and the dispatch retry of fired alarms.
- Alarm runs with failed backend calls are covered by the lineage theorems, not by NoLostAlarm: two overlapping deletes that both fail may leave a tombstone.
- AlarmTheorems.NoLostAlarm: excludes alarm times strictly between 0 and 1 and completions of fired alarms, because the first are lost by truncation and the second change the backend from its own side.
- OwnerTheorems.SingleWriter: excludes rebalance moves, which the source lets overtake SQL in flight, and gates the start of a statement, not its commit.
- OwnerRegistry.Registry.ExecSession, DoRegistry.Runtime.ExecSession: the registries' `Valid()` describes runs that lose no counter; runs that lose and repair counters are covered over the steps, by `OwnerTheorems.GenerationsIncrease` and `DoOwner.DoWritesAreFenced`.
- The observed-owner cache of the D1 registry, which only chooses where a query goes; the actor's assertion decides.
- Retry bounds (three claim attempts, five routing snapshots, five promote attempts): a run may retry any number of times.
- Watched keys of promote and bump that only guard what is not modelled (cron, session policy, delete lock, service bindings); leaving them out lets more sessions commit.
- Parallel width of renew, drain and reconcile workers: any number of them may be under way at once.
- CacheCoherence.NoStaleRead: says nothing of a write whose request timed out and still runs, nor of writes through another router before ownership returns.
- SQL classification by keyword and the JSON text of a cache key; a read is cacheable or not by its event.
- Parsing of pub/sub payloads, namespace validity, and what a route or pattern read returns beyond when it began.
- The session policy, platform-domain, export and service-binding parts of promote, and whole-worker deletes.
- SessionTheorems.ProjectionsStayExact: covers bundles whose routes and queues are distinct, as route and queue parsing leaves them, and not whole-worker deletes.
- Cron legacy projections whose sequence key is missing, fire slots and their expiry.
- DelegatedIssue.QuotaIsNeverExceeded: requires that no issuer reads a clock ahead of the one tokens expire by, which `DelegatedClock.QuotaHoldsIffNoClockAhead` shows is the exact condition.
- Binding names in a database's referrers: all of a version's entries under one database are one.
- Namespace choice, label and hash of issued tokens, and the issuer record re-read before the commit, which only refuses more.
- A restart promotion followed by a preserve promotion before the read: the session is kept, as the source does.
- Upstream error grace timing, lifecycle gates and close codes of the proxy; they decide when a send is tried or given up.
- `normalizeHost` and the platform-domain rule are a parameter of pattern parsing.
- Strings are sequences of characters except where UTF-16 units matter (close reasons and queued frames).
