# ferroedge, verified

ferroedge runs WebAssembly tasks on edge nodes: a control-plane accepts tasks, picks a node, retries and stores results;
edge nodes admit requests, resolve modules through a compiled-module cache and run them under a timeout. This project
models the control-plane's dispatch protocol, its scheduler, breakers, registry and health checks, the edge node's
admission, accounting and module resolution, the cache, and the epoch timeouts, and proves what whole runs keep.

`dafny verify dfyconfig.toml` checks everything.

## Layout

| file | models |
|---|---|
| `Common` | runs as event lists, options and results, counting in maps |
| `CircuitBreaker` | the breaker object and its reading from history |
| `Scheduler` | candidate lists, rotation, least-loaded |
| `DispatchLoop`, `TightBounds`, `NestedLoops` | one dispatch: the flat machine and its bounds, a trace that meets them, and the nested loops that refine it |
| `ControlPlane` | the shared state and its critical sections |
| `DispatchRuns` | any number of dispatches, probes and registrations interleaved |
| `NodeTable`, `SelectionRuns`, `Fairness` | each node's entry, what selection answers in every reachable state, and how turns are shared, told from the run |
| `Policies`, `HalfOpen` | documented policies the code does not follow, and when that shows |
| `LockLevel`, `LockCompletion`, `QueueDecrement` | the same interleavings with the read-write lock modelled; completion under it; the two guards of the queue decrement |
| `Registry`, `Batch` | the write-once registry; batch submission |
| `ModuleCache`, `CacheRuns`, `CacheRecency` | the cache object, its overlapping calls, recency and expiry |
| `EdgeNode`, `EdgeServer`, `ModuleAgreement` | a node under overlapping requests, one call as code, and which module runs |
| `CrossService` | a node's count travelling back through probes into scheduling |
| `Sandbox` | epoch deadlines, timers and the memory limiter |

Objects the source updates in place are classes whose methods are proved against functions of the old state. Protocols
are machines over those functions: `Next` says what an event does, `Enabled` when it can happen, `Possible` that a run
only holds such events, and the theorems quantify over every possible run. Nested loops and whole calls written as methods
are tied to the machines by `NestedLoops.LoopsAreMachine` and `EdgeServer.CallIsRun`.

## Assumptions

- Task ids are fresh, the clock is monotone, and a hash map keeps its iteration order while its key set is unchanged.
- Counters are natural numbers, except the round-robin cursor, which wraps at 2^64, and the reported task count, which is
  cut to 32 bits.
- Calls are not cancelled and processes do not restart. RPCs, downloads, compilations and guest runs end with any outcome.
- Compilation and the digest are arbitrary functions; no collision freedom is assumed.
- Requests and warm-ups reaching a node come from the control-plane: a reference carries the registered digest, and a
  warm-up carries the registered bytes. `honest` marks runs in which downloads return the registered bytes.
- One health checker probes a node at a time.

## Where the code and its documentation differ

The model follows the code; each entry names the members that say exactly when the difference shows.

- services/control-plane/src/api/handlers.rs:287 takes a read guard and, before releasing it, waits for the write guard of the same lock.
  `LockLevel` models both guards; elsewhere the decrement is one atomic step. As written, a run that
  has come to rest has ended all its dispatches if and only if no selection of any of them came back empty
  (`AllEndExactly`); one that did also starves dispatches whose own selections all answered (`StuckStarvesOthers`).
- The half-open state is documented as one probe (services/control-plane/src/circuit_breaker.rs:20); it admits every request
  (`HalfOpenAdmitsEveryRequest`, `HalfOpen.ProbesExactly`).
- SYSTEM_DESIGN.md:187 counts ResourceExhausted as a breaker failure; the code records nothing for it
  (`RefusalsMatterExactly`).
- SYSTEM_DESIGN.md:147-148 compares load ratios; the code compares raw active tasks (`LeastRatioExactly`),
  and leaves out full nodes, which the document keeps as candidates (`FullNodesRefused`).
- services/control-plane/src/state.rs:38-39 describes a count of tasks; `total_retried` counts picks (`RetriesAreTasks`).
- `invalidate` leaves the byte total alone, and an insert into a full cache subtracts the least recent entry even when
  it replaces another one (`ExactIffNeverMisbooked`).
- Download and compile errors leave `active_tasks` incremented (`ActiveIsRunning`).
- When the blocking execution panics, its timer is not aborted and still advances the shared epoch
  (`AbortedUnlessPanicked`).

## Model

| member | source | states |
|---|---|---|
| CircuitBreakers.CircuitBreaker.constructor | services/control-plane/src/circuit_breaker.rs:37-47 | a new breaker is closed, with threshold 5 and cooldown 30 s |
| CircuitBreakers.CircuitBreaker.AllowRequest | services/control-plane/src/circuit_breaker.rs:53-70 | the answer and the whole new state are the specification's; an open breaker past its cooldown turns half-open |
| CircuitBreakers.CircuitBreaker.RecordSuccess | services/control-plane/src/circuit_breaker.rs:73-76 | the new state is the specification's |
| CircuitBreakers.CircuitBreaker.RecordFailure | services/control-plane/src/circuit_breaker.rs:83-97 | the new state is the specification's |
| CircuitBreakers.ReplaySummary | services/control-plane/src/circuit_breaker.rs:53-97 | after any timed call history the fields are the history's summary: failures since the last success, time of the last failure, and for each state exactly when it holds |
| CircuitBreakers.RefinesHistory | services/control-plane/src/circuit_breaker.rs:53-97 | for every timed history the answer and the state equal a stateless reading of the history, if and only if the threshold is at least 1 |
| CircuitBreakers.HalfOpenAdmitsEveryRequest | services/control-plane/src/circuit_breaker.rs:68 | a half-open breaker admits any number of requests and stays as it is until an outcome is recorded, against the one-probe comment |
| CircuitBreakers.YesPastCooldown | services/control-plane/src/circuit_breaker.rs:53-70 | after any timed history that tripped the breaker, `allow_request` has said yes since the last outcome exactly as often as it was asked past the cooldown |
| Scheduling.CandidatesExact | services/control-plane/src/scheduler/least_loaded.rs:26-35 | a candidate list holds exactly the registered nodes that are healthy, not excluded and, when asked, below their limit |
| Scheduling.MinActive | services/control-plane/src/scheduler/least_loaded.rs:37 | the least load in the list: attained, and a lower bound |
| Scheduling.WithActive | services/control-plane/src/scheduler/least_loaded.rs:38-42 | exactly the candidates of that load |
| Scheduling.SelectNodeExcluded | services/control-plane/src/scheduler/round_robin.rs:44-59 | the candidate at the cursor modulo the list, and a cursor that moves, with wrap-around, only when a node is picked |
| Scheduling.SelectNode | services/control-plane/src/scheduler/round_robin.rs:31-39 | none exactly when no registered node is healthy; otherwise a registered healthy node |
| Scheduling.PickSound | services/control-plane/src/scheduler/round_robin.rs:44-59 | rotation picks an eligible node, and has no candidate exactly when no node is eligible |
| Scheduling.LeastLoadedExact | services/control-plane/src/scheduler/least_loaded.rs:22-54 | none exactly when no eligible node has headroom; otherwise an eligible node of minimum raw load, whatever the tie-break |
| Scheduling.RatioFails | SYSTEM_DESIGN.md:148 | the documented load ratio fails: for any two candidates with limits 1 < a < b, loads and a tie-break under which the pick has the larger ratio |
| Scheduling.LeastRatioExactly | services/control-plane/src/scheduler/least_loaded.rs:37-42 | comparing raw loads picks the least ratio, for all loads and tie-breaks, if and only if any two candidates have equal limits or one limit is at most 1 |
| Scheduling.FullNodesRefused | services/control-plane/src/scheduler/least_loaded.rs:26-35 | the documented candidates include full nodes: the code answers none where the policy has a pick if and only if some node is eligible and every eligible node is full |
| DispatchLoop.BudgetsAlwaysHold | services/control-plane/src/api/handlers.rs:239-247 | the three budgets are never overrun, at most one runs out, and each give-up point is reached only when its own budget did |
| DispatchLoop.LocalsAreTallies | services/control-plane/src/api/handlers.rs:239-290 | the loop's locals are exactly the tallies of what happened: empty selections, capacity replies, errors, RPCs, selections and milliseconds slept |
| DispatchLoop.ErrorNodesDistinct | services/control-plane/src/api/handlers.rs:381-392 | RPCs that end in an error go to pairwise distinct nodes, which are exactly the tried set, whose size is the error count |
| DispatchLoop.MeasureBoundsSteps | services/control-plane/src/api/handlers.rs:249-439 | one measure over both nested loops falls at every step, so steps taken plus measure left never exceed 147 |
| DispatchLoop.DispatchBounds | services/control-plane/src/api/handlers.rs:249-439 | against any environment: at most 33 RPCs, 36 selections, 7000 ms of sleep and 147 steps |
| TightBounds.BoundsAttained | services/control-plane/src/api/handlers.rs:249-439 | with the decrement of line 287 as one atomic step, one environment makes a dispatch use all 33 RPCs, 36 selections, 7000 ms and 147 steps, so no bound can be lowered |
| DispatchLoop.ResultExplained | services/control-plane/src/api/handlers.rs:264-277 | the result about to be stored says what the dispatch saw: the last reply and the node that gave it, or, with no output and no time, which budget ran out and the last error, in the source's own words |
| NestedLoops.AnswersDetermineTrace | services/control-plane/src/api/handlers.rs:226-462 | two traces of the same length with the same answers are the same trace |
| NestedLoops.LoopsAreMachine | services/control-plane/src/api/handlers.rs:249-439 | the nested loops in big steps take exactly the steps of the flat machine, with the same answers, counts and sleep |
| NestedLoops.ChooseNode | services/control-plane/src/api/handlers.rs:251-290 | the inner scheduling loop computes the big-step function |
| NestedLoops.DispatchTask | services/control-plane/src/api/handlers.rs:239-461 | the nested loops with their mutable locals store the result, and make the RPCs, selections and sleep, of the machine's run, within the bounds |
| ControlPlane.SharedState.constructor | services/control-plane/src/state.rs:44-62 | empty tables, zero counters, cursor at zero |
| ControlPlane.SharedState.SelectNodeForTask | services/control-plane/src/api/handlers.rs:158-190 | the pick and the whole new state: every breaker asked, the cursor moved only by a round-robin pick and left alone by an empty selection |
| ControlPlane.SharedState.AskBreakers | services/control-plane/src/api/handlers.rs:164-169 | the loop over the breakers asks each exactly once and adds exactly the refusing ones to the excluded set |
| ControlPlane.SharedState.CriticalSection | services/control-plane/src/api/handlers.rs:237-458 | each write-locked block of a dispatch changes the shared state as the specification says |
| ControlPlane.SharedState.RecordOutcome | services/control-plane/src/api/handlers.rs:334-340 | an outcome updates that node's breaker only, creating it closed when absent |
| ControlPlane.SharedState.RegisterNode | services/control-plane/src/api/handlers.rs:802-817 | registration replaces the entry, whatever it was: idle, healthy, limit 10 unless given |
| ControlPlane.SharedState.CheckAllNodes | services/control-plane/src/health.rs:19-83 | a round over a snapshot, with arbitrary other writers between its updates, applies each reply to its node if it is still there and counts the replies |
| ControlPlane.ProbeRoundExact | services/control-plane/src/health.rs:21-78 | a node other writers leave alone ends healthy with the reported load when it replied, unhealthy with its old load when it did not, and unchanged when it was not probed |
| ControlPlane.RepliesCountHealthy | services/control-plane/src/health.rs:34-78 | the round's count is the number of probed nodes that the table then shows healthy |
| DispatchRuns.TableAlwaysValid | services/control-plane/src/api/handlers.rs:802-817 | in every interleaving the node table maps ids to their own entries and iterates over each once |
| NodeTable.EntryReadOff | services/control-plane/src/health.rs:39-78 | in every interleaving a node has an entry if and only if it ever registered, and the entry is the limit of its latest registration, the latest reply since, and whether its latest registration or probe was a registration or a reply |
| NodeTable.SilentIsNotPicked | services/control-plane/src/health.rs:54-78 | after a failed probe no selection picks the node, under either strategy, until it replies or registers again |
| DispatchRuns.Projection | services/control-plane/src/api/handlers.rs:226-462 | whatever interleaves, a dispatch stands where its own trace of the flat machine says |
| DispatchRuns.InterleavedBounds | services/control-plane/src/api/handlers.rs:239-290 | the dispatch bounds hold in every interleaving of any number of dispatches, probes and registrations |
| DispatchRuns.InterleavedErrorsDistinct | services/control-plane/src/api/handlers.rs:164-189 | in every interleaving the erring RPCs of one dispatch go to distinct nodes, the tried set is those nodes, and no tried node is called again |
| DispatchRuns.Conservation | services/control-plane/src/api/handlers.rs:237-277 | in every interleaving: submitted = succeeded + failed + unfinished; stored successes and failures number exactly the totals; `queued` is the number of dispatches between increment and decrement; a result is stored exactly for the finished dispatches |
| DispatchRuns.ResultsAreFinal | services/control-plane/src/api/handlers.rs:354-358 | no continuation of a run replaces or removes a stored result |
| DispatchRuns.ResultsAlwaysExplained | services/control-plane/src/api/handlers.rs:448-458 | every stored result in every interleaving is accounted for by its dispatch's own trace |
| DispatchRuns.RetriesCounted | services/control-plane/src/api/handlers.rs:292-300 | `total_retried` counts nodes picked after an error, one per pick, over all dispatches |
| DispatchRuns.RetriesAreTasks | services/control-plane/src/state.rs:38-39 | `total_retried` is the documented number of retried tasks if and only if no dispatch picked twice after an error |
| Policies.RetriedTwice | services/control-plane/src/api/handlers.rs:292-300 | a run in which one task retried twice makes the counter exceed the number of retried tasks |
| DispatchRuns.Progress | services/control-plane/src/api/handlers.rs:226-462 | with the decrement atomic, an unfinished dispatch can always take its next step within a second |
| DispatchRuns.StepsLeft | services/control-plane/src/api/handlers.rs:226-462 | a dispatch without a stored result has used fewer than 147 steps, so one that keeps moving is stored by then |
| DispatchRuns.SleptIsOnTheClock | services/control-plane/src/api/handlers.rs:286 | in every interleaving the sleep a dispatch has asked for has passed on the clock, but for the sleep it is in |
| DispatchRuns.Completes | services/control-plane/src/api/handlers.rs:226-462 | from every possible run each dispatch can be brought to its stored result: some possible extension stores it |
| SelectionRuns.BreakersFollowHistory | services/control-plane/src/api/handlers.rs:334-340 | in every interleaving each breaker is the replay of its node's logged asks and outcomes under a monotone clock |
| SelectionRuns.BlockedByLog | services/control-plane/src/api/handlers.rs:164-169 | a node is excluded if and only if its log shows five failures since the last success and a last failure under 30 s old |
| SelectionRuns.SelectionExact | services/control-plane/src/api/handlers.rs:158-190 | in every reachable state, told from the run alone: selection returns a node that registered, was last heard from, is untried and cleared by its log (under least-loaded, last reported below its limit and with the least load), and none if and only if there is no such node |
| HalfOpen.ProbesExactly | services/control-plane/src/api/handlers.rs:165-188 | in every interleaving the requests sent to a tripped node since its last recorded outcome are exactly the selections that picked it past its cooldown, so the documented single probe holds if and only if at most one did |
| HalfOpen.TwoProbes | services/control-plane/src/circuit_breaker.rs:20 | a run in which two dispatches both call the half-open node before either reports |
| Policies.RefusalsUnreported | services/control-plane/src/api/handlers.rs:397-411 | in every interleaving each reply a dispatch gets is reported to a breaker exactly once, or is about to be, except ResourceExhausted replies, which never are |
| Policies.RefusalsMatterExactly | SYSTEM_DESIGN.md:187 | in every run the code and the documented policy (refusals count as failures) disagree about a node if and only if failures and refusals since its last success reach five, the latest of them under 30 s old, while its failures alone are fewer or older; and then it is the code that admits it |
| Policies.RefusedNodeIsPicked | services/control-plane/src/api/handlers.rs:397-411 | a run in which five refusals in half a second do not keep the node from being picked |
| Fairness.TurnsFair | services/control-plane/src/scheduler/round_robin.rs:44-59 | of m consecutive cursor positions each of n candidates gets between floor(m/n) and ceil(m/n), unless the cursor wraps and n does not divide the word |
| Fairness.WrapIsUnfair | services/control-plane/src/scheduler/round_robin.rs:57 | for every n that does not divide 2^64, a stretch across the wrap that is unfair |
| Fairness.FairAcrossWrap | services/control-plane/src/scheduler/round_robin.rs:57 | rotation over n candidates is fair on every stretch if and only if n divides 2^64 |
| Fairness.CursorIsPicks | services/control-plane/src/api/handlers.rs:181-187 | in every run the round-robin cursor is the number of nodes picked so far modulo 2^64, empty selections not counted; under least-loaded it never moves |
| Fairness.PicksFollowCursor | services/control-plane/src/api/handlers.rs:174-188 | the picks of all dispatches together walk the candidate ids from where the cursor stood, whatever probes do to loads |
| Fairness.SeenCandidatesApart | services/control-plane/src/api/handlers.rs:175-180 | a candidate list seen in a run never holds a node twice |
| Fairness.RoundRobinFair | services/control-plane/src/api/handlers.rs:174-188 | over any stretch of any run whose candidate ids are unchanged, health checks included, each candidate is picked its fair share of times, whichever dispatches asked |
| LockLevel.RefinesInterleaving | services/control-plane/src/api/handlers.rs:158-190 | every run with the lock modelled is an interleaving, so what holds of all interleavings holds of it; that a dispatch can go on does not carry over and is stated below |
| LockLevel.StuckForever | services/control-plane/src/api/handlers.rs:287 | with the two guards as written, once a dispatch holds the read guard no write lock is granted and the shared state does not change in any continuation |
| LockLevel.StuckIsReachable | services/control-plane/src/api/handlers.rs:279-287 | that state is reachable: a single dispatch with no registered node gets there |
| LockLevel.AlwaysOrderly | services/control-plane/src/api/handlers.rs:162 | in every run a writer excludes readers, each dispatch waits at most once, and holders and waiters stand where that guard is taken |
| LockLevel.LockNeverWedges | services/control-plane/src/api/handlers.rs:279-287 | unless a dispatch is stuck between the two guards, a wanted lock can be granted or released |
| LockLevel.DispatchProgress | services/control-plane/src/api/handlers.rs:279-287 | every unfinished dispatch can move or waits for a lock that can, unless a dispatch is stuck between the guards; with one write guard none ever is |
| LockCompletion.CompletesUnderLock | services/control-plane/src/api/handlers.rs:226-462 | with the decrement under one write guard, from every run of the lock, whoever holds it and whoever waits, each dispatch can be brought to its stored result |
| QueueDecrement.EndsUnlessSelectionEmpty | services/control-plane/src/api/handlers.rs:251-290 | one dispatch alone, with no other to hold the lock: against every environment it ends, as written, if and only if none of its selections comes back empty |
| QueueDecrement.NeverPastDecrement | services/control-plane/src/api/handlers.rs:287 | in every run as written each dispatch has met at most one empty selection, and then stands at the enqueue, the sleep or the decrement; it never gives up for want of nodes |
| QueueDecrement.EmptySelectionIsFatal | services/control-plane/src/api/handlers.rs:279-287 | a dispatch that meets one empty selection has no result in any continuation |
| QueueDecrement.NoNodesNeverStored | services/control-plane/src/api/handlers.rs:264-277 | as written, "no nodes available" is never stored |
| QueueDecrement.HarmlessUntilEmptySelection | services/control-plane/src/api/handlers.rs:287 | while no selection has come back empty, every unfinished dispatch can move or waits for a lock that can |
| QueueDecrement.AllEndExactly | services/control-plane/src/api/handlers.rs:279-287 | any number of dispatches under the lock as written: once nothing more can move, all of them have ended if and only if no selection of any of them came back empty |
| QueueDecrement.WedgeIsQuiescent | services/control-plane/src/api/handlers.rs:287 | a run as written in which nothing can move and a dispatch has not ended |
| QueueDecrement.StuckStarvesOthers | services/control-plane/src/api/handlers.rs:287 | once a dispatch is stuck, one submitted afterwards has no result in any continuation, though none of its own selections came back empty |
| QueueDecrement.StarvationIsReachable | services/control-plane/src/api/handlers.rs:287 | such a run exists |
| Registry.ModuleRegistry.constructor | services/control-plane/src/registry.rs:21-25 | the registry starts empty |
| Registry.ModuleRegistry.Store | services/control-plane/src/registry.rs:30-56 | refused exactly when the key is taken, and then nothing changes; otherwise one entry is added with its size and digest |
| Registry.ModuleRegistry.Get | services/control-plane/src/registry.rs:59-61 | the stored entry, exactly for stored keys |
| Registry.KeyInjective | services/control-plane/src/registry.rs:36 | pairs with colon-free names share a key only when equal |
| Registry.KeyUnambiguous | services/control-plane/src/registry.rs:36 | a pair is the only one with its key if and only if neither half holds a colon |
| Batch.SubmitTasksBatch | services/control-plane/src/api/handlers.rs:677-735 | the handler's loops: ids in item order, a failed join answered "error", refusal of more than 100 items, or at exactly the first item that does not resolve, with its fault |
| Batch.RefinesInterleaving | services/control-plane/src/api/handlers.rs:692-735 | under a batch the dispatches form an interleaving |
| Batch.BatchOutcome | services/control-plane/src/api/handlers.rs:677-735 | in every run: an answered batch has one distinct id per item, each with a stored result; a batch failing at item i has spawned exactly i; one of more than 100 items none |
| Batch.SpawnsFollowItems | services/control-plane/src/api/handlers.rs:694-726 | item k was spawned k-th, when its input decoded and the pair it names had been uploaded, or, short of a full name, its inline bytes decoded; the batch was refused exactly at an item of which that was false |
| Batch.FaultsExactly | services/control-plane/src/api/handlers.rs:747-785 | which items are refused and with what: input that does not decode, a named pair not in the registry, no pair and no inline bytes, or inline bytes that do not decode |
| Batch.SpawnedItemsFinish | services/control-plane/src/api/handlers.rs:708-729 | however the batch ended, every spawned item can still be brought to its one stored result |
| ModuleCache.CompiledModuleCache.constructor | crates/wasm-runtime/src/cache.rs:95-106 | empty, with capacity max(max_size, 1) |
| ModuleCache.CompiledModuleCache.GetCached | crates/wasm-runtime/src/cache.rs:112-149 | answer and new state: a live entry is promoted, an expired one dropped and counted as an eviction |
| ModuleCache.CompiledModuleCache.BeginGetOrCompile | crates/wasm-runtime/src/cache.rs:163-196 | the section before compilation: the lookup, plus a miss when it does not hit |
| ModuleCache.CompiledModuleCache.FinishGetOrCompile | crates/wasm-runtime/src/cache.rs:211-234 | the section after compilation: eviction accounting, then the put |
| ModuleCache.CompiledModuleCache.Invalidate | crates/wasm-runtime/src/cache.rs:240-243 | removes the key and nothing else, the byte total included |
| ModuleCache.PopExact | crates/wasm-runtime/src/cache.rs:138-146 | removing a key drops exactly that entry and keeps the others |
| CacheRuns.BoundedAndUnique | crates/wasm-runtime/src/cache.rs:95-106 | in every interleaving the size is at most max(max_size, 1) and keys are unique |
| CacheRuns.CacheConservation | crates/wasm-runtime/src/cache.rs:156-237 | in every interleaving: misses = size + evictions + invalidated + replaced below capacity + compiling + failed compiles |
| CacheRuns.SequentialIsClean | crates/wasm-runtime/src/cache.rs:156-237 | every sequential run without `invalidate` inserts only absent keys |
| CacheRuns.SequentialConservation | crates/wasm-runtime/src/cache.rs:156-237 | between the calls of such a run, misses = size + evictions + failed compiles |
| CacheRuns.ByteTotal | crates/wasm-runtime/src/cache.rs:58-59 | in every run the byte total is the cached bytes plus a drift that only invalidations, overwrites and saturation move |
| CacheRuns.ExactIffNeverMisbooked | crates/wasm-runtime/src/cache.rs:211-243 | the total is exact at every point of a run if and only if no event invalidates a non-empty entry or overwrites one of a size other than it subtracts; and then nothing saturates |
| CacheRuns.CleanByteTotal | crates/wasm-runtime/src/cache.rs:213-233 | on every clean run the total is exact and no subtraction saturates |
| CacheRuns.OverlapBreaksByteTotal | crates/wasm-runtime/src/cache.rs:156-237 | two overlapping compiles of one key leave the total at twice the cached bytes |
| CacheRecency.ListIsRecencyOrder | crates/wasm-runtime/src/cache.rs:112-149 | in every run the list is in order of last touch, as read off the run |
| CacheRecency.WhatLeaves | crates/wasm-runtime/src/cache.rs:212-233 | a key leaves in exactly three ways: its own expired lookup, its invalidation, or an insert of an absent key into a full cache when it is the least recently touched |
| CacheRecency.EntriesAreInserts | crates/wasm-runtime/src/cache.rs:211-234 | every cached entry is its key's latest insert, whatever touched it since, and its hit count is the hits since then |
| CacheRecency.LookupByAge | crates/wasm-runtime/src/cache.rs:120-148 | a cached key hits, with its latest insert's module, exactly while that insert is younger than the ttl |
| EdgeNode.EdgeAccounting | services/edge-node/src/server/grpc.rs:75-231 | in every interleaving: active_tasks = running + ended in a download or compile error; permits out = requests holding one; the totals count the other endings |
| EdgeNode.NeverSaturates | services/edge-node/src/server/grpc.rs:219-231 | the saturating decrement never meets zero |
| EdgeNode.ActiveIsRunning | services/edge-node/src/server/grpc.rs:75-80 | active_tasks is the running count if and only if no request ended in a download or compile error, and running requests never exceed the semaphore |
| EdgeServer.Server.constructor | services/edge-node/src/state.rs:12-22 | all permits free, all counters zero |
| EdgeServer.Server.ExecuteTask | services/edge-node/src/server/grpc.rs:50-274 | one whole call with its early returns: which reply, the cache's new state, permit returned, active count returned except after a download or compile error, one total moved, and which module ran |
| EdgeServer.Server.ResolveModule | services/edge-node/src/server/grpc.rs:112-189 | a hit answers at once; otherwise download, digest check and compile decide the module or which error; and the cache's new state |
| EdgeServer.Server.Health | services/edge-node/src/server/grpc.rs:276-286 | the reported count is the active count cut to 32 bits, exact if and only if it fits |
| EdgeServer.RepliesExactly | services/edge-node/src/server/grpc.rs:75-274 | which reply a call gives, each if and only if: no permit; no source; a download that failed, a digest that differs or a compile that failed, only with no live entry for the key; otherwise the guest's own outcome and time |
| EdgeServer.CallIsRun | services/edge-node/src/server/grpc.rs:50-274 | one uninterrupted call takes the node's machine through possible events, past the point where that module runs, to exactly the reply, accounting and cache of `ExecuteTask`, each error reply with its own ending |
| ModuleAgreement.AlwaysSound | services/edge-node/src/server/grpc.rs:112-189 | in every run each cached, compiling or running module is the compilation of bytes the registry vouches for |
| ModuleAgreement.RegistryIsFirstUpload | services/control-plane/src/api/handlers.rs:519-552 | the registry holds the first upload of each pair whose key no other uploaded pair has |
| ModuleAgreement.ModuleIsFirstUpload | services/edge-node/src/server/grpc.rs:112-189 | end to end: with colon-free names and honest downloads, a module executed for a reference is the compilation of the bytes first uploaded under that pair, through hits, misses, expiries, evictions, warm-ups and overlapping compiles |
| ModuleAgreement.ModuleHasRegisteredDigest | services/edge-node/src/server/grpc.rs:149-167 | whatever downloads return, an executed module is the compilation of bytes with the registered digest |
| ModuleAgreement.CacheProjection | crates/wasm-runtime/src/cache.rs:112-243 | a node's cache goes through a possible cache run, so the cache results hold on the node |
| ModuleAgreement.SharedKeyDisagrees | services/control-plane/src/registry.rs:36 | for any two pairs with one key, a run in which a node runs one pair's module for the other, which nobody uploaded |
| ModuleAgreement.AgreesIffColonFree | services/control-plane/src/registry.rs:36 | a pair's references run the pair's first upload in every run, whatever else is uploaded, if and only if neither its name nor its version holds a colon |
| CrossService.PlaneProjection | services/control-plane/src/health.rs:39-46 | the control-plane half of a joint run is an interleaving |
| CrossService.NodeProjection | services/edge-node/src/server/grpc.rs:276-286 | the node half is a run of the edge node |
| CrossService.ErrorsAccumulate | services/edge-node/src/server/grpc.rs:145-147 | download and compile errors only accumulate in active_tasks, in every continuation |
| CrossService.StaysSaturated | services/control-plane/src/health.rs:39-46 | every reading taken after the errors reports at least the limit, in flight or delivered |
| CrossService.NeverSelectedAgain | services/control-plane/src/scheduler/least_loaded.rs:26-35 | after as many download or compile errors as the registered limit and one later probe, least-loaded never picks the node again before it re-registers |
| CrossService.ReregisteredComesBack | services/control-plane/src/api/handlers.rs:802-817 | a node that registers again, however saturated it was, can be picked by least-loaded at once if and only if it is untried, its new limit is positive and its log clears it |
| CrossService.IdleHeadroom | services/edge-node/src/server/grpc.rs:280-283 | a probe of an idle node leaves it headroom if and only if its errors are fewer than its limit |
| Sandbox.LimitState.constructor | crates/wasm-runtime/src/sandbox.rs:238-241 | nothing denied yet |
| Sandbox.LimitState.MemoryGrowing | crates/wasm-runtime/src/sandbox.rs:55-74 | grants exactly what is at most the limit, and remembers a denial for good |
| Sandbox.CheckTrapsExactly | crates/wasm-runtime/src/sandbox.rs:118-132 | for any number of overlapping executions, a guest's next check traps if and only if some timer, its own or another's, fired after it set its deadline |
| Sandbox.EpochCountsTimers | crates/wasm-runtime/src/sandbox.rs:171-185 | the epoch is the number of timers fired, at most one per execution |
| Sandbox.EarlyTimerIsLost | crates/wasm-runtime/src/sandbox.rs:118-132 | a timer that fires before its own store's deadline is set does not stop that execution; from then on only another's can |
| Sandbox.ForeignTimerInterrupts | crates/wasm-runtime/src/sandbox.rs:171-185 | an execution can time out while its own timer is still armed |
| Sandbox.DeniedIsSticky | crates/wasm-runtime/src/sandbox.rs:55-74 | the denied flag is set exactly when some growth in the run was refused |
| Sandbox.OutcomeExplained | crates/wasm-runtime/src/sandbox.rs:252-348 | every reported outcome read off the run: a memory-limit error if and only if a guest call failed and some growth was refused; a timeout if and only if a call failed, none was refused, and it was the epoch trap or its text says interrupt; a trap if and only if it was neither; an interrupt means a timer fired since the deadline |
| Sandbox.OtherEndings | crates/wasm-runtime/src/sandbox.rs:118-132 | a returned guest, another error and a panic are each reported if and only if they happened |
| Sandbox.NoTimerNoInterrupt | crates/wasm-runtime/src/sandbox.rs:335-348 | if no timer fires nobody is interrupted; a timeout is then reported only for an error whose text says so |
| Sandbox.AbortedUnlessPanicked | crates/wasm-runtime/src/sandbox.rs:124-132 | the timer of an ended execution is or can be aborted if and only if it has not fired and the execution did not panic; after a panic it can still advance the shared epoch |

## Left out

- HTTP routing, JSON, base64, trace ids, telemetry and metrics: no hard property.
- gRPC channels, the connection pool and HTTP downloads: each is an arbitrary outcome; the pool's own mutex is not modelled.
- WebAssembly compilation and guest semantics, and SHA-256: arbitrary functions and arbitrary steps.
- The load tester, benchmarks, configuration and Docker files.
- The trait implementation of round-robin (services/control-plane/src/scheduler/round_robin.rs:10-26), which nothing calls; `list` of the registry and `stats` of the
  cache, which only read.
- Node addresses, which selection does not look at.
- Cancelled calls, restarts and removal of nodes.
- Wasmtime's own engine and store objects: their epoch and deadline are fields of the `Sandbox` machine.
- Fairness.RoundRobinFair: a stretch that crosses the cursor's wrap is covered only when the number of candidates
  divides 2^64; `FairAcrossWrap` shows that no other number is fair on every such stretch.
- CrossService.NeverSelectedAgain: assumes no later probe reads a count of 2^32 or more, which the reply would cut.
- EdgeServer.Server.ExecuteTask: one call at one clock reading with nothing in between; overlapping calls are in `EdgeNode`.
