# A model of incus-gh-runner

incus-gh-runner keeps a fleet of single-job Incus VMs at the size GitHub Actions demand asks for. This project models
the parts of it that are protocols rather than plumbing, and proves what they keep.

- **The reconciler** (`Reconciler`, `Invariant`, `Capacity`, `Convergence`, `Traces`, `Cooldowns`, `History`). Its state
  as a value, each transition as a function or relation, and theorems about every run: the structural invariant, the
  capacity ceiling, convergence, the stale-inventory barrier and the authority behind every fence. `Cooldowns` and
  `History` tell from the events of a run alone how long a failed operation is held back and what is known of each
  runner, and the reconciler's maps come to exactly that.
- **The world, the worker pool and the main loop** (`Host`, `Pool`, `MainLoop`, `Liveness`, `Workers`). `Host` adds the
  VMs that really exist and operations that take effect while they are in flight, whether or not they then report
  success. `Pool` adds N worker goroutines, an unbuffered work channel and a result buffer of capacity N. Every run of
  the pool is a run of the world, and every run of the world is a run of the reconciler, so the theorems carry down.
  `MainLoop` adds where the main loop stands, in its select, in a refresh or at a call inside a reconcile pass, since
  only from there is anything handed off. `Liveness` shows for the pool that every calm move brings it closer to convergence, and for
  the main loop that it always has such a move until it rests converged, going through refreshes where it must.
- **The imperative code** (`ReconcileState`, `Controller`). The class `ReconcileState` updates its maps in place, method
  by method as the Go code does, and is proved to perform exactly the reconciler's transitions; `Controller` is the
  `select` loop, and what both do is, call by call, a run of the main loop with its workers.
- **The demand path** (`Mailbox`, `DemandSource`, `EndToEnd`). The latest-wins mailbox under every interleaving, the
  reconnecting demand source with its session generations and backoff, and one transition system of source, mailbox,
  main loop, workers and world, in which a fence gets its meaning in terms of GitHub's callbacks.
- **The Incus backend** (`Launch`, `IncusServer`, `Lifecycle`, `Inventory`, `ProofSink`). Create and Delete, call
  by call, against an environment that may replace the instance between any two calls, the launch-identity round trip,
  the fair share of the inventory deadline, and the write-then-marker commit of job proofs.
- **Comparing network ACLs** (`Sorting`, `JSONKey`, `NetworkACL`). Sorting by the rules' JSON encoding and structural
  equality decide equality up to order.

`Types` and `Backoff` hold shared values and the two capped exponential delays. Integers that can overflow in the Go
code are modelled with their width: `time.Duration` is a 64-bit newtype, and the sum in `setDemand` wraps.

## Where the code falls short of a plain reading

- **A target can go negative.** `min_runners + assigned_jobs` is a 64-bit sum taken before it is capped.
  `Invariant.TargetBoundedExactly` gives the exact condition under which the target stays at or above `min_runners`,
  `Invariant.TargetCanBeNegative` an input outside it.
- **`max_runners` is not a hard ceiling.** `docs/docs/explanation/how-it-works.md:25` calls it one. While a fence is in
  flight its runner is not counted, so a replacement may be created, and both count again when the fence fails.
  `Limits.MaxRunnersExceeded` is such a run, `Capacity.CapacityCeiling` the bound that does hold, and
  `Capacity.CeilingBrokenExactly` says exactly which steps exceed it.
- **Workers need not drain at shutdown.** `Run` stops reading results after `Done`. `Limits.ShutdownCanStick` is a run
  that leaves a worker blocked forever; `Pool.ShutdownDrainsExactly` is the exact condition.
- **The failure cooldown is not quite doubling.** `nextFailureDelay` compares with `maximum/2`, so a delay whose double
  is `maximum - 1` jumps to `maximum`; `Backoff.FailureDelayClosedForm` says that this is the only exception.
- **A cooldown can be cut short.** Creates share one cooldown, and so do operations of one kind on one runner. A create
  that succeeds while another's cooldown runs ends it: `Limits.CooldownCutShort` is such a run, and
  `Cooldowns.HeldBackExactly` says exactly what is held back and until when.
- **A committed job proof does not survive a restart of its VM.** Both files lie under `/run`, a tmpfs
  (`docs/docs/reference/guest-contract.md:7`). After a restart a delivery with another job is accepted:
  `ProofSinks.ProofSink.RestartAdmitsAnother`. A restart between the two writes of one delivery leaves the marker
  without its proof, and `Deliver` reports success: `ProofSinks.ProofSink.MarkerCanOutliveProof`.
  `ProofSinks.ProofSink.MarkerMeansVerifiedProof` says that this is the only way to lose a proof.

## Model

| member | source | states |
|---|---|---|
| Invariant.StepKeepsValid | internal/controller/controller.go:236-249 | every transition keeps operations and runner locks mutually inverse, locked runners cached, IDs at most nextID, a list in flight alone, and fenced ⊆ created ⊆ cached, whatever the backend and GitHub answer |
| Invariant.StepKeepsTargetsObserved | internal/controller/controller.go:309-329 | with fresh create identities, deletes in flight target runners last seen terminal and fences runners last seen idle or ready |
| Invariant.RunKeepsValid | internal/controller/controller.go:86-107 | both invariants hold after any number of events |
| Invariant.OneOperationPerRunner | internal/controller/controller.go:337-341 | two operations in flight on one runner are the same operation |
| Invariant.TargetExactly | internal/controller/controller.go:276-292 | the target for any 64-bit job count: MinRunners for a negative one, MinRunners + jobs while that is at most MaxRunners, MaxRunners above that, and the wrapped sum where it does not fit |
| Invariant.TargetBoundedExactly | internal/controller/controller.go:276-292 | the target never exceeds MaxRunners, and is at least MinRunners if and only if MinRunners + jobs fits 64 bits |
| Invariant.TargetCanBeNegative | internal/controller/controller.go:285-285 | with one runner at least and as many jobs as fit 64 bits the target is negative |
| Capacity.StepChangesLive | internal/controller/controller.go:497-517 | the exact change of live capacity by every event other than a successful list |
| Capacity.ListedLive | internal/controller/controller.go:379-388 | after a list, live capacity is the number of listed runners that are neither terminal nor fenced |
| Capacity.TargetStaysCapped | internal/controller/controller.go:276-292 | over any run the target stays at or below MaxRunners, and at or above MinRunners as long as no demand overflows the 64-bit sum |
| Capacity.CapacityCeiling | internal/controller/controller.go:304-330 | over any run, live capacity ≤ max(live at the last inventory, MaxRunners) + fence failures applied since that inventory |
| Capacity.CeilingBrokenExactly | internal/controller/controller.go:364-403 | from within MaxRunners one step exceeds it if and only if it applies a failed fence at the limit or an inventory with too many live runners |
| Limits.MaxRunnersExceeded | internal/controller/controller.go:323-329 | a concrete run of two workers with MaxRunners 1 that ends with live capacity 2 |
| Limits.CooldownCutShort | internal/controller/controller.go:364-405 | a concrete run in which one of two creates fails, the other succeeds, and the next create is scheduled before the failure's delay is over |
| Convergence.CalmStep | internal/controller/controller.go:304-330 | without failures, news or new demand, 2·(distance to target + unscheduled terminals) + operations in flight falls by exactly one on every mutation scheduled or applied and is otherwise unchanged |
| Convergence.CalmRunsAreBounded | internal/controller/controller.go:304-330 | progress made plus measure left is constant over a calm run, so a calm run makes at most Measure(start) progress |
| Convergence.CalmStepApproaches | internal/controller/controller.go:316-329 | a create is scheduled only below target and a fence only above it, each moving live capacity by one |
| Convergence.ScaleUpCreatesExactly | internal/controller/controller.go:316-321 | a calm run from below target never overshoots, issues one create per unit of capacity gained and no fence |
| Convergence.ScaleDownFencesExactly | internal/controller/controller.go:323-329 | a calm run from above target never undershoots, issues one fence per unit of capacity shed and no create |
| Convergence.NothingToScheduleMeansConverged | internal/controller/controller.go:304-330 | a settled, cooled-down state has no mutation to schedule if and only if terminals are all being deleted and live == target, or live > target with no eligible runner |
| Convergence.QuietRunIssuedTheDeficit | internal/controller/controller.go:316-321 | a calm run that started at or below target and went quiet is on target and issued exactly target − live creates |
| Convergence.QuietRunShedTheExcess | internal/controller/controller.go:323-329 | a calm run that started at or above target and went quiet fenced exactly the capacity it lost, issued no create, and is on target or has no eligible runner left |
| Traces.StaleBarrier | internal/controller/controller.go:295-307 | between any failure applied and any later create, fence or delete scheduled lies a successful list that was itself scheduled after the failure |
| Traces.StaleUntilInventory | internal/controller/controller.go:379-388 | staleness ends only with a successful list |
| Traces.NoListAfterApply | internal/controller/controller.go:295-301 | applying any result leaves no list in flight |
| Traces.OperationOrigin | internal/controller/controller.go:345-350 | an operation that appears in flight was scheduled, unchanged, in between |
| Traces.SurvivorUnchanged | internal/controller/controller.go:343-350 | IDs are never reused: an operation in flight at two times is the same one |
| Traces.AppliedOnce | internal/controller/controller.go:364-372 | no operation's result is applied twice in a run |
| Traces.AuthorityOrigin | internal/controller/controller.go:389-395 | create authority comes only from an applied create, and records the generation it was scheduled under |
| Traces.BusyForgottenOnlyByDeletion | internal/controller/controller.go:398-402 | a runner named by the latest busy snapshot is forgotten as busy only together with the authority over it |
| Traces.FenceAuthority | internal/controller/controller.go:520-541 | every fence of r follows an applied create of r scheduled under the session generation that is current throughout, and r is not in the latest busy snapshot |
| Traces.ReconstructedNeverFenced | internal/controller/controller.go:528-531 | a runner known from an inventory before any create of it was applied is never fenced |
| Traces.NeverFencedAfterItsSession | internal/controller/controller.go:528-531 | once the generation a runner was created under has passed, it is never fenced |
| Cooldowns.HeldBackExactly | internal/controller/controller.go:433-459 | over any run, an operation may be tried at a time if and only if no operation in flight is on its runner and, where its kind and runner have failed n > 0 times in a row, the last failure's time plus the n-th delay has come |
| Cooldowns.NeverTriedEarly | internal/controller/controller.go:434-454 | after a failure applied at t, the n-th in a row for its kind and runner, none of them is scheduled or refused before t + the n-th delay, unless one that was in flight succeeds meanwhile |
| Cooldowns.SuccessStartsAgain | internal/controller/controller.go:364-405 | after a success nothing is held back, and the first failure that follows holds its kind and runner back for exactly the initial delay |
| History.InventoryIsLastListed | internal/controller/controller.go:484-494 | the cached inventory holds exactly the runners a snapshot lists, each as it is listed last |
| History.KnowledgeIsLearned | internal/controller/controller.go:364-431 | what every event changes about one runner: cached as last listed or created until unlisted or deleted, authority from creation and fence from fencing for as long, busy by the latest demand until deletion |
| History.KnowledgeIsHistory | internal/controller/controller.go:364-431 | over any run the reconciler's maps and sets say of each runner exactly what its history amounts to |
| History.IdleCandidateExactly | internal/controller/controller.go:520-541 | over any run a runner is eligible for fencing if and only if, by its history, it is cached idle or ready, was created in the session of the last demand, is neither busy in that demand nor fenced, and no operation in flight is on it |
| History.StaleExactly | internal/controller/controller.go:379-417 | the inventory is stale if and only if some failed or invalid result was applied and no valid inventory after it |
| Host.WorldStepKeepsValid | internal/controller/controller.go:364-417 | every step of the reconciler or of the world keeps the relation between cache, real VMs, in-flight effects and unapplied results |
| Host.CacheRefinesWorldThroughout | internal/controller/controller.go:294-330 | in every reachable non-stale state, VMs not cached were made by creates in flight and cached runners that are gone are targets of deletes in flight |
| Host.QuietCacheIsExact | internal/controller/controller.go:379-403 | with nothing in flight and no staleness the cached runners are exactly the VMs that exist |
| Host.WorldRunIsFreshRun | internal/adapters/incus/backend.go:576-590 | VMs named by fresh identities make every world run a reconciler run with fresh names, so the run theorems apply |
| Pool.SystemRefinesWorld | internal/controller/controller.go:60-108 | every step of loop, workers and channels is a step of the world, in which a result applied always belongs to a recorded operation: the unknown-ID branch of apply is never taken from Run |
| Pool.SystemStepKeepsValid | internal/controller/controller.go:142-166 | every step of the concurrent system keeps its invariant |
| Pool.OperationsConserved | internal/controller/controller.go:74-108 | in every reachable state each recorded operation is in exactly one worker slot or buffer cell, nothing else is, at most 2·Workers are outstanding, and the next result is of a recorded operation |
| Pool.SystemRunIsReconcilerRun | internal/controller/controller.go:60-108 | whatever workers and world interleave, the reconciler sees one of its own runs, in which created names are fresh |
| Pool.CacheRefinesWorldInTheSystem | internal/controller/controller.go:60-108 | the cache refinement holds in every reachable non-stale state of the concurrent system |
| Pool.DrainStep | internal/controller/controller.go:89-91 | after Done every worker move brings the workers closer to exit and no operation is released |
| Pool.NotStuckCanDrain | internal/controller/controller.go:142-166 | unless every worker has exited or is blocked on a full buffer, one of them can move |
| Pool.ShutdownDrainsExactly | internal/controller/controller.go:169-195 | once no worker can move after Done, all have exited if and only if at most Workers operations were outstanding |
| Pool.OverfullNeverDrains | internal/controller/controller.go:169-195 | with more than Workers operations outstanding at Done no schedule lets every worker exit |
| Limits.ShutdownCanStick | internal/controller/controller.go:89-91 | a concrete run with one worker that ends blocked forever |
| MainLoop.LoopStepKeepsValid | internal/controller/controller.go:304-330 | inside a pass the state stays settled and the runners still to come are cached, and after Done the loop stays in its select |
| MainLoop.LoopRunIsSystemRun | internal/controller/controller.go:86-107 | every run of the main loop with its workers is a run of the concurrent system, so what holds of those holds of it |
| Liveness.CalmMoveApproaches | internal/controller/controller.go:142-166 | every calm step of the concurrent system that achieves anything lowers one measure of it, and none raises it |
| Liveness.NeverStuckShortOfConvergence | internal/controller/controller.go:86-107 | wherever the loop stands, if not stale, cooling or awaiting bad news, and until it is back in its select converged with nothing in flight, it or a worker has a calm move that lowers the loop's measure; mutations are handed off only where a pass comes to them and lists only by a tick |
| Liveness.CalmExecutionsAreBounded | internal/controller/controller.go:60-108 | over any interleaving, a calm execution without refreshes makes at most SystemMeasure(start) moves that achieve anything |
| Liveness.ReachableConverges | internal/controller/controller.go:86-107 | every reachable open state of main loop and workers that is not stale, with nothing cooling down and no bad news returning, has a continuation without demand or failure, refreshes included and counted, of at most LoopMeasure moves, that ends in the select converged with nothing in flight |
| Workers.WorkerPool.Move | internal/controller/controller.go:142-166 | one move of a worker goroutine is a step of the concurrent system |
| Workers.WorkerPool.TrySend | internal/controller/controller.go:345-360 | the item is handed over if and only if some worker waits at the channel, and then to one that does |
| ReconcileLoop.ValidatedInventory | internal/controller/controller.go:484-494 | succeeds if and only if every runner is valid, with the snapshot as a map |
| ReconcileLoop.ReconcileState.SetDemand | internal/controller/controller.go:276-292 | performs exactly the demand transition: the target is the one for this job count, the generation the demand's, the busy runners those it names, empty names dropped, and nothing else changes |
| ReconcileLoop.ReconcileState.IsInventorying | internal/controller/controller.go:473-481 | true if and only if a list is in flight |
| ReconcileLoop.ReconcileState.CountLiveCapacity | internal/controller/controller.go:497-517 | the loop's count is the size of the set of live runners plus the set of creates in flight |
| ReconcileLoop.ReconcileState.FindIdleRunner | internal/controller/controller.go:520-541 | some runner that is idle or ready, not busy, created in the current generation, neither fenced nor locked; none only if there is no such runner |
| ReconcileLoop.ReconcileState.TrySchedule | internal/controller/controller.go:333-361 | an ID is spent exactly when neither cooldown nor lock forbids the attempt; an attempt fails only with no worker waiting; on success the operation is recorded, else nothing but the ID changes; each is a step of the main loop |
| ReconcileLoop.ReconcileState.Refresh | internal/controller/controller.go:295-301 | a list is tried exactly when nothing is in flight and no list cooldown runs, fails only with no worker waiting, and the loop goes on to the pass |
| ReconcileLoop.ReconcileState.ScheduleTerminals | internal/controller/controller.go:309-313 | deletes leave live capacity unchanged; each terminal runner left unscheduled is cooling down or found no worker waiting, and is cooling down if all that were tried were accepted |
| ReconcileLoop.ReconcileState.ScaleUp | internal/controller/controller.go:315-321 | at every iteration the local count is live capacity recomputed; it rises towards target and never past it |
| ReconcileLoop.ReconcileState.ScaleDown | internal/controller/controller.go:323-329 | the same downwards; a pass whose operations were all taken leaves nothing to do but what is cooling down |
| ReconcileLoop.ReconcileState.Reconcile | internal/controller/controller.go:304-330 | does nothing while stale or listing; otherwise is a pass of the main loop that only schedules, moves live capacity towards target without crossing it, leaves no create or fence to do but what is cooling down unless no worker is waiting, and no delete but what is cooling down or found no worker waiting |
| ReconcileLoop.ExhaustedMeansConverged | internal/controller/controller.go:304-330 | with nothing cooling down, having nothing left to do but what cools down is exactly convergence |
| ReconcileLoop.ReconcileState.RecordFailure | internal/controller/controller.go:440-454 | performs exactly the failure transition: a longer cooldown for that key alone, running from now for its delay, and a stale inventory |
| ReconcileLoop.ReconcileState.PruneRunnerKnowledge | internal/controller/controller.go:420-431 | authority and fences survive for exactly the runners in the snapshot |
| ReconcileLoop.ReconcileState.Apply | internal/controller/controller.go:364-417 | performs exactly the settle transition, or nothing for an unknown ID, and reports whether it succeeded |
| ReconcileLoop.ReconcileState.Observe | internal/controller/controller.go:379-403 | the kind-specific update on a valid answer, no change on an invalid one |
| ReconcileLoop.PassStep | internal/controller/controller.go:333-361 | one attempt inside a pass changes live capacity by its kind's effect, keeps the invariant, and is made whenever its target is neither locked nor cooling |
| ControllerRun.NewReconcileState | internal/controller/controller.go:252-273 | fails if and only if the startup inventory holds an invalid runner |
| ControllerRun.DemandedIsLastReceived | internal/controller/controller.go:92-98 | the demand a script leaves in force is the last one it offers before the channel is found closed |
| ControllerRun.Controller.OnDemand | internal/controller/controller.go:92-98 | sets exactly the received demand, then one reconcile pass |
| ControllerRun.Controller.OnResult | internal/controller/controller.go:99-102 | applies the oldest result once at a time read from the clock, with a reconcile pass exactly after a success |
| ControllerRun.Controller.OnTick | internal/controller/controller.go:103-105 | one refresh at a time read from the clock, refused only with no worker waiting, then one reconcile pass |
| ControllerRun.Controller.Handle | internal/controller/controller.go:86-107 | one ready case: a demand on an open channel is set and a pass follows, a closed channel or an empty one changes nothing, a result is applied once, a tick refreshes and then passes |
| ControllerRun.Controller.Loop | internal/controller/controller.go:86-107 | for any sequence of ready cases: a pass first, then every case handled in turn with only workers moving in between; the target and generation are those of the last demand received before the channel closed |
| ControllerRun.WaitForInitialInventory | internal/controller/controller.go:111-139 | the first list that succeeds, after waiting exactly the failure delays in turn, or none when cancelled first |
| ControllerRun.Controller.WaitForWorkers | internal/controller/controller.go:169-195 | reports drained if and only if every worker has exited, and then at most Workers operations are left |
| ControllerRun.Run | internal/controller/controller.go:60-108 | cancelled at startup, an error on an invalid inventory, an error on a stuck shutdown, or a clean end: each exactly when it should be, the last two in a reachable closed state with the last demand's target |
| Backoff.FailureStepIsIdealDoubling | internal/controller/controller.go:462-470 | for 0 < previous ≤ maximum the step is min(2·previous, maximum) if and only if 2·previous ≠ maximum − 1 |
| Backoff.FailureDelayClosedForm | internal/controller/controller.go:462-470 | the n-th consecutive delay is min(initial·2ⁿ, maximum) except where initial·2ⁿ = maximum − 1 and n > 0, where it is maximum |
| Backoff.ReconnectBackoff.Next | internal/adapters/github/reconnect.go:264-272 | the k-th delay since the last reset is exactly min(initial·2ᵏ, maximum), without 64-bit overflow |
| Backoff.ReconnectBackoff.Reset | internal/adapters/github/reconnect.go:275-277 | starts the sequence again at k = 0 |
| Mailboxes.MailboxLinearizes | internal/controller/types.go:94-122 | under every interleaving, consumed ++ pending is a subsequence of published, at most one is pending, the send never blocks, and outside the drain-to-send window the last is the last published |
| Mailboxes.DrainedMailboxIsCurrent | internal/controller/types.go:94-122 | once drained with no publisher inside, the last consumed demand is the last published |
| Mailboxes.SubsequencePositions | internal/controller/types.go:94-122 | consumed demands come from strictly increasing positions of the published sequence |
| Mailboxes.Mailbox.Publish | internal/controller/types.go:106-117 | whatever the consumer does meanwhile, the demand is published once and is the newest |
| DemandSource.BusyMeansUnfinished | internal/adapters/github/scaleset.go:385-451 | a runner is in the session's busy set if and only if a job on it started in this session and none has completed since |
| DemandSource.SessionsOpenAndCloseOnce | internal/adapters/github/reconnect.go:118-150 | every session is opened once and closed at most once, is open exactly in between, and only the latest can be open |
| DemandSource.PublishedGenerationsGrow | internal/adapters/github/reconnect.go:179-182 | stamped generations never decrease |
| DemandSource.WaitsExactly | internal/adapters/github/reconnect.go:189-209 | the backoff position is the number of waits since GitHub last reported a desired count, or since the start |
| DemandSource.PlayedExactly | internal/adapters/github/reconnect.go:118-150 | the sessions Run plays are, in order, those open in the turns reached before a cancellation of session, wait or reopening, and one still open at the end |
| DemandSource.ResilientDemandSource.Claim | internal/adapters/github/reconnect.go:218-227 | only the first caller gets the source |
| DemandSource.ResilientDemandSource.HandleDesiredRunnerCount | internal/adapters/github/scaleset.go:370-382 | resets the backoff, publishes one snapshot with the busy set sorted, and reports the target for the count: minimum + jobs up to the maximum, the minimum for a negative count |
| DemandSource.ResilientDemandSource.HandleJob | internal/adapters/github/scaleset.go:385-451 | the busy set follows the callback history; nil jobs and unnamed runners are ignored |
| DemandSource.ResilientDemandSource.RunSession | internal/adapters/github/reconnect.go:162-186 | all callbacks are handled in order from an empty busy set, under one generation |
| DemandSource.ResilientDemandSource.Reconnect | internal/adapters/github/reconnect.go:189-209 | waits exactly the next backoff delay before the replacement session is opened |
| DemandSource.ResilientDemandSource.Run | internal/adapters/github/reconnect.go:118-150 | the log keeps the discipline (one session at a time, generations, exact delays, one snapshot and one report per desired count, no reopening without a wait); each session that opened was run to its end and closed |
| EndToEnd.ConsumedIsSorted | internal/adapters/github/reconnect.go:126-133 | the generations the reconciler consumes never decrease |
| EndToEnd.GenerationIsLastConsumed | internal/controller/controller.go:276-292 | over any run, target, generation and busy snapshot are those of the demand consumed last: minimum + jobs up to the maximum |
| EndToEnd.JointRunIsComposed | internal/controller/controller.go:60-108 | every run of source, mailbox, main loop, workers and world together is a disciplined log, a linearizing mailbox and a reconciler run with fresh names that consumed what was published |
| EndToEnd.FencesOnlyIdleRunnersOfThisSession | internal/controller/controller.go:520-541 | in every run of the whole, a fenced runner was created under the session that is still current, and in that session's callbacks up to the demand last received, published before the fence, no job on it is unfinished |
| EndToEnd.DrainedTargetIsLastReported | internal/adapters/github/scaleset.go:370-382 | in every run of the whole, once the mailbox is drained the reconciler's target is the one last returned to the listener, which is the target for the last desired count |
| Launch.Backend.Preflight | internal/adapters/incus/backend.go:242-305 | succeeds exactly when image, fingerprint, every profile, its digest and the launch digest are acceptable, and then pins field by field the image, the effective profiles with their digests, their merge and the digest of all; a failure leaves the earlier pin |
| Launch.PinnedHolds | internal/adapters/incus/backend.go:364-384 | configured profiles are the ones pinned, the image's only where none is configured, and the default one where the image names none, each with its own digest, under one launch digest |
| Launch.LaterProfilesWin | internal/adapters/incus/backend.go:275-300 | merged config and devices hold every profile's keys, each with the value of the last profile that has it |
| Launch.MetadataKeysExactly | internal/adapters/incus/backend.go:324-328 | metadata keys are exactly those under volatile., image. and user.incus-gh-runner. |
| Launch.LaunchRoundTrip | internal/adapters/incus/backend.go:532-553 | for all profiles that pass Preflight and all later edits of server and controller metadata, what is rebuilt from the VM is what was pinned if and only if the image and profiles records still read the same, as they do unless edited |
| Launch.RebuiltExactly | internal/adapters/incus/backend.go:532-553 | the rebuilt input equals the pinned one if and only if image, profiles, devices and every non-metadata config key agree |
| Launch.SnapshotDetectsDriftExactly | internal/adapters/incus/backend.go:492-502 | while the digest record is the pinned one, the check passes if and only if image, profiles, devices and every other non-metadata key are the pinned ones; passing under another record means something else changed too |
| Launch.MetadataEditsAreInvisible | internal/adapters/incus/backend.go:324-328 | any sequence of metadata edits leaves the stripped config and every record it does not name |
| Lifecycle.Backend.GetVerifiedInstance | internal/adapters/incus/backend.go:843-862 | one read, successful only if it showed the owned instance with the original UUID |
| Lifecycle.Backend.BindJITRegistration | internal/adapters/incus/backend.go:668-719 | call by call: a read; only if it shows an owned stopped VM with an ETag, an update under it that sets the four binding keys and keeps every other; only if that was done, a read; success exactly if it shows that VM stopped, bound and pinned |
| Lifecycle.Backend.PushPayload | internal/adapters/incus/backend.go:722-742 | the payload until it is written, then the marker until that is, one write per tick; it ends with the marker exactly on success and otherwise with the attempts |
| Lifecycle.Backend.Create | internal/adapters/incus/backend.go:567-643 | call by call over all answers: what it asks and where it stops, with name, image, devices and each config record of the request given key by key; and that such a log is safe |
| Lifecycle.Backend.CreateIsSafe | internal/adapters/incus/backend.go:567-657 | whatever the environment answers: the request carries every record and stripped of them is what is pinned, a VM is started only directly after a read that confirmed its binding, the marker follows the payload, a failure after the creation fences that name exactly once and nothing else does |
| Lifecycle.Backend.RequestedIsPinned | internal/adapters/incus/backend.go:580-600 | the records and the pinned config determine the request: it is the config the launch round trip starts from |
| Lifecycle.Backend.StopInstance | internal/adapters/incus/backend.go:777-804 | success exactly if the VM was stopped at first, is shown stopped by a read, or is stopped under that read's ETag; whatever a stop acted on had the original UUID |
| Lifecycle.Backend.Delete | internal/adapters/incus/backend.go:745-774 | call by call over all swaps and answers: each part runs only if the one before succeeded, and a missing instance is a success; and such a log is safe |
| Lifecycle.Backend.DeleteIsSafe | internal/adapters/incus/backend.go:745-804 | no other instance is stopped, fencing succeeds before any stop, and nothing is deleted but last, directly after a read that showed the original UUID and owner, and after that VM was seen stopped or a stop under the ETag of a read of it succeeded |
| Inventory.ShareNeverShrinks | internal/adapters/incus/backend.go:556-564 | with truncating division, spending at most one of k shares leaves the others no smaller shares |
| Inventory.FairShare | internal/adapters/incus/backend.go:556-564 | reads within their budgets never use more than the time left, the share never drops below floor(total/n), and each read is offered at least min(timeout, floor(total/n)) |
| Inventory.EvenSharesUseEverything | internal/adapters/incus/backend.go:556-564 | the guarantee is tight: full even shares leave nothing over |
| Inventory.BudgetExactly | internal/adapters/incus/backend.go:556-564 | a read's budget is the read timeout or the truncated share of what is left, whichever is less, also past the deadline |
| Inventory.OwnedExactly | internal/adapters/incus/backend.go:427-442 | the filter keeps exactly the instances whose marker is the owner |
| Inventory.ListOwned | internal/adapters/incus/backend.go:427-462 | every instance that carries the owner's marker, as often as listed and in name order, with the state its read within its budget showed, or an error exactly if the listing or a read failed; the deadline is kept |
| ProofSinks.ProofSink.VerifyTarget | internal/adapters/incus/proof_sink.go:143-174 | passes if and only if the call is answered and the running owned VM behind the name has the target's valid UUID |
| ProofSinks.ProofSink.AcceptCommittedDuplicate | internal/adapters/incus/proof_sink.go:122-140 | once the stored proof can be read it decides: accepted exactly if job, runner and UUID all agree, a conflict exactly if one differs, an error exactly if it does not verify |
| ProofSinks.ProofSink.Deliver | internal/adapters/incus/proof_sink.go:66-119 | whatever fails and whatever restarts: nothing is written to other VMs or to a marked one; an identity read guards each write and the marker is written only after the proof; a new marker is put beside this verified envelope unless a restart comes between the two writes; inadmissible deliveries are exactly the ones rejected up front, without a call; and with every call answered about the target only the stored proof can refuse one |
| ProofSinks.ProofSink.MarkerMeansVerifiedProof | internal/adapters/incus/proof_sink.go:96-116 | over any history of deliveries, every marker is always found beside a proof that verifies for its own VM, if and only if no target was restarted between the two writes of a delivery that left its marker |
| ProofSinks.ProofSink.MarkerCanOutliveProof | internal/adapters/incus/proof_sink.go:96-118 | a delivery that reports success with a marker and no proof, after a restart between its writes |
| ProofSinks.ProofSink.CommitIsFinal | internal/adapters/incus/proof_sink.go:88-91 | until the VM is restarted, neither its marker nor the proof file ever changes |
| ProofSinks.ProofSink.AcceptedTupleStays | internal/adapters/incus/proof_sink.go:177-190 | until the VM is restarted, an accepted delivery's job, runner and UUID are what it holds |
| ProofSinks.ProofSink.AcceptedDeliveriesAgree | internal/adapters/incus/proof_sink.go:177-190 | two deliveries accepted for one VM without a restart in between carried the same job, runner and UUID |
| ProofSinks.ProofSink.RedeliveryVerdict | internal/adapters/incus/proof_sink.go:122-140 | on a committed VM that is not restarted: accepted exactly if job, runner and UUID all agree with the stored proof, a conflict exactly if one differs, one of the two whenever every call was answered, never an unverifiable proof |
| ProofSinks.ProofSink.FirstDeliveryAccepted | internal/adapters/incus/proof_sink.go:84-118 | an admissible delivery to a VM without a marker is accepted whenever every call was answered about the target |
| ProofSinks.ProofSink.RestartAdmitsAnother | internal/adapters/incus/proof_sink.go:84-116 | for any two admissible envelopes of different jobs or runners, a history with one restart in which both are accepted |
| Sorting.SortBy | internal/incusvalidate/validator.go:202-211 | an in-order permutation; ties in any order, as an unstable sort leaves them |
| Sorting.StringLeqExactly | internal/incusvalidate/validator.go:202-211 | the order of sort keys and names: by the first character that differs, a prefix first |
| Sorting.SortedPermutationsEqual | internal/incusvalidate/validator.go:202-211 | two sorted permutations of one list are equal when the key distinguishes its elements, as it must |
| NetworkACLs.NormalizeRules | internal/incusvalidate/validator.go:202-211 | a sorted permutation, never nil |
| NetworkACLs.ComparisonDecidesSameness | internal/incusvalidate/validator.go:185-217 | normalized ACLs compare equal if and only if they are the same up to rule order |
| NetworkACLs.HasDrift | internal/incusvalidate/validator.go:185-199 | drift is reported if and only if description, config or the multiset of ingress or egress rules differ, nil counting as empty |
| JSONKeys.ObjectInjective | internal/incusvalidate/validator.go:214-217 | different members are encoded differently, escapes included |
| NetworkACLs.RuleSortKeyInjective | internal/incusvalidate/validator.go:214-217 | the JSON encoding of the ten rule fields, empty ones left out, tells any two rules apart |

## Left out

- Traces.FenceAuthority: `nextID` and session generations are unbounded naturals; their uint64 wrap-around is not modelled.
- Backoff.FailureDelayClosedForm: instants (`retryAt`) are unbounded integers; only durations have their 64-bit width.
- Cooldowns.NeverTriedEarly: the times at which results are applied are assumed not to decrease, as Go's monotonic clock readings do not.
- Host.CacheRefinesWorldThroughout: VM names are non-empty and never reused, owned VMs appear and disappear only through this controller's operations, an operation's effects happen before it returns, and the startup inventory is truthful; VMs removed by hand between two inventories are outside it.
- Workers.WorkerPool.TrySend: `select`, hand-off and recording are one step.
- ControllerRun.Run: the loop processes a given finite sequence of ready cases; how long the two shutdown timers wait is left open, so that a worker that is late and one that is stuck both end in the timeout error.
- Lifecycle.Backend.Delete: the source's final deletion and its start of a VM are unconditional calls, so only the read directly before them is constrained, not what they act on; that no other instance is stopped needs ETags that tell instances with different UUIDs apart.
- Launch.LaunchRoundTrip: the JSON encoding of profiles and SHA-256 are given functions; decoding of this identity's profile record is assumed to invert its encoding, and `Launch.SnapshotDetectsDriftExactly` assumes that this digest does not collide.
- Inventory.ListOwned: a status read is assumed to end when its context does; how guest status becomes a runner state is a given answer.
- ProofSinks.ProofSink.Deliver: a VM is neither replaced nor restarted between an identity read and the file calls it guards, nothing in the guest but a restart touches the two proof files, a UUID names one VM, and deliveries do not overlap; verification is a given function of the envelope.
- NetworkACLs.HasDrift: strings hold Unicode scalar values only, so the encoder's replacement of invalid UTF-8 does not arise.
- Strings are sequences of characters compared by code point; Unicode case folding of instance status is reduced to three cases.
- Incus and GitHub SDK calls, HTTP, TLS, websockets, logging, real timers and contexts are environment answers.
- Payload, job and scale-set field validators, the CLI, configuration, CUE policy, server and version checks, diagnostics storage, guest scripts and the provenance coordinator are not part of this model: each is settled branch by branch or belongs to a library.
