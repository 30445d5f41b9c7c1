# Verified models of vLLM-Omni's stateful core

vLLM-Omni serves models that are pipelines of stages: language-model stages that produce
tokens, hidden states and multimodal tensors, and diffusion stages that turn them into
images or audio.  This project models the parts of it where correctness spans many steps
and several components, and proves what they keep over every run.  Each source file has its
own modules; state that the source updates in place is a class whose methods are proved
against functions, and the theorems are about those functions.

**Diffusion driver** (`Scheduler.dfy`, `EngineState.dfy`, `EngineSafety.dfy`, `EngineReuse.dfy`,
`EngineOutcome.dfy`, `DiffusionEngine.dfy`). HTTP threads submit requests and wait; one driver
thread aborts, schedules, executes and dispatches. Each holding of the engine lock is one step.
Events and queues belong to submissions, while the driver's tables know them by scheduler id. The
execution result is arbitrary as long as it is about the batch in flight. The schedulers of
`vllm_omni/diffusion/sched` are modelled with their real bookkeeping, so the premise that a final
step output belongs to a reported request is proved and not assumed. The batching policy (which
waiting requests enter a batch, which running ones yield) is a parameter.

**Orchestrator and companion tracker** (`CfgCompanionTracker.dfy`, `OrchestratorState.dfy`,
`OrchestratorSafety.dfy`, `OrchestratorRelease.dfy`, `OrchestratorProgress.dfy`,
`Orchestrator.dfy`). Stage finish, KV-ready and companion flush can each hand a request on. Every
handler is one step. Assumed of callers: request and companion ids are new, a companion's role is
new for its parent, and a stage answers only requests it was handed, and only diffusion stages
report errors of their own.

**Prefix cache** (`PrefixCache.dfy`, `OmniTensorPrefixCache.dfy`). A slot-addressed row cache
against an uncached causal forward, which is an arbitrary function from token prefixes to rows.

**Shared-memory transfer** (`Tensors.dfy`, `Ipc.dfy`, `IpcTransfer.dfy`). The names of new segments
are the operating system's choice: an arbitrary sequence without repetition that avoids the names in
use.

**Payload keys** (`OrderedDict.dfy`, `Decimal.dfy`, `DataEntryKeys.dfy`, `PayloadTransport.dfy`).
Flattening, unflattening and the wire form of inter-stage payloads.

**Multimodal accumulation** (`OutputAccumulation.dfy`, `DottedOutputs.dfy`, `OutputProcessor.dfy`).
What a request accumulates and what its emissions show under the three output kinds.

**Startup and configuration** (`DeviceLocks.dfy`, `StageStartup.dfy`, `StageConfig.dfy`).

Where a promise of the code or its comments does not hold on all inputs, the exact condition is
proved:

- An abort takes effect for a waiting client only while its request is in the batch in flight.
  `schedule()` does return the ids ended meanwhile, but the driver looks at them only when the
  batch is empty, and with requests queued the batch never is; a request aborted in between is
  ended in the scheduler and its waiter stays blocked until the engine dies
  (`AbortDuringBatch`, `AbortBetweenBatchesStrands`, `StrandedForever`).  The comment at
  vllm_omni/diffusion/diffusion_engine.py:600-602 says that such requests are surfaced.
- A scheduler id is reused once the scheduler forgot it, even if a waiter or a consumer of the
  earlier request is still inside its call; the new client can then be lost for good
  (`ReusedIdsSecureExactly`, `RunThatLosesWaiter`, `RunThatLosesStream`, `LostForever`).
- A submission rejected for an active public id leaves an unqueued scheduler state behind
  (`SubmitIsCleanExactly`).
- Registering a second companion in a role leaves the first in the id tables
  (`RegisterCompanionKeepsValid`).
- The diffusion error branch can send a second finished message
  (`RunKeepsMessagesExactly`, `RunThatFinishesTwice`).
- A request deferred for companions waits for ever once one of them is aborted by its own id
  (`DeferredIsReleasableExactly`, `AbortedCompanionSticks`).
- A cache hit that does not fill its last block loses rows (`MergeEqualsUncached`), and a
  multimodal key first seen during a hit reads zeros (`LateKeyReadsZeros`).
- A dict that looks like a handle does not survive the transfer (`RoundTripExactlyIfUnmarked`),
  and lists in trajectory fields keep their large tensors inline (`LargeLeftInline`).
- Empty categories and layers, and layer keys that are not integers, do not survive flattening
  (`RoundTripExactly`).
- Dotted keys accumulate across CUMULATIVE emissions only within one batch
  (`DottedShowsAllExactly`, `EmissionShowsLastBatch`; `DottedKeysKeepTheLast` is a run), and the
  stream interval has no effect outside DELTA (`IntervalOnlyHoldsBackDelta`).
- A device list that names a device twice waits for itself (`TwiceNamedNeverFinishes`).
- Deep merging is not associative when a layer replaces a mapping by something else
  (`StageMergeAssociatesExactly`).

## Model

| member | source | states |
|---|---|---|
| DiffusionScheduler.AddRequestKeepsValid | vllm_omni/diffusion/sched/base_scheduler.py:130-136 | Queueing a request whose scheduler id and public ids are free keeps the queues, the states and the public-id table consistent. |
| DiffusionScheduler.SubmitIsCleanExactly | vllm_omni/diffusion/sched/base_scheduler.py:130-136 | A submission raises if and only if one of its public ids is active. The queues and tables stay consistent either way; an unfinished state ends up outside the queues if and only if it raised. |
| DiffusionScheduler.RegisteredExactly | vllm_omni/diffusion/sched/base_scheduler.py:456-461 | Registering the public ids of a request raises exactly on an id active for another one, and else maps them all. |
| DiffusionScheduler.SubmitEnters | vllm_omni/diffusion/sched/base_scheduler.py:130-136 | A submission leaves a waiting state, the request at the end of the queue and all its public ids registered; one that raised leaves no place in the queue and only the ids registered that come before the first active one. No other entry changes. |
| DiffusionScheduler.FinishRequestsKeepsValid | vllm_omni/diffusion/sched/base_scheduler.py:226-267 | Ending any requests with terminal statuses keeps them consistent. |
| DiffusionScheduler.FinishRequestsEnds | vllm_omni/diffusion/sched/base_scheduler.py:238-267 | Exactly the unfinished requests named are ended, and a terminal state is never overwritten. |
| DiffusionScheduler.ScheduleKeepsValid | vllm_omni/diffusion/sched/base_scheduler.py:138-184 | Scheduling whatever the batching policy selects keeps them consistent; the batch is exactly what then runs, and it is empty only when nothing waits or runs. |
| DiffusionScheduler.YieldKeepsValid | vllm_omni/diffusion/sched/step_scheduler.py:124-137 | Sending running requests back to the queue keeps them consistent. |
| DiffusionScheduler.YieldKeepsTerminal | vllm_omni/diffusion/sched/step_scheduler.py:124-137 | Yielding ends nobody and leaves terminal states alone. |
| DiffusionScheduler.PopAllKeepsValid | vllm_omni/diffusion/sched/base_scheduler.py:195-200 | Forgetting requests that are in no queue keeps the rest consistent. |
| DiffusionScheduler.UpdateEndsWhatItReports | vllm_omni/diffusion/sched/base_scheduler.py:269-283 | For both schedulers, the ids an update reports are exactly the scheduled ones that have ended, whether by an abort meanwhile or by this output. |
| DiffusionScheduler.StepUpdateEndsExactly | vllm_omni/diffusion/sched/step_scheduler.py:74-122 | Read off the output itself: the step scheduler ends a scheduled request with an error if and only if its own result (or else the common one) has one or no step index came for it, as completed if and only if otherwise its own flag (or else the common one) says finished, and lets it go on or yields it in all other cases. |
| DiffusionScheduler.RequestUpdateEndsExactly | vllm_omni/diffusion/sched/request_scheduler.py:28-52 | The request scheduler ends every scheduled request: with an error if and only if it has no result or one with a non-empty error. |
| EngineSafety.DeliverServes | vllm_omni/diffusion/diffusion_engine.py:686-755 | Handing out results serves every waiter and keeps every known stream open, provided exactly the streams said to be closed hold a final item. |
| EngineSafety.DeliverCloses | vllm_omni/diffusion/diffusion_engine.py:707-714 | A stream handed a result ends in one final item with nothing after it. |
| EngineSafety.SchedulersReportFinals | vllm_omni/diffusion/sched/step_scheduler.py:74-122 | A step output flagged finished for a stream that is not skipped belongs to a request the scheduler reports finished: the premise the stream protocol rests on holds for both schedulers and every output about the batch in flight. |
| EngineSafety.PublishStepMarksFinals | vllm_omni/diffusion/diffusion_engine.py:649-684 | After one step is published, a known queue holds a final item exactly if the step put it there, and always last, whatever ids are in use. |
| EngineSafety.PublishAndDispatchServe | vllm_omni/diffusion/diffusion_engine.py:643-647 | Publishing and dispatching keep every known queue open if and only if that premise holds of the step. |
| EngineSafety.DigestKeepsInv | vllm_omni/diffusion/diffusion_engine.py:630-634 | Draining aborts and updating the scheduler keep the tables and every client; the reported ids are exactly the batch members that ended. |
| EngineSafety.UpdateKeepsInv | vllm_omni/diffusion/diffusion_engine.py:630-647 | The whole update section keeps the driver's tables whatever ids are in use, and keeps every client served. |
| EngineSafety.PollKeepsInv | vllm_omni/diffusion/diffusion_engine.py:556-561 | The abort phase does the same. |
| EngineSafety.ScheduleKeepsInv | vllm_omni/diffusion/diffusion_engine.py:587-607 | The schedule section does the same; the batch it hands out is never empty and is tracked until its update. |
| EngineSafety.SubmitKeepsInv | vllm_omni/diffusion/diffusion_engine.py:532-541 | A submission under a fresh id serves its client and disturbs nobody; one that raises disturbs nobody. |
| EngineSafety.CollectServes | vllm_omni/diffusion/diffusion_engine.py:543-550 | A woken waiter returns exactly what was stored for it, and nobody else is disturbed. |
| EngineSafety.LeaveServes | vllm_omni/diffusion/diffusion_engine.py:468-476 | A consumer that ends, early or not, disturbs nobody else. |
| EngineSafety.SignalTellsEveryone | vllm_omni/diffusion/diffusion_engine.py:745-755 | When the engine dies or is closed, every known queue gets the error as its one final item, every consumer still there then has a final item, every waiter still asleep is woken with the error, and nobody else is disturbed. |
| EngineSafety.StepKeepsDriver | vllm_omni/diffusion/diffusion_engine.py:552-755 | Whatever ids the clients use, rejected submissions included: the scheduler stays consistent, the tables lead from an id to a submission under that id, the batch in flight stays tracked, and aborts without work are never surfaced. |
| EngineSafety.RunKeepsDriver | vllm_omni/diffusion/diffusion_engine.py:552-755 | The same over any number of steps. |
| EngineSafety.StepKeepsInv | vllm_omni/diffusion/diffusion_engine.py:552-755 | Every critical section, in any interleaving, with rejected submissions, keeps for submissions under fresh ids: the driver knows the event of every waiter inside its call; a sleeping one has its scheduler state and no result, a woken one its result stored; every known queue has its state, its consumer and no final item, every consumer without a final item is known, no queue has anything after a final item; a waiter returned what was stored for it. |
| EngineSafety.RunKeepsInv | vllm_omni/diffusion/diffusion_engine.py:552-755 | The same over any number of steps. |
| EngineSafety.EveryReachableStateIsSafe | vllm_omni/diffusion/diffusion_engine.py:532-550 | In every state any run from an empty engine reaches, each queue has at most one final item and nothing after it, and one the driver knows is still open. If the ids were fresh, rejected submissions included, no waiter or consumer is forgotten and a woken waiter finds its own result (the "Driver returned no result" answer is unreachable). |
| EngineSafety.StepKeepsOrder | vllm_omni/diffusion/diffusion_engine.py:649-755 | Whatever ids the clients use, no step puts a second final item into a queue or anything after a final item, and none leaves a finished queue in the driver's table. |
| EngineSafety.RunKeepsOrder | vllm_omni/diffusion/diffusion_engine.py:649-755 | The same over any run, under whatever ids. |
| EngineSafety.DispatchAbortsKeepsInv | vllm_omni/diffusion/diffusion_engine.py:722-743 | Dispatching the aborts of any ids keeps waiters and streams served. |
| EngineSafety.SelectionAgreesWithLegacy | vllm_omni/diffusion/diffusion_engine.py:914-941 | The result the driver selects equals what the legacy finalizer returns, if and only if the scheduler state is not lost. |
| EngineSafety.DispatchDelivers | vllm_omni/diffusion/diffusion_engine.py:686-720 | Every dispatched id is forgotten by the scheduler, its waiter is woken with the selected result, its stream ends in exactly one final item. |
| EngineSafety.UpdateDelivers | vllm_omni/diffusion/diffusion_engine.py:630-720 | One update delivers to every request it reports finished; a request that ended otherwise than by completing gets no data item from that step, only the final one. |
| EngineSafety.EveryAnswerWasChosen | vllm_omni/diffusion/diffusion_engine.py:686-755 | Over every run, what a waiter returned was selected for its request by an update of that run that reported it finished, or is the error of a dying engine. |
| EngineSafety.AbortDuringBatch | vllm_omni/diffusion/diffusion_engine.py:630-634 | An abort drained in the update section delivers the abort result exactly to members of the batch in flight and strands all others. |
| EngineSafety.AbortBetweenBatchesStrands | vllm_omni/diffusion/diffusion_engine.py:890-912 | An abort drained between two batches ends the request in the scheduler, where no batch will report it, and tells no client. |
| EngineSafety.StepLeavesStrandedWaiter | vllm_omni/diffusion/diffusion_engine.py:599-607 | No step but engine death or closing wakes a waiter stranded like this, whatever ids are in use. |
| EngineSafety.StepLeavesStrandedStream | vllm_omni/diffusion/diffusion_engine.py:599-607 | No step but those, or its consumer leaving, puts anything into a stranded stream. |
| EngineSafety.StrandedForever | vllm_omni/diffusion/diffusion_engine.py:599-607 | Both over any run, under whatever ids. |
| EngineSafety.StrandedWaiterSeesEngineDeath | vllm_omni/diffusion/diffusion_engine.py:745-752 | What wakes a stranded waiter in the end is engine death, with its error and not the abort result. |
| EngineReuse.AbortWhileQueuedStrands | vllm_omni/diffusion/diffusion_engine.py:552-561 | From an empty engine three steps strand a waiter or a stream: submit, abort while queued, poll. |
| EngineReuse.StepLeavesLost | vllm_omni/diffusion/diffusion_engine.py:686-755 | A waiter or stream whose event or queue the driver no longer knows gets nothing from any step, engine death included. |
| EngineReuse.LostForever | vllm_omni/diffusion/diffusion_engine.py:686-755 | The same over any run, under whatever ids. |
| EngineReuse.ReusedIdsSecureExactly | vllm_omni/diffusion/sched/interface.py:116-133 | New scheduler ids are checked against live scheduler states only. A new stream is safe from the leaving of others and keeps its result from others if and only if no other client is still inside its call under the id. A new waiter is safe from the returning of others and is told of engine death if and only if nothing is stored under the id, or just that very error with nobody there to take it. |
| EngineReuse.ReusedIdLosesWaiter | vllm_omni/diffusion/diffusion_engine.py:543-546 | A waiter that submits under an id whose earlier waiter has not returned yet loses its event when that one returns. |
| EngineReuse.ReusedIdLosesStream | vllm_omni/diffusion/diffusion_engine.py:474-476 | A stream opened under an id whose earlier consumer is still there loses its queue when that one ends. |
| EngineReuse.RunThatLosesWaiter | vllm_omni/diffusion/diffusion_engine.py:532-550 | A run of six steps from an empty engine that loses a waiter for good. |
| EngineReuse.RunThatLosesStream | vllm_omni/diffusion/diffusion_engine.py:454-476 | The same for a stream. |
| EngineOutcome.PublishedExactly | vllm_omni/diffusion/diffusion_engine.py:649-684 | A known queue that is not skipped gets the result the step has for its request, flagged final exactly as the output flags that request; no other queue gets anything. |
| EngineOutcome.UpdateFeedsStream | vllm_omni/diffusion/diffusion_engine.py:630-720 | In one update a stream of the batch gets exactly the item the output has for it, with its flag, unless its request failed, and one final item with its result if its request ends without having got a final one; its queue is forgotten if and only if the request ends. For both schedulers. |
| EngineOutcome.UpdateAnswersWaiter | vllm_omni/diffusion/diffusion_engine.py:686-720 | A waiter of the batch is woken if and only if its request ends, and then with its own result, or else the common one, or else the missing-output error. |
| EngineOutcome.AbortedHears | vllm_omni/diffusion/diffusion_engine.py:930-936 | A waiter whose request an abort ended during the batch hears no error but that it was aborted, under its first public id. |
| EngineOutcome.CollectTakes | vllm_omni/diffusion/diffusion_engine.py:543-550 | A waiter that returns takes its result and event out of the tables, and nothing else. |
| EngineOutcome.DeliveryStores | vllm_omni/diffusion/diffusion_engine.py:686-720 | A delivery stores results for exactly the delivered ids that have no stream. |
| EngineOutcome.DeliveryWakes | vllm_omni/diffusion/diffusion_engine.py:686-720 | It wakes exactly the waiters of those ids whose event the driver knows, each with its result. |
| EngineOutcome.DeathIsHeard | vllm_omni/diffusion/diffusion_engine.py:745-755 | A waiter asleep when the engine dies hears the error "Diffusion engine died.". |
| EngineOutcome.AbortIsQueued | vllm_omni/diffusion/diffusion_engine.py:885-888 | Aborts queue up behind those already there. |
| EngineOutcome.AbortsEndExactly | vllm_omni/diffusion/diffusion_engine.py:890-912 | Draining the queue ends exactly the unfinished requests some queued public id is active for, and empties it. |
| EngineOutcome.AbortsAreHeard | vllm_omni/diffusion/diffusion_engine.py:722-743 | Dispatching aborts tells exactly the requests the scheduler still has and nothing is stored for. |
| EngineOutcome.PhaseFollows | vllm_omni/diffusion/diffusion_engine.py:552-647 | Where the driver stands after each section, and that only death and closing stop it. |
| DiffusionEngineDriver.DiffusionEngine.SubmitAndRegister | vllm_omni/diffusion/diffusion_engine.py:536-540 | Adding a request, and registering its event unless that raised, is the submit step. |
| DiffusionEngineDriver.DiffusionEngine.AddRequest | vllm_omni/diffusion/sched/base_scheduler.py:130-136 | The loop registers the public ids in order and raises at the first that is active for another request, leaving the state entered and the ids before it registered. |
| DiffusionEngineDriver.DiffusionEngine.ForgetStream | vllm_omni/diffusion/diffusion_engine.py:474-476 | The closing section of a consumer is the leave step. |
| DiffusionEngineDriver.DiffusionEngine.OpenStream | vllm_omni/diffusion/diffusion_engine.py:462-466 | Adding a request, and registering its queue unless that raised, is the stream submit step. |
| DiffusionEngineDriver.DiffusionEngine.TakeResult | vllm_omni/diffusion/diffusion_engine.py:543-550 | The waking section takes what is stored under its id, and whatever event is there. |
| DiffusionEngineDriver.DiffusionEngine.ProcessAbortsQueue | vllm_omni/diffusion/diffusion_engine.py:890-912 | The loops over queued ids and their targets end exactly the requests that the queued public ids resolve to, once each. |
| DiffusionEngineDriver.DiffusionEngine.DispatchStepOutputs | vllm_omni/diffusion/diffusion_engine.py:649-684 | Both publishing branches append, per stream, exactly the item the step has for it, and return the set of streams closed. |
| DiffusionEngineDriver.DiffusionEngine.DispatchFinishedRequests | vllm_omni/diffusion/diffusion_engine.py:686-720 | The loop over finished ids, in any order, delivers to all of them what one simultaneous delivery would. |
| DiffusionEngineDriver.DiffusionEngine.DispatchAbortedRequests | vllm_omni/diffusion/diffusion_engine.py:722-743 | The abort dispatch delivers the abort result to exactly the ids with a scheduler state and no stored result. |
| DiffusionEngineDriver.DiffusionEngine.SignalDead | vllm_omni/diffusion/diffusion_engine.py:745-755 | The two loops store the death error for every registered id without a result, set every registered event, and close and drop every registered queue. |
| DiffusionEngineDriver.DiffusionEngine.UpdateSection | vllm_omni/diffusion/diffusion_engine.py:630-647 | The section from the abort queue to the last dispatch is the update step of the protocol. |
| DiffusionEngineDriver.FinishOneMore | vllm_omni/diffusion/diffusion_engine.py:910-912 | Ending requests one by one ends the same ones as ending them together. |
| DiffusionEngineDriver.DeliverOneMore | vllm_omni/diffusion/diffusion_engine.py:694-720 | Delivering to a set is delivering to its members one at a time, in any order. |
| CfgCompanionTracking.RegisterCompanionKeepsValid | vllm_omni/engine/cfg_companion_tracker.py:47-51 | Registering a companion under a new id keeps the two tables inverse to each other if and only if the role is new for that parent; a replaced companion stays behind in the id tables. |
| CfgCompanionTracking.RegisterParentKeepsValid | vllm_omni/engine/cfg_companion_tracker.py:43-45 | Registering a parent keeps the tables consistent. |
| CfgCompanionTracking.ReleasedWhenLast | vllm_omni/engine/cfg_companion_tracker.py:68-81 | A parent is handed back if and only if it is deferred and this is the first report of the only companion it still waits for. |
| CfgCompanionTracking.SecondReportIsIgnored | vllm_omni/engine/cfg_companion_tracker.py:74-76 | A second report of one companion changes nothing and releases nobody. |
| CfgCompanionTracking.CompletionKeepsValid | vllm_omni/engine/cfg_companion_tracker.py:68-81 | Between handlers no deferred parent is releasable: a completion either leaves that so or hands back the one parent it made releasable. |
| CfgCompanionTracking.DeferKeepsValid | vllm_omni/engine/cfg_companion_tracker.py:83-92 | Deferring a parent with an unfinished companion keeps this. |
| CfgCompanionTracking.CleanupKeepsValid | vllm_omni/engine/cfg_companion_tracker.py:97-104 | Cleaning up any parents keeps the tables consistent. |
| CfgCompanionTracking.CleanupLeavesNoTrace | vllm_omni/engine/cfg_companion_tracker.py:97-125 | None of the five tables mentions a cleaned-up parent or its companions any more, and nobody else is touched. |
| CfgCompanionTracking.CfgCompanionTracker.OnCompanionCompleted | vllm_omni/engine/cfg_companion_tracker.py:68-81 | The method marks the companion and returns exactly the parent to release. |
| CfgCompanionTracking.CfgCompanionTracker.Cleanup | vllm_omni/engine/cfg_companion_tracker.py:97-104 | Popping the tables of one parent is the cleanup of the specification and returns its companions. |
| CfgCompanionTracking.CfgCompanionTracker.AbortParents | vllm_omni/engine/cfg_companion_tracker.py:106-125 | Returns the ids given, in order, then every companion of the given parents once and none that was given; the parents leave no trace. |
| OrchestratorSafety.ForwardKeepsInv | vllm_omni/engine/orchestrator.py:658-841 | Handing a request on, or closing it for want of inputs, keeps the invariant. |
| OrchestratorSafety.CompanionReadyKeepsInv | vllm_omni/engine/orchestrator.py:500-515 | Flushing a deferred parent keeps it. |
| OrchestratorSafety.KvReadyKeepsInv | vllm_omni/engine/orchestrator.py:517-539 | A KV-ready signal keeps it. |
| OrchestratorSafety.RouteKeepsInv | vllm_omni/engine/orchestrator.py:399-495 | Routing an output keeps it. |
| OrchestratorSafety.AddRequestKeepsInv | vllm_omni/engine/orchestrator.py:882-947 | Adding a request, prewarming included, keeps it. |
| OrchestratorSafety.AddCompanionKeepsInv | vllm_omni/engine/orchestrator.py:1049-1077 | Adding a companion keeps it. |
| OrchestratorSafety.AbortKeepsInv | vllm_omni/engine/orchestrator.py:1079-1087 | Aborting keeps it. |
| OrchestratorSafety.StepKeepsInv | vllm_omni/engine/orchestrator.py:267-539 | Every handler keeps: no stage was handed a request twice, submit timestamps are exactly the hand-overs, submitted stages are 0..k with k at most the final stage, the tracker is consistent, no deferred parent is releasable. |
| OrchestratorSafety.RunKeepsInv | vllm_omni/engine/orchestrator.py:267-539 | The same over any number of handler calls. |
| OrchestratorSafety.EveryReachableStateIsSafe | vllm_omni/engine/orchestrator.py:459-539 | Over every run each stage is handed a request at most once although three paths can hand on, live requests hold an initial part of their pipeline, every deferred parent still waits for a companion, and with async chunks nobody is deferred. |
| OrchestratorSafety.HandOversAreGated | vllm_omni/engine/orchestrator.py:465-539 | Whatever a routed output or a KV-ready signal hands on, all companions registered for it are done. |
| OrchestratorSafety.LastCompanionReleases | vllm_omni/engine/orchestrator.py:500-515 | The report of the last companion hands the deferred parent on in that step, unless it is gone or already handed on. |
| OrchestratorSafety.AsyncChunkHandsNothingOn | vllm_omni/engine/orchestrator.py:517-520 | With async chunks nothing is handed on or deferred after the request was added. |
| OrchestratorSafety.StepKeepsMessages | vllm_omni/engine/orchestrator.py:399-495 | Every handler keeps at most one finished message per request and nothing after it, except exactly a diffusion error for a request already finished. |
| OrchestratorSafety.DiffusionErrorKeepsMessages | vllm_omni/engine/orchestrator.py:284-300 | The diffusion error branch reports without looking the request up; the message order is kept if and only if no finished message went out before. |
| OrchestratorSafety.RunKeepsMessagesExactly | vllm_omni/engine/orchestrator.py:284-300 | Over every run each request gets at most one finished message and nothing after it, if and only if no diffusion stage reports an error for a request already finished. |
| OrchestratorSafety.RunThatFinishesTwice | vllm_omni/engine/orchestrator.py:284-300 | Three steps finish a request twice: with async chunks it is handed to all stages at once, and two diffusion stages each report an error for it. |
| OrchestratorSafety.DyingTells | vllm_omni/engine/orchestrator.py:332-353 | Whatever the request handler adds or aborts while the loop notifies, the loop sends one fatal error to each request it found submitted to the dead stage. |
| OrchestratorSafety.FatalReachesEveryone | vllm_omni/engine/orchestrator.py:1154-1201 | The fatal messages from the death of a stage to the end of the drain, with the request handler alive in between, counted exactly: one for a request found submitted to the stage, one for each time it is still queued at the drain, else one if it is tracked then. Nothing stays tracked, and nobody tracked or queued is left out unless an abort took the request away. |
| OrchestratorSafety.LoopIsDying | vllm_omni/engine/orchestrator.py:340-351 | The notifying loop on its own, in any order, is one such way to die. |
| OrchestratorRelease.DeferredIsReleasableExactly | vllm_omni/engine/orchestrator.py:500-515 | A deferred request can still be handed on, by whatever happens next, if and only if every companion it waits for is still tracked. |
| OrchestratorRelease.RunNeverAgain | vllm_omni/engine/orchestrator.py:500-515 | Once a companion it waits for is gone, no run ever hands the request on. |
| OrchestratorRelease.CompanionsRelease | vllm_omni/engine/cfg_companion_tracker.py:68-81 | As long as all are tracked, their finishing one after the other, in any order, hands it on. |
| OrchestratorRelease.AbortedCompanionSticks | vllm_omni/engine/cfg_companion_tracker.py:111-116 | Aborting a companion by its own id leaves the tracker as it is and the request that waits for it stuck. |
| OrchestratorProgress.FinishedStageMovesOn | vllm_omni/engine/orchestrator.py:459-489 | A finished output of a stage before the last one, when the next stage does not have the request yet: with an unfinished companion it is held back with these outputs and this stage; without valid inputs it is told finished and forgotten; else exactly the next stage is handed it. The message of the finished stage goes out first. |
| OrchestratorProgress.KvReadyMovesOn | vllm_omni/engine/orchestrator.py:517-539 | The same for a KV-ready signal. |
| OrchestratorProgress.LastStageEnds | vllm_omni/engine/orchestrator.py:491-495 | A finished output of the last stage ends the request, with its finished output if that stage has one for the user and else with its metrics. |
| OrchestratorProgress.UnfinishedIsPassedOn | vllm_omni/engine/orchestrator.py:420-440 | An unfinished output is passed on as such and changes nothing else. |
| OrchestratorProgress.FinishedCompanionIsSilent | vllm_omni/engine/orchestrator.py:413-418 | A finished companion is marked done and forgotten without a message. |
| OrchestratorProgress.KvReadyCompanionIsDone | vllm_omni/engine/orchestrator.py:528-530 | A KV-ready signal marks a companion done and keeps it tracked. |
| OrchestratorProgress.LastReportHandsOn | vllm_omni/engine/orchestrator.py:500-515 | Either report of the last companion hands the request that waits for it on in that very step. |
| OrchestratorProgress.AddedRequestStarts | vllm_omni/engine/orchestrator.py:882-947 | A new request is tracked and handed to stage 0, and with async chunks and prompt tokens to every stage up to its last one, and to no other. |
| OrchestratorProgress.AddedCompanionStarts | vllm_omni/engine/orchestrator.py:1049-1077 | A new companion is tracked and handed to stage 0, and its parent waits for it. |
| OrchestratorProgress.AbortForgetsExactly | vllm_omni/engine/orchestrator.py:1079-1087 | An abort forgets exactly the requests named and the companions of those named that are no companions, and sends nothing. |
| OrchestratorProgress.ErrorEnds | vllm_omni/engine/orchestrator.py:284-300 | A diffusion error goes out as the finished output of its request, which is forgotten. |
| OrchestratorProgress.FinishedStagesMoveOn | vllm_omni/engine/orchestrator.py:459-515 | Over every run without async chunks: a request still tracked after its stage k finished was handed to stage k + 1, or is held back after stage k for a companion that has not finished. |
| OrchestratorProgress.AllStagesReached | vllm_omni/engine/orchestrator.py:459-515 | So once all stages before the last one have finished it, a tracked request that waits for no companion was handed to every stage of its pipeline. |
| OrchestratorProgress.OneAfterTheOther | vllm_omni/engine/orchestrator.py:459-495 | If one stage after the other finishes it, the request is handed to every stage in turn, and the last one sends its finished output and forgets it. |
| OrchestratorProgress.GoneIsAccountedFor | vllm_omni/engine/orchestrator.py:399-515 | Over every run: a request that is no companion and is tracked no more was aborted by name, or was told finished, or went through a last stage without output for the user. |
| OrchestratorHandlers.OrchestratorLoop.ForwardToNextStage | vllm_omni/engine/orchestrator.py:658-841 | The method hands the request on and stamps it, or sends the terminal error and closes the request. |
| OrchestratorHandlers.OrchestratorLoop.HandleCfgCompanionReady | vllm_omni/engine/orchestrator.py:500-515 | The calls into the tracker object add up to the companion-ready step. |
| OrchestratorHandlers.OrchestratorLoop.HandleKvReadyRawOutputs | vllm_omni/engine/orchestrator.py:517-539 | The loop over one poll is the fold of the single KV-ready steps. |
| OrchestratorHandlers.PollIsRun | vllm_omni/engine/orchestrator.py:517-539 | One poll is the run of its KV-ready signals, in order, outputs without one left out. |
| OrchestratorHandlers.OrchestratorLoop.RouteOutput | vllm_omni/engine/orchestrator.py:399-495 | The method is the route step. |
| OrchestratorHandlers.OrchestratorLoop.HandleAddRequest | vllm_omni/engine/orchestrator.py:882-947 | The method is the add-request step, with the prewarm loop. |
| OrchestratorHandlers.OrchestratorLoop.PrewarmAsyncChunkStages | vllm_omni/engine/orchestrator.py:978-1047 | The loop submits to the stages 1 up to the final one, each once, in order. |
| OrchestratorHandlers.OrchestratorLoop.HandleAddCompanion | vllm_omni/engine/orchestrator.py:1049-1077 | The method is the add-companion step. |
| OrchestratorHandlers.OrchestratorLoop.HandleAbort | vllm_omni/engine/orchestrator.py:1079-1087 | The method is the abort step: the requests and all companions of the parents go. |
| OrchestratorHandlers.OrchestratorLoop.NotifyDeadStage | vllm_omni/engine/orchestrator.py:332-353 | The loop sends one fatal error to each request submitted to the dead stage, in some order, and forgets exactly those. |
| OrchestratorHandlers.OrchestratorLoop.DrainPendingRequestsOnFatal | vllm_omni/engine/orchestrator.py:1154-1201 | Each queued add_request gets an error, each other tracked request one, and nothing stays tracked. |
| PrefixCache.WriteLeavesOthers | vllm_omni/core/prefix_cache.py:119-126 | A scatter through the flat view leaves every slot not named as it was. |
| PrefixCache.ReadBlocksAt | vllm_omni/core/prefix_cache.py:236-241 | Row i of a block read is the row in slot block_ids[i div size] * size + i mod size. |
| PrefixCache.HitReadsUncached | vllm_omni/core/prefix_cache.py:236-241 | If every slot of the hit blocks was last written for the request's own prefix, the read equals the uncached causal forward over those blocks. |
| PrefixCache.MergeEqualsUncached | vllm_omni/core/prefix_cache.py:236-247 | Cached rows followed by the computed ones equal the uncached forward of the whole sequence if and only if the number of computed tokens is a multiple of the block size. |
| PrefixCache.WritesOutsideHitAreInvisible | vllm_omni/core/prefix_cache.py:97-144 | Reading before or after a step's own writes agrees when no slot written lies in a hit block. |
| PrefixCache.WriteKeepsFaithful | vllm_omni/core/prefix_cache.py:119-126 | Writing the rows of some prefixes keeps every owned slot equal to the uncached row of its owner, the owners being updated alike. |
| PrefixCache.UpdateKeepsFaithful | vllm_omni/core/prefix_cache.py:97-144 | One update keeps this for the hidden states and for every initialised multimodal key. |
| PrefixCache.RunKeepsFaithful | vllm_omni/core/prefix_cache.py:97-144 | The same over any run of updates. |
| PrefixCache.OwnerIsLastWriter | vllm_omni/core/prefix_cache.py:97-144 | Over any run of updates the owner of a slot is the prefix whose row was written there last, for the hidden states and, from its first output of the padded length on, for each multimodal key. |
| PrefixCache.LateKeyReadsZeros | vllm_omni/core/prefix_cache.py:51-73 | A multimodal key first seen while a hit is served reads zeros for the hit, whatever the model would have computed. |
| OmniTensorPrefixCaching.MergedRows | vllm_omni/core/prefix_cache.py:212-253 | What is returned for a request is, row by row, its full cached blocks if it hit the cache, and then its own rows of the step in order: row i is row query_start + i. |
| OmniTensorPrefixCaching.BatchEqualsUncached | vllm_omni/core/prefix_cache.py:212-253 | A request that hit the cache gets the uncached rows from its first token on, if and only if its computed tokens fill whole blocks; any other gets the uncached rows of the tokens scheduled now, wherever it continues. |
| OmniTensorPrefixCaching.RunEqualsUncached | vllm_omni/core/prefix_cache.py:97-253 | The same for the caches any run of updates from the empty cache leaves behind, as far as the blocks read were last written for the request's own prefixes: for the hidden states and for every multimodal key with a cache. |
| OmniTensorPrefixCaching.OmniTensorPrefixCache.MaybeInitMissingMmCacheKeys | vllm_omni/core/prefix_cache.py:51-73 | Exactly the new keys with a tensor of the padded length get a cache of zeros; existing caches stay the same objects. |
| OmniTensorPrefixCaching.OmniTensorPrefixCache.WriteSlots | vllm_omni/core/prefix_cache.py:123-125 | The in-place scatter is the specified write, later rows winning. |
| OmniTensorPrefixCaching.OmniTensorPrefixCache.UpdateMmOutputs | vllm_omni/core/prefix_cache.py:135-143 | Every cached key that the step delivers takes up its unpadded rows, every other stays. |
| OmniTensorPrefixCaching.OmniTensorPrefixCache.UpdateOmniTensorPrefixCache | vllm_omni/core/prefix_cache.py:97-144 | The method is the update of the specification. |
| OmniTensorPrefixCaching.OmniTensorPrefixCache.GetMergedTensors | vllm_omni/core/prefix_cache.py:212-253 | The loop returns, per request of the batch, cached blocks and computed rows for a hit and computed rows for a miss. |
| Ipc.PackLeavesSmall | vllm_omni/diffusion/ipc.py:81-97 | Every tensor left inline by packing has at most 1,000,000 bytes, counted by the width of its dtype. |
| Ipc.PackIsIdempotent | vllm_omni/diffusion/ipc.py:81-97 | Packing twice is packing once and creates nothing the second time. |
| Ipc.SmallIsLeftAlone | vllm_omni/diffusion/ipc.py:81-97 | A value creates no segment if and only if it has no large tensor, and then it is packed to itself. |
| Ipc.BigTensorsMove | vllm_omni/diffusion/ipc.py:81-97 | Packing creates one segment for each tensor of more than 1,000,000 bytes, from left to right, with its elements, bfloat16 as float32. |
| Ipc.BigBecomesHandle | vllm_omni/diffusion/ipc.py:36-54 | Such a tensor leaves a marked dict that names its segment and the bytes of the array there. |
| Ipc.MarkReads | vllm_omni/diffusion/ipc.py:100-104 | A dict is taken for a handle if and only if it has a value under the mark that Python does not take for false; a tensor there of other than one element has no truth value. |
| Ipc.HandleUnpacks | vllm_omni/diffusion/ipc.py:57-78 | Which exception unpacking a dict taken for a handle raises, and that the segment is unlinked whenever it was attached. |
| Ipc.HandleRoundTrip | vllm_omni/diffusion/ipc.py:23-78 | Reading a handle restores the tensor, bfloat16 included, and unlinks its segment. |
| Ipc.UnpackUndoesPack | vllm_omni/diffusion/ipc.py:81-110 | Unpacking a packed value restores it and removes exactly its own segments, whatever else the store holds. |
| Ipc.HoldsSplits | vllm_omni/diffusion/ipc.py:88-97 | Segments of different parts of a value never interfere: unpacking one part leaves those of the rest in place. |
| Ipc.CreatedHolds | vllm_omni/diffusion/ipc.py:36-54 | Creating segments under unused names adds exactly those; taking them away gives the store back. |
| Ipc.RoundTripExactlyIfUnmarked | vllm_omni/diffusion/ipc.py:23-110 | Pack then unpack gives the value and the store back if and only if no dict in the value can be taken for a handle. |
| Ipc.UnmarkedIsLeftAlone | vllm_omni/diffusion/ipc.py:100-110 | Unpacking leaves alone what carries no handle. |
| Ipc.LargeLeftInline | vllm_omni/diffusion/ipc.py:113-122 | After packing an output nothing large is inline if and only if no trajectory field holds a large tensor inside a list or dict: those fields are packed only when they are tensors themselves. |
| Ipc.PackFieldsIsIdempotent | vllm_omni/diffusion/ipc.py:113-122 | Packing an output twice is packing it once. |
| Ipc.FieldsRoundTrip | vllm_omni/diffusion/ipc.py:113-151 | Unpacking a packed output restores all four fields and removes exactly their segments. |
| Ipc.PackedOnce | vllm_omni/diffusion/ipc.py:137-143 | A second reference to a packed object packs nothing more. |
| Ipc.RefsRoundTrip | vllm_omni/diffusion/ipc.py:125-168 | Packing and unpacking a wrapper restores every object behind its references and the store, however often one object is referred to, as when `result` is one of `per_request_results`. |
| Ipc.CopiesUnpackOnce | vllm_omni/diffusion/ipc.py:154-168 | If the references led to separate copies of a packed object, the second copy would fail with a missing segment if and only if anything was packed. |
| IpcTransfer.SharedMemory.TensorToShm | vllm_omni/diffusion/ipc.py:23-54 | One segment is created under the next name and the handle describes it. |
| IpcTransfer.SharedMemory.TensorFromShm | vllm_omni/diffusion/ipc.py:57-78 | Result, exceptions and the unlink, which happens whenever the segment could be attached. |
| IpcTransfer.SharedMemory.PackValueIfLarge | vllm_omni/diffusion/ipc.py:88-97 | The recursion creates the segments left to right as specified. |
| IpcTransfer.SharedMemory.UnpackIfShmHandle | vllm_omni/diffusion/ipc.py:100-110 | The recursion reads and unlinks left to right up to the first exception. |
| IpcTransfer.SharedMemory.PackDiffusionFields | vllm_omni/diffusion/ipc.py:113-122 | The four fields are replaced in place by their packed forms. |
| IpcTransfer.OnlyOutputInDepth | vllm_omni/diffusion/ipc.py:113-122 | Only `output` is packed in depth; a trajectory field that is no tensor itself stays as it is. |
| IpcTransfer.RefsAre | vllm_omni/diffusion/ipc.py:125-143 | A wrapper leads to its result, if it has one, and to each of its per-request results. |
| IpcTransfer.SharedMemory.UnpackDiffusionFields | vllm_omni/diffusion/ipc.py:146-151 | The four fields are replaced by their unpacked forms, or the first exception is reported. |
| IpcTransfer.SharedMemory.PackWrapper | vllm_omni/diffusion/ipc.py:125-143 | Packs the objects behind `result` and `per_request_results` one reference after the other, shared objects included. |
| IpcTransfer.SharedMemory.UnpackWrapper | vllm_omni/diffusion/ipc.py:154-168 | The same for unpacking. |
| Decimal.ParseUndoesPrint | vllm_omni/data_entry_keys.py:165-187 | A printed layer index is read back as itself, negative ones included. |
| Decimal.TextIsDecimal | vllm_omni/data_entry_keys.py:165-166 | A printed index is in base ten. |
| Decimal.PlusAndUnderscores | vllm_omni/data_entry_keys.py:186-186 | Reading an index allows a plus sign and single underscores between digits, and raises without digits or with underscores elsewhere. |
| Decimal.BlanksAreNoMatter | vllm_omni/data_entry_keys.py:186-186 | It ignores blanks around the number. |
| Decimal.OtherCharactersRaise | vllm_omni/data_entry_keys.py:186-186 | It raises on anything but digits, signs, underscores and blanks. |
| DataEntryKeys.DottedSplits | vllm_omni/data_entry_keys.py:181-183 | Splitting a dotted key at its first dot gives back the category and the qualifier. |
| DataEntryKeys.FlatItemsRead | vllm_omni/data_entry_keys.py:149-170 | The flat form has a value under a key if and only if following the key into the nested payload finds it. |
| DataEntryKeys.FlatItemsUnique | vllm_omni/data_entry_keys.py:149-170 | Flattening never gives two entries one key. |
| DataEntryKeys.LayerOnTheWire | vllm_omni/data_entry_keys.py:158-166 | Layer n of the hidden states travels as "hidden_states.layer_n". |
| DataEntryKeys.EntryOnTheWire | vllm_omni/data_entry_keys.py:158-170 | Any other entry of a category travels as "category.name". |
| DataEntryKeys.PlainOnTheWire | vllm_omni/data_entry_keys.py:149-157 | What is no category travels under its own name. |
| DataEntryKeys.UnflattenUndoesFlatten | vllm_omni/data_entry_keys.py:149-192 | For every regular payload with integer layer keys, unflattening the flat form gives the payload without its empty dicts, in the same order. |
| DataEntryKeys.RoundTripExactly | vllm_omni/data_entry_keys.py:149-192 | The payload itself comes back if and only if its layers have integer keys and no category or layers dict is empty. |
| DataEntryKeys.SchemaIsRegular | vllm_omni/data_entry_keys.py:123-146 | Every payload the schema check accepts is regular. |
| DataEntryKeys.InsertAllReads | vllm_omni/data_entry_keys.py:173-192 | Unflattening a canonical flat form into a good payload succeeds, and afterwards each canonical key reads its new value or its old one. |
| DataEntryKeys.FlattenUndoesUnflatten | vllm_omni/data_entry_keys.py:149-192 | A canonical flat form survives unflattening and flattening with the same keys and values. |
| PayloadTransport.AssertPayload | vllm_omni/data_entry_keys.py:123-146 | The check passes if and only if all top-level keys are known, every category is a dict, and all its keys are known for it. |
| PayloadTransport.FlattenPayload | vllm_omni/data_entry_keys.py:149-170 | The nested loops compute the flat form. |
| PayloadTransport.UnflattenPayload | vllm_omni/data_entry_keys.py:173-192 | The loop computes the nested form or the first exception. |
| PayloadTransport.FlatKeptItems | vllm_omni/data_entry_keys.py:248-254 | Dropping None from the flat form is dropping it from the payload. |
| PayloadTransport.TransportRoundTrip | vllm_omni/data_entry_keys.py:232-277 | Serialization fails if and only if a bfloat16 tensor is there; else it sends nothing if and only if only None and empty dicts are there, and what it sends is read back as the payload without those. |
| PayloadTransport.WireHolds | vllm_omni/data_entry_keys.py:232-256 | The wire has an entry for exactly the flat keys whose value is not None: elements, shape and dtype name of a tensor, the items of a list, or the value. |
| PayloadTransport.NoDtypeIsFloat32 | vllm_omni/data_entry_keys.py:225-229 | A tensor entry without a dtype is read as float32. |
| PayloadTransport.SerializePayload | vllm_omni/data_entry_keys.py:232-256 | The loop builds one entry per value that is not None. |
| PayloadTransport.DeserializePayload | vllm_omni/data_entry_keys.py:259-277 | The loop decodes the entries in order and unflattens them. |
| OutputAccumulation.AddAppends | vllm_omni/engine/output_processor.py:58-111 | An arriving tensor waits behind those already there, whether they are one tensor or a list, and other keys are untouched. |
| OutputAccumulation.InsertAllPlainLeaf | vllm_omni/engine/output_processor.py:153-158 | Unflattening what was consolidated leaves tensors under plain keys alone, whatever other keys there are. |
| OutputAccumulation.ConsolidatedAt | vllm_omni/engine/output_processor.py:113-160 | Consolidation replaces the tensors under a plain key by their concatenation (the last one for `sr`), except what DELTA drains, and also when unflattening raises. |
| OutputAccumulation.DeltaShowsEverythingOnce | vllm_omni/engine/output_processor.py:199-240 | In DELTA mode, for any arrivals, emissions and stream interval, the audio or image tensors of all outputs followed by those still waiting are the tensors received, in order and each once. |
| OutputAccumulation.DeltaEmissionDrains | vllm_omni/engine/output_processor.py:257-271 | An emission leaves nothing drainable behind, and the finishing call always emits. |
| OutputAccumulation.DeltaSendsTokensOnce | vllm_omni/engine/output_processor.py:209-227 | With a stream interval the tokens of the outputs followed by the unsent ones are the tokens decoded, each once. |
| OutputAccumulation.EmissionShowsAll | vllm_omni/engine/output_processor.py:199-207 | In CUMULATIVE mode, and at the end in FINAL_ONLY, an emission shows under a plain key the concatenation of all tensors received so far, the last one for `sr`, however often parts were consolidated before. |
| OutputAccumulation.IntervalOnlyHoldsBackDelta | vllm_omni/engine/output_processor.py:209-227 | The stream interval never holds back an emission in the other modes: CUMULATIVE always emits, FINAL_ONLY if and only if finished. |
| OutputAccumulation.FinalOutputShowsAll | vllm_omni/engine/output_processor.py:113-160 | In FINAL_ONLY the output shows all that was received under dotted keys too, in the nested slot the key leads to. |
| OutputAccumulation.DottedKeysKeepTheLast | vllm_omni/engine/output_processor.py:153-158 | A run that loses one: of two tensors received under a dotted key around an emission, the next output shows the second only. |
| DottedOutputs.EmissionShowsLastBatch | vllm_omni/engine/output_processor.py:113-160 | In CUMULATIVE mode, for any canonical arrivals and any dotted key, an emission shows the concatenation of the last batch: what came under the key between two consolidations, the latest such batch that is not empty. |
| DottedOutputs.DottedShowsAllExactly | vllm_omni/engine/output_processor.py:113-160 | For tensors that are not empty, it shows everything received under the key if and only if all of it came with no consolidation in between. |
| DottedOutputs.SettleReads | vllm_omni/engine/output_processor.py:153-158 | Unflattening a nested form next to dotted keys gives each dotted key its new value where it has one, and keeps the old slot where it has none. |
| OutputAccumulation.ModalityIs | vllm_omni/engine/output_processor.py:63-70 | The modality is the type in lower case, and "hidden" when there is none. |
| OutputAccumulation.IncomingReads | vllm_omni/engine/output_processor.py:63-85 | Whatever an arrival holds is filed under the key it is meant for, read off the payload itself; of several items meant for one key the last one stays. |
| OutputAccumulation.FiledUnderModality | vllm_omni/engine/output_processor.py:74-81 | The last item of a payload that is named `model_outputs`, `hidden` or by the modality is filed under the modality, whatever else the payload holds. |
| OutputAccumulation.OtherNamesAreKept | vllm_omni/engine/output_processor.py:74-81 | Every other name keeps its items, the last of them, and nothing else is filed under it. |
| OutputAccumulation.DictsMerge | vllm_omni/engine/output_processor.py:97-108 | Dicts merge item by item: a tensor waits behind the tensors there, anything else replaces what was there, and what gets nothing new stays. |
| OutputAccumulation.WaitingBecomeOne | vllm_omni/engine/output_processor.py:128-151 | Waiting tensors become their concatenation, or the last of them for `sr` and where the other axes differ. |
| OutputAccumulation.DeltaDrainsExactly | vllm_omni/engine/output_processor.py:257-271 | After an emission in DELTA mode nothing waits under image and audio, and under every other key what was shown still does. |
| OutputAccumulation.EmissionCarries | vllm_omni/engine/output_processor.py:199-240 | Every emission carries all tokens decoded so far and whether the request finished, and, but for DELTA with an interval, the new tokens of its step. |
| OutputAccumulation.IntervalHoldsBackExactly | vllm_omni/engine/output_processor.py:209-227 | In DELTA mode with an interval an emission is held back if and only if some tokens were sent, fewer than the interval are new, and the request has not finished; one that is not sends exactly the new ones. |
| OutputProcessing.OmniRequestState.AddMultimodalTensor | vllm_omni/engine/output_processor.py:58-111 | The method renames, merges and appends as specified. |
| OutputProcessing.OmniRequestState.ConsolidateMultimodalTensors | vllm_omni/engine/output_processor.py:113-160 | The loop replaces the lists in place and unflattens, or keeps the flat form. |
| OutputProcessing.OmniRequestState.MakeRequestOutput | vllm_omni/engine/output_processor.py:162-240 | Returned output and state left behind, for every output kind, interval and finish flag. |
| OutputProcessing.OmniRequestState.NewCompletionOutput | vllm_omni/engine/output_processor.py:242-271 | Everything accumulated is shown; in DELTA mode exactly the drainable keys are dropped. |
| DeviceLocks.SortedCopyIsSorted | vllm_omni/engine/stage_init_utils.py:529-530 | The devices to lock are the chosen ones in ascending order. |
| DeviceLocks.DevicesAreTheFirst | vllm_omni/engine/stage_init_utils.py:510-530 | The source raises if and only if fewer devices are there than needed; else exactly the first ones visible, or without a list the first ones at all, are locked, in ascending order. |
| DeviceLocks.GivingUpGoesOn | vllm_omni/engine/stage_init_utils.py:555-580 | Giving up takes no lock and goes on to the next device, after the last one to initialization. |
| DeviceLocks.DistinctDevicesIncrease | vllm_omni/engine/stage_init_utils.py:510-530 | Visible devices without repetition are locked in strictly increasing order. |
| DeviceLocks.StepKeepsInv | vllm_omni/engine/stage_init_utils.py:546-589 | Trying, giving up and releasing keep the lock table and the processes in agreement. |
| DeviceLocks.MutualExclusion | vllm_omni/engine/stage_init_utils.py:550-559 | No device is held by two processes, nor twice by one. |
| DeviceLocks.HoldersKeepTheirLocks | vllm_omni/engine/stage_init_utils.py:592-600 | A hold ends if and only if its own process releases. |
| DeviceLocks.InitializationIsExclusive | vllm_omni/engine/stage_init_utils.py:546-600 | Two processes that initialize at the same time without having timed out have no device in common. |
| DeviceLocks.NoDeadlock | vllm_omni/engine/stage_init_utils.py:546-569 | However many processes lock whatever strictly increasing lists: as long as one is unfinished, one can move without a timeout. |
| DeviceLocks.MovesAreProgress | vllm_omni/engine/stage_init_utils.py:546-600 | Such a move brings its process nearer to the end and no other further from it. |
| DeviceLocks.EveryReachableSystemIsSafe | vllm_omni/engine/stage_init_utils.py:546-600 | Over every run of processes with strictly increasing lists, someone can move unless all are finished, and two processes initializing without having given up share no device. |
| DeviceLocks.PatienceLasts | vllm_omni/engine/stage_init_utils.py:550-569 | A process that does not give up holds every device it has passed, whatever the others do. |
| DeviceLocks.TwiceNamedNeverPasses | vllm_omni/engine/stage_init_utils.py:546-569 | No step gets a process whose list names a device twice past the second, except by timing out: its own first descriptor has the lock. |
| DeviceLocks.TwiceNamedNeverFinishes | vllm_omni/engine/stage_init_utils.py:546-569 | Over any run in which it does not time out, such a process never gets past the second. |
| DeviceLocks.AcquireDeviceLocks | vllm_omni/engine/stage_init_utils.py:544-589 | The loops return, in order, exactly the devices whose first decisive try was granted; a timeout or an error skips one device only. |
| StageStartup.ReadyByTwoMessages | vllm_omni/engine/stage_engine_startup.py:435-457 | An engine gets ready by exactly a HELLO and then a READY. |
| StageStartup.InterleavingDoesNotMatter | vllm_omni/engine/stage_engine_startup.py:418-457 | Messages are accepted if and only if they come from known engines, each in its own order, and every engine ends where its own messages take it, whatever the interleaving. |
| StageStartup.AllReadyExactly | vllm_omni/engine/stage_engine_startup.py:418-457 | All engines end ready if and only if each sent HELLO then READY and nobody else sent anything. |
| StageStartup.HandleMessage | vllm_omni/engine/stage_engine_startup.py:428-457 | One message: the engine found by identity advances, or the error raised. |
| StageStartup.TakeOneMore | vllm_omni/engine/stage_engine_startup.py:437-454 | After each message the pending counters are the numbers of new and of connected engines, and exactly the engines that are not new were sent an INIT, each once. |
| StageStartup.BlocksAddUp | vllm_omni/engine/stage_engine_startup.py:452-456 | The blocks of READY messages add up. |
| StageStartup.WaitForStartup | vllm_omni/engine/stage_engine_startup.py:405-457 | It returns normally if and only if all engines are ready; each engine that is not new was sent one INIT; `num_gpu_blocks` is its initial value plus the READY counts. |
| StageConfig.DeepMergeStage | vllm_omni/config/stage_config.py:490-510 | The loop merges the deep-merge keys that are mappings on both sides and lets the overlay win elsewhere. |
| StageConfig.StageMergeAssociatesExactly | vllm_omni/config/stage_config.py:490-510 | Merging three stages is associative if and only if no deep-merge key holds a mapping, something else, and again a mapping lacking a key of the first. |
| StageConfig.MergedKeyByKey | vllm_omni/config/stage_config.py:487-510 | Under the four deep-merge keys two mappings are joined, the overlay winning field by field; everywhere else the overlay wins if it has the key, and what only the base has stays. |
| StageConfig.MergedListAt | vllm_omni/config/stage_config.py:513-525 | A merged list has the stages of both, those of one id merged. |
| StageConfig.OverlaidPlatform | vllm_omni/config/stage_config.py:528-544 | A platform has the fields of the overlay over those of the base and the stages of both, those of one id merged. |
| StageConfig.FirstFileWins | vllm_omni/config/stage_config.py:547-570 | Of a base_config chain the first file that has a top-level field decides it. |
| StageConfig.FirstStageWins | vllm_omni/config/stage_config.py:547-570 | The same for a key of a stage that is no deep-merge key. |
| StageConfig.FirstBelowWins | vllm_omni/config/stage_config.py:547-570 | The same for a field below a deep-merge key of a stage. |
| StageConfig.MergeStageLists | vllm_omni/config/stage_config.py:513-525 | The loops merge by stage id, new stages coming last. |
| StageConfig.StageListsAssociate | vllm_omni/config/stage_config.py:513-525 | Merging stage lists is associative, the order of the stages included. |
| StageConfig.PlatformsAssociate | vllm_omni/config/stage_config.py:528-544 | Merging platforms is associative, per platform and stage. |
| StageConfig.OverlayAssociates | vllm_omni/config/stage_config.py:547-570 | Overlaying configurations is associative. |
| StageConfig.ResolveSplits | vllm_omni/config/stage_config.py:547-570 | A base_config chain can be cut anywhere: the files above the cut, resolved among themselves, are one overlay over the resolved rest. |
| StageConfig.ResolveIsLeftFold | vllm_omni/config/stage_config.py:547-570 | Recursive resolution equals layering from the lowest base upwards. |
| StageConfig.BuildStageRuntimeOverrides | vllm_omni/config/stage_config.py:43-80 | The loop collects the overrides of one stage. |
| StageConfig.StageKeyReads | vllm_omni/config/stage_config.py:40-40 | A key is read as one for a stage if and only if it is stage_, digits, an underscore and a parameter, and then as that stage and that parameter. |
| StageConfig.AppliesIfSets | vllm_omni/config/stage_config.py:63-80 | An override sets the parameter it names, for every stage or for the one in its key; internal keys and parameters are never set. |
| StageConfig.LastApplicableWins | vllm_omni/config/stage_config.py:43-80 | Each parameter has the value of the last override, in order, that applies to the stage; a later global one beats an earlier one for the stage. |
| StageConfig.OtherStagesDoNotMatter | vllm_omni/config/stage_config.py:70-76 | Overrides naming another stage change nothing. |
| StageConfig.PrintedStageKey | vllm_omni/config/stage_config.py:40-40 | A key printed for a stage is read as that stage's and that parameter's. |

## Left out

- Scheduler initialization, closing and the two batching policies; `preempt_request`; the progress records of the step scheduler (taken to exist for every scheduled request).
- The legacy single-flight path of the diffusion engine apart from its finalizer; `_pending_runner_outputs`, which is written and popped but never read.
- Timing: the driver's coalescing wait and idle sleep, timeouts, metrics, timestamps as values.
- EngineSafety.RunKeepsInv: serves everybody in runs under ids that nobody still holds. Without that, RunKeepsOrder gives the order of every queue, StrandedForever and LostForever say who gets nothing, and ReusedIdsSecureExactly says when a new client is safe; which of several holders of one id gets the result is not stated.
- Submissions after `close()` or after the engine died: nothing is claimed of them.
- Streaming sessions (`streaming.enabled`) of the orchestrator, prefill/decode disaggregation and its KV parameters, building of stage inputs; an exception inside `_forward_to_next_stage` is not modelled.
- The order between an abort and a hand-over in progress across awaits: handlers are atomic here.
- The orchestrator branch at vllm_omni/engine/orchestrator.py:304-319, which cannot be reached because the same test is handled before it.
- `attach_cfg_request_ids`, `get_merged_multimodal_states` for keys without a cache, negative or padded slots, several KV groups.
- EngineSafety.SchedulersReportFinals: for results about members of the batch that was handed out; an executor reporting on other requests is outside the model.
- A request handler cancelled in the middle of one message when a stage died: handlers are atomic, before and after.
- Tensor numerics: elements are opaque, bfloat16 to float32 and back is the identity, reading a segment under another dtype than it was written with is an error.
- IpcTransfer.SharedMemory.UnpackDiffusionFields: the fields already assigned when an exception ends it are not specified.
- Decimal.ParseUndoesPrint: `int()` is modelled with ASCII blanks, signs and underscores; other Unicode blanks and digits are not.
- Payload values that share one dict object with the caller's data: dicts are values here, so a dict that unflattening would extend in place is replaced instead.
- Lists of anything but tensors in accumulated outputs, outputs of parallel sampling (`parent_req`), pooling-only requests, and the later growth of a list already shown by an emission.
- OutputAccumulation.ConsolidatedAt: a tensor is a list of slices along the axis its key is concatenated on; concatenation fails when the other axes differ, and then the last tensor is kept, as in the source.
- Reading the parallel sizes and the device environment variable in `acquire_device_locks`, and the lock release at process exit.
- The publish address taken from READY messages and the message decoding in the handshake.
- Reading deploy files and resolving relative paths; a `stages` entry without `stage_id`; cyclic `base_config` chains. A missing list of stages is an empty one, absent platforms are no platforms, and YAML values below the second level are opaque.
- Override keys with non-ASCII digits or with newlines.
