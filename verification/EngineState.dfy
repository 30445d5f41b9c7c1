/**
 The state shared by the HTTP threads and the driver thread of
 vllm_omni/diffusion/diffusion_engine.py in concurrent mode, and what each
 critical section (one holding of `_engine_lock`) does to it.
 */
module EngineState {
  import opened Common
  import opened DiffusionScheduler

  /** One element of a stream queue. */
  datatype Item = Item(output: DiffusionOutput, isFinal: bool)

  /** One submission.  The event and the queue belong to the submission; the driver's tables
      only know them by scheduler id. */
  type Ticket = nat

  /** A thread that waits for one result.  `got` is what was stored for it when its event was
      last set, None while the event is unset; `answer` is what the thread returned. */
  datatype Waiter = Waiter(id: SchedReqId, got: Option<DiffusionOutput>, answer: Option<DiffusionOutput>) {
    /** Still inside the call, its event set. */
    predicate Awake() { got.Some? && answer.None? }

    /** Still inside the call, its event unset. */
    predicate Asleep() { got.None? && answer.None? }
  }

  /** A stream, everything ever put into its queue, and whether its consumer is gone. */
  datatype Stream = Stream(id: SchedReqId, items: seq<Item>, left: bool)

  /** Where the driver thread stands between two critical sections. */
  datatype Phase =
    | Idle
    | Polled(hadRequests: bool)
    | Executing(batch: Batch)
    | Surfacing(finished: set<SchedReqId>)
    | Stopped

  datatype Engine = Engine(
    scheduler: Scheduler,
    abortQueue: seq<RequestId>,
    pendingResults: map<SchedReqId, DiffusionOutput>,
    reqEvents: map<SchedReqId, Ticket>,
    streamQueues: map<SchedReqId, Ticket>,
    waiters: map<Ticket, Waiter>,
    streams: map<Ticket, Stream>,
    tickets: nat,
    running: bool,
    phase: Phase)
  {
    /** Does the driver know this waiter's event? */
    predicate EventKnown(t: Ticket)
      requires t in waiters
    {
      waiters[t].id in reqEvents && reqEvents[waiters[t].id] == t
    }

    /** Does the driver know this stream's queue? */
    predicate QueueKnown(t: Ticket)
      requires t in streams
    {
      streams[t].id in streamQueues && streamQueues[streams[t].id] == t
    }
  }

  /** The error a waiter would see if it woke up without a stored result. */
  const NO_RESULT := ErrorOutput("Driver returned no result")

  const ENGINE_DIED := ErrorOutput("Diffusion engine died.")

  const MISSING_OUTPUT := ErrorOutput("Diffusion execution finished without a final output.")

  function AbortResult(state: RequestState, id: SchedReqId): DiffusionOutput {
    AbortOutput(if state.requestIds != [] then state.requestIds[0] else id)
  }

  /** The result the driver selects for a finished request. */
  function SelectResult(scheduler: Scheduler, id: SchedReqId, output: RunnerOutput): DiffusionOutput {
    if id in scheduler.states && scheduler.states[id].status == Aborted then
      AbortResult(scheduler.states[id], id)
    else if output.perRequestResults.Some? && id in output.perRequestResults.value then
      output.perRequestResults.value[id]
    else if output.result.Some? then
      output.result.value
    else
      MISSING_OUTPUT
  }

  /** `_finalize_finished_request` of the legacy path, called with a runner output.
      A lost scheduler state raises. */
  function Finalize(scheduler: Scheduler, id: SchedReqId, output: Option<RunnerOutput>,
                    missing: DiffusionOutput): Option<DiffusionOutput>
  {
    if id !in scheduler.states then None
    else if scheduler.states[id].status == Aborted then Some(AbortResult(scheduler.states[id], id))
    else if output.None? then Some(missing)
    else
      var results := if output.value.perRequestResults.Some? then output.value.perRequestResults.value else map[];
      if id in results then Some(results[id])
      else if output.value.result.Some? then output.value.result
      else Some(missing)
  }

  // ---- Submitting and collecting (HTTP threads) ----

  /** A submission that raises never gets to register its event. */
  function SubmitWaiter(e: Engine, id: SchedReqId, requestIds: seq<RequestId>): Engine {
    var (s, raised) := e.scheduler.Submit(id, requestIds);
    if raised then e.(scheduler := s)
    else
      e.(scheduler := s,
         reqEvents := e.reqEvents[id := e.tickets],
         waiters := e.waiters[e.tickets := Waiter(id, None, None)],
         tickets := e.tickets + 1)
  }

  function SubmitStream(e: Engine, id: SchedReqId, requestIds: seq<RequestId>): Engine {
    var (s, raised) := e.scheduler.Submit(id, requestIds);
    if raised then e.(scheduler := s)
    else
      e.(scheduler := s,
         streamQueues := e.streamQueues[id := e.tickets],
         streams := e.streams[e.tickets := Stream(id, [], false)],
         tickets := e.tickets + 1)
  }

  function Collected(e: Engine, id: SchedReqId): DiffusionOutput {
    if id in e.pendingResults then e.pendingResults[id] else NO_RESULT
  }

  /** A woken waiter takes what is stored under its id, and whatever event is there. */
  function Collect(e: Engine, t: Ticket): Engine
    requires t in e.waiters
  {
    var id := e.waiters[t].id;
    e.(pendingResults := e.pendingResults - {id},
       reqEvents := e.reqEvents - {id},
       waiters := e.waiters[t := e.waiters[t].(answer := Some(Collected(e, id)))])
  }

  /** A consumer that ends takes away whatever queue is there under its id. */
  function LeaveStream(e: Engine, t: Ticket): Engine
    requires t in e.streams
  {
    e.(streamQueues := e.streamQueues - {e.streams[t].id},
       streams := e.streams[t := e.streams[t].(left := true)])
  }

  // ---- Aborts ----

  /** The scheduler ids that some public ids resolve to. */
  function Resolved(requestIds: seq<RequestId>, activeIds: map<RequestId, SchedReqId>): set<SchedReqId> {
    set r | r in requestIds && r in activeIds :: activeIds[r]
  }

  function AbortTargets(e: Engine): set<SchedReqId> {
    Resolved(e.abortQueue, e.scheduler.activeIds)
  }

  function ProcessAborts(e: Engine): Engine {
    e.(abortQueue := [],
       scheduler := e.scheduler.FinishRequests(map id | id in AbortTargets(e) :: Aborted))
  }

  // ---- Publishing (driver thread) ----

  /** The item that `_driver_dispatch_step_outputs` puts into the queue of `id`, if any. */
  function StepItem(streams: set<SchedReqId>, output: RunnerOutput, skip: set<SchedReqId>,
                    id: SchedReqId): Option<Item> {
    if id in skip || id !in streams then None
    else match output.perRequestResults
      case Some(results) =>
        if id in results then Some(Item(results[id], output.FinishedFlag(id))) else None
      case None =>
        if output.result.Some? && id == output.reqId
        then Some(Item(output.result.value, output.FinishedFlag(id))) else None
  }

  function StepFinals(streams: set<SchedReqId>, output: RunnerOutput, skip: set<SchedReqId>): set<SchedReqId> {
    set id |
      && id in streams && StepItem(streams, output, skip, id).Some?
      && StepItem(streams, output, skip, id).value.isFinal
  }

  /** The streams once each id the driver knows a queue for was sent `item(id)`, if any. */
  function Sent(streams: map<Ticket, Stream>, queues: map<SchedReqId, Ticket>,
                item: SchedReqId -> Option<Item>): map<Ticket, Stream>
  {
    map t | t in streams ::
      var s := streams[t];
      if s.id in queues && queues[s.id] == t && item(s.id).Some? then s.(items := s.items + [item(s.id).value]) else s
  }

  function StepItems(e: Engine, output: RunnerOutput, skip: set<SchedReqId>): SchedReqId -> Option<Item> {
    id => StepItem(e.streamQueues.Keys, output, skip, id)
  }

  function PublishStep(e: Engine, output: RunnerOutput, skip: set<SchedReqId>): Engine {
    e.(streams := Sent(e.streams, e.streamQueues, StepItems(e, output, skip)))
  }

  /** A final item for each id of a set. */
  function Closing(ids: set<SchedReqId>, result: SchedReqId -> DiffusionOutput): SchedReqId -> Option<Item> {
    id => if id in ids then Some(Item(result(id), true)) else None
  }

  /** The results stored once every id of `ids` got its own. */
  function Stored(results: map<SchedReqId, DiffusionOutput>, ids: set<SchedReqId>,
                  result: SchedReqId -> DiffusionOutput): map<SchedReqId, DiffusionOutput>
  {
    map id | id in results.Keys + ids :: if id in ids then result(id) else results[id]
  }

  /** The waiters once the events known for `ids` were set. */
  function Woken(waiters: map<Ticket, Waiter>, events: map<SchedReqId, Ticket>, ids: set<SchedReqId>,
                 result: SchedReqId -> DiffusionOutput): map<Ticket, Waiter>
  {
    map t | t in waiters ::
      var w := waiters[t];
      if w.id in ids && w.id in events && events[w.id] == t then w.(got := Some(result(w.id))) else w
  }

  /** One critical section hands every id of `ids` its result `result(id)`: to its
      stream queue unless that already has its final item, else to its waiter. */
  function Deliver(e: Engine, ids: set<SchedReqId>, result: SchedReqId -> DiffusionOutput,
                   finals: set<SchedReqId>): Engine
  {
    e.(scheduler := e.scheduler.PopAll(ids),
       streams := Sent(e.streams, e.streamQueues, Closing(ids - finals, result)),
       streamQueues := e.streamQueues - ids,
       pendingResults := Stored(e.pendingResults, ids - e.streamQueues.Keys, result),
       waiters := Woken(e.waiters, e.reqEvents, ids - e.streamQueues.Keys, result))
  }

  function Selecting(s: Scheduler, output: RunnerOutput): SchedReqId -> DiffusionOutput {
    id => SelectResult(s, id, output)
  }

  function Aborting(s: Scheduler): SchedReqId -> DiffusionOutput {
    id => if id in s.states then AbortResult(s.states[id], id) else MISSING_OUTPUT
  }

  /** The error stored for everybody when the engine dies. */
  const ENGINE_DEATH: SchedReqId -> DiffusionOutput := _ => ENGINE_DIED

  /** What is stored, for ids that have something stored. */
  function Taking(results: map<SchedReqId, DiffusionOutput>): SchedReqId -> DiffusionOutput {
    id => if id in results then results[id] else NO_RESULT
  }

  function DispatchFinished(e: Engine, ids: set<SchedReqId>, output: RunnerOutput,
                            finals: set<SchedReqId>): Engine
  {
    Deliver(e, ids, Selecting(e.scheduler, output), finals)
  }

  /** The ids for which `_driver_dispatch_aborts` does not `continue`. */
  function Abortable(e: Engine, ids: set<SchedReqId>): set<SchedReqId> {
    set id | id in ids && id !in e.pendingResults && id in e.scheduler.states
  }

  function DispatchAborts(e: Engine, ids: set<SchedReqId>): Engine {
    Deliver(e, Abortable(e, ids), Aborting(e.scheduler), {})
  }

  function SignalEngineDead(e: Engine): Engine {
    var stored := Stored(e.pendingResults, e.reqEvents.Keys - e.pendingResults.Keys, ENGINE_DEATH);
    e.(pendingResults := stored,
       waiters := Woken(e.waiters, e.reqEvents, e.reqEvents.Keys, Taking(stored)),
       streams := Sent(e.streams, e.streamQueues, Closing(e.streamQueues.Keys, ENGINE_DEATH)),
       streamQueues := map[],
       running := false)
  }

  // ---- The driver's update section ----

  /** The requests of the step that ended other than by completing. */
  function SkippedIds(s: Scheduler, ids: set<SchedReqId>): set<SchedReqId> {
    set id | id in ids && id in s.states && s.states[id].status != Completed
  }

  /** The engine after the scheduler has digested a runner output, before anything is
      published. */
  function Digest(e: Engine, batch: Batch, output: RunnerOutput, yielded: seq<SchedReqId>): Engine {
    var a := ProcessAborts(e);
    a.(scheduler := a.scheduler.UpdateFromOutput(batch, output, yielded))
  }

  function Update(e: Engine, batch: Batch, output: RunnerOutput, yielded: seq<SchedReqId>): Engine {
    var ids := ProcessAborts(e).scheduler.FinishedBy(batch, output);
    var updated := Digest(e, batch, output, yielded);
    var skip := SkippedIds(updated.scheduler, ids);
    DispatchFinished(PublishStep(updated, output, skip), ids, output,
                     StepFinals(updated.streamQueues.Keys, output, skip))
  }

  // ---- Steps ----

  datatype Step =
    | DoSubmitWaiter(id: SchedReqId, requestIds: seq<RequestId>)
    | DoSubmitStream(id: SchedReqId, requestIds: seq<RequestId>)
    | DoCollect(ticket: Ticket)
    | DoLeaveStream(ticket: Ticket)
    | DoAbort(requestIds: seq<RequestId>)
    | DoPoll
    | DoSchedule(selected: seq<SchedReqId>)
    | DoSurface
    | DoUpdate(output: RunnerOutput, yielded: seq<SchedReqId>)
    | DoEngineDied
    | DoClose
    | DoStop

  /** When the code can take a step.  A new scheduler id is only fresh among the states the
      scheduler still holds. */
  ghost predicate Enabled(e: Engine, step: Step) {
    match step
    case DoSubmitWaiter(id, _) => id !in e.scheduler.states
    case DoSubmitStream(id, _) => id !in e.scheduler.states
    case DoCollect(t) => t in e.waiters && e.waiters[t].Awake()
    case DoLeaveStream(t) => t in e.streams && !e.streams[t].left
    case DoAbort(_) => true
    case DoPoll => e.phase.Idle? && e.running
    case DoSchedule(selected) => e.phase.Polled? && e.scheduler.MaySelect(selected)
    case DoSurface => e.phase.Surfacing?
    case DoUpdate(output, yielded) =>
      && e.phase.Executing? && output.IsAbout(e.phase.batch.scheduled)
      && var s := ProcessAborts(e).scheduler;
         s.FinishRequests(s.Verdicts(e.phase.batch, output)).MayYield(yielded)
    case DoEngineDied => e.phase.Executing?
    case DoClose => e.running
    case DoStop => e.phase.Idle? && !e.running
  }

  /** Sets the phase after the driver's schedule section. */
  function AfterSchedule(e: Engine, selected: seq<SchedReqId>): Engine
    requires e.phase.Polled?
    requires forall id :: id in selected ==> id in e.scheduler.states
    requires forall id :: id in e.scheduler.running ==> id in e.scheduler.states
  {
    if !e.phase.hadRequests && !e.scheduler.HasRequests() then e.(phase := Idle)
    else
      var (s, batch) := e.scheduler.Schedule(selected);
      e.(scheduler := s, phase := if batch.scheduled == [] then Surfacing(batch.finished) else Executing(batch))
  }

  function Next(e: Engine, step: Step): Engine
    requires Enabled(e, step) && e.scheduler.Valid()
  {
    match step
    case DoSubmitWaiter(id, requestIds) => SubmitWaiter(e, id, requestIds)
    case DoSubmitStream(id, requestIds) => SubmitStream(e, id, requestIds)
    case DoCollect(t) => Collect(e, t)
    case DoLeaveStream(t) => LeaveStream(e, t)
    case DoAbort(requestIds) => e.(abortQueue := e.abortQueue + requestIds)
    case DoPoll =>
      var a := ProcessAborts(e);
      a.(phase := Polled(a.scheduler.HasRequests()))
    case DoSchedule(selected) => AfterSchedule(e, selected)
    case DoSurface => DispatchAborts(e, e.phase.finished).(phase := Idle)
    case DoUpdate(output, yielded) => Update(e, e.phase.batch, output, yielded).(phase := Idle)
    case DoEngineDied => SignalEngineDead(e).(phase := Stopped)
    case DoClose => SignalEngineDead(e)
    case DoStop => e.(phase := Stopped)
  }
}
