/**
 What holds in every state the driver, the HTTP threads and their clients can
 reach together, in any interleaving.
 */
module EngineSafety {
  import opened Common
  import opened DiffusionScheduler
  import opened EngineState

  ghost predicate FinalOnlyLast(items: seq<Item>) {
    forall i :: 0 <= i < |items| - 1 ==> !items[i].isFinal
  }

  ghost predicate HasFinal(items: seq<Item>) {
    exists i :: 0 <= i < |items| && items[i].isFinal
  }

  // ---- What the driver keeps whatever its clients do ----

  /** The tables lead from a scheduler id to a submission under that id. */
  ghost predicate Keyed(e: Engine) {
    && (forall id :: id in e.reqEvents ==> e.reqEvents[id] in e.waiters && e.waiters[e.reqEvents[id]].id == id)
    && (forall id :: id in e.streamQueues ==>
          e.streamQueues[id] in e.streams && e.streams[e.streamQueues[id]].id == id)
    && (forall t :: t in e.waiters ==> t < e.tickets)
    && (forall t :: t in e.streams ==> t < e.tickets)
  }

  /** The batch in flight: every member is still held by the scheduler, and one that
      ended meanwhile will be reported. */
  ghost predicate BatchTracked(s: Scheduler, batch: Batch) {
    && (forall id :: id in batch.scheduled ==> id in s.states)
    && (forall id :: id in batch.scheduled ==> (s.HasFinished(id) <==> id in s.finished))
  }

  ghost predicate PhaseConsistent(e: Engine) {
    match e.phase
    case Executing(batch) => BatchTracked(e.scheduler, batch)
    case Polled(hadRequests) => hadRequests ==> e.scheduler.HasRequests()
    case Surfacing(_) => false
    case _ => true
  }

  ghost predicate DriverInv(e: Engine) {
    e.scheduler.Valid() && Keyed(e) && PhaseConsistent(e)
  }

  // ---- What the clients rely on ----

  /** The driver knows the event of every waiter still inside its call.  One that sleeps is
      known to the scheduler and has no result yet (nothing is stored under its id but perhaps
      the error of an engine death); one that was woken has its result stored. */
  ghost predicate WaitersServed(e: Engine) {
    && (forall t :: t in e.waiters && e.waiters[t].answer.None? ==> WaiterServed(e, t))
    && (forall id :: id in e.reqEvents ==> e.reqEvents[id] in e.waiters && e.waiters[e.reqEvents[id]].answer.None?)
  }

  ghost predicate WaiterServed(e: Engine, t: Ticket)
    requires t in e.waiters
  {
    var w := e.waiters[t];
    && e.EventKnown(t)
    && (if w.got.None?
        then w.id in e.scheduler.states && (w.id in e.pendingResults ==> e.pendingResults[w.id] == ENGINE_DIED)
        else w.id in e.pendingResults && e.pendingResults[w.id] == w.got.value)
  }

  /** A waiter returned what was stored for it. */
  ghost predicate AnsweredRight(e: Engine) {
    forall t :: t in e.waiters && e.waiters[t].answer.Some? ==> e.waiters[t].answer == e.waiters[t].got
  }

  /** A queue the driver knows belongs to a live request and a consumer that is there, and
      holds a final item exactly if its id is in `finals`. */
  ghost predicate QueuesReady(e: Engine, finals: set<SchedReqId>) {
    forall id :: id in e.streamQueues ==>
      && id in e.scheduler.states && id !in e.reqEvents && e.streamQueues[id] in e.streams
      && !e.streams[e.streamQueues[id]].left
      && (HasFinal(e.streams[e.streamQueues[id]].items) <==> id in finals)
  }

  /** No queue holds anything after a final item, and the driver knows every queue that a
      consumer still expects something from. */
  ghost predicate StreamsOrderly(e: Engine) {
    forall t :: t in e.streams ==>
      && FinalOnlyLast(e.streams[t].items)
      && (!e.streams[t].left && !HasFinal(e.streams[t].items) ==> e.QueueKnown(t))
  }

  ghost predicate Inside(e: Engine, t: Ticket) { t in e.streams && !e.streams[t].left }

  /** No two consumers that are still there share a scheduler id. */
  ghost predicate ConsumersApart(e: Engine) {
    forall t, u :: Inside(e, t) && Inside(e, u) && e.streams[t].id == e.streams[u].id ==> t == u
  }

  /** Nothing follows a final item, and a queue the driver knows holds one exactly if its id
      is in `finals`. */
  ghost predicate QueueInOrder(e: Engine, finals: set<SchedReqId>, t: Ticket)
    requires t in e.streams
  {
    && FinalOnlyLast(e.streams[t].items)
    && (e.QueueKnown(t) ==> (HasFinal(e.streams[t].items) <==> e.streams[t].id in finals))
  }

  ghost predicate QueuesInOrder(e: Engine, finals: set<SchedReqId>) {
    forall t :: t in e.streams ==> QueueInOrder(e, finals, t)
  }

  ghost predicate StreamsOpen(e: Engine) {
    QueuesReady(e, {}) && StreamsOrderly(e)
  }

  ghost predicate ClientsServed(e: Engine) {
    WaitersServed(e) && AnsweredRight(e) && StreamsOpen(e) && ConsumersApart(e)
  }

  ghost predicate Inv(e: Engine) {
    DriverInv(e) && ClientsServed(e)
  }

  /** When a submission under an id used before disturbs nobody: a waiter needs that nothing
      is stored under the id, or nothing but the error of an engine death that nobody there
      has still to take; a stream that nobody who had the id is still inside its call. */
  ghost predicate Fresh(e: Engine, step: Step) {
    match step
    case DoSubmitWaiter(id, _) =>
      id in e.pendingResults ==> id !in e.reqEvents && e.pendingResults[id] == ENGINE_DIED
    case DoSubmitStream(id, _) =>
      id !in e.reqEvents && forall t :: t in e.streams && e.streams[t].id == id ==> e.streams[t].left
    case _ => true
  }

  ghost predicate Initial(e: Engine) {
    && e.scheduler.states == map[] && e.scheduler.activeIds == map[]
    && e.scheduler.waiting == [] && e.scheduler.running == [] && 1 <= e.scheduler.maxRunning
    && e.pendingResults == map[] && e.reqEvents == map[] && e.streamQueues == map[]
    && e.waiters == map[] && e.streams == map[] && e.phase == Idle
  }

  /** `last` is what a run of `steps` from `first` ends in. */
  ghost predicate Runs(first: Engine, steps: seq<Step>, last: Engine)
    decreases |steps|
  {
    if steps == [] then last == first
    else
      && first.scheduler.Valid()
      && Enabled(first, steps[0])
      && Runs(Next(first, steps[0]), steps[1..], last)
  }

  /** Every submission of the run is under a fresh id. */
  ghost predicate FreshRun(first: Engine, steps: seq<Step>)
    decreases |steps|
  {
    steps == [] ||
    (&& first.scheduler.Valid()
     && Enabled(first, steps[0]) && Fresh(first, steps[0])
     && FreshRun(Next(first, steps[0]), steps[1..]))
  }

  // ---- Deliveries ----

  /** Sending items looks at one queue at a time. */
  lemma SentAt(streams: map<Ticket, Stream>, queues: map<SchedReqId, Ticket>, item: SchedReqId -> Option<Item>,
               t: Ticket)
    requires t in streams
    ensures var s := streams[t];
            Sent(streams, queues, item)[t].items
            == if s.id in queues && queues[s.id] == t && item(s.id).Some? then s.items + [item(s.id).value] else s.items
  {
  }

  lemma AppendFinal(items: seq<Item>, item: Item)
    requires FinalOnlyLast(items) && !HasFinal(items)
    ensures FinalOnlyLast(items + [item])
    ensures HasFinal(items + [item]) <==> item.isFinal
  {
    var more := items + [item];
    assert more[|items|] == item;
    forall i | 0 <= i < |items| ensures more[i] == items[i] && !items[i].isFinal {}
  }

  lemma DeliverServesWaiters(e: Engine, ids: set<SchedReqId>, result: SchedReqId -> DiffusionOutput,
                             finals: set<SchedReqId>)
    requires Keyed(e) && WaitersServed(e) && AnsweredRight(e)
    requires forall id :: id in e.streamQueues ==> id !in e.reqEvents
    ensures WaitersServed(Deliver(e, ids, result, finals)) && AnsweredRight(Deliver(e, ids, result, finals))
    ensures Keyed(Deliver(e, ids, result, finals))
  {
    var d := Deliver(e, ids, result, finals);
    DeliverKeepsKeys(e, ids, result, finals);
    hide WaiterServed, Keyed, Deliver;
    forall t | t in d.waiters
      ensures d.waiters[t].answer.None? ==> WaiterServed(d, t)
      ensures d.waiters[t].answer.Some? ==> d.waiters[t] == e.waiters[t]
    {
      DeliverServesWaiter(e, ids, result, finals, t);
    }
  }

  lemma DeliverKeepsKeys(e: Engine, ids: set<SchedReqId>, result: SchedReqId -> DiffusionOutput,
                         finals: set<SchedReqId>)
    ensures var d := Deliver(e, ids, result, finals);
            && d.reqEvents == e.reqEvents && d.waiters.Keys == e.waiters.Keys
            && (forall t :: t in e.waiters ==> d.waiters[t].answer == e.waiters[t].answer)
            && (Keyed(e) ==> Keyed(d))
  {
  }

  lemma DeliverServesWaiter(e: Engine, ids: set<SchedReqId>, result: SchedReqId -> DiffusionOutput,
                            finals: set<SchedReqId>, t: Ticket)
    requires Keyed(e) && WaitersServed(e) && t in e.waiters
    requires forall id :: id in e.streamQueues ==> id !in e.reqEvents
    ensures var d := Deliver(e, ids, result, finals);
            && (d.waiters[t].answer.None? ==> WaiterServed(d, t))
            && (d.waiters[t].answer.Some? ==> d.waiters[t] == e.waiters[t])
  {
    if e.waiters[t].answer.None? { assert WaiterServed(e, t); } else { assert !e.EventKnown(t); }
  }

  /** Handing out results keeps waiters and streams served, provided exactly the
      queues in `finals` already hold their final item. */
  lemma DeliverServes(e: Engine, ids: set<SchedReqId>, result: SchedReqId -> DiffusionOutput, finals: set<SchedReqId>)
    requires Keyed(e) && WaitersServed(e) && AnsweredRight(e) && ConsumersApart(e)
    requires QueuesReady(e, finals) && StreamsOrderly(e)
    requires finals * e.streamQueues.Keys <= ids
    ensures Keyed(Deliver(e, ids, result, finals)) && ClientsServed(Deliver(e, ids, result, finals))
  {
    var d := Deliver(e, ids, result, finals);
    DeliverServesWaiters(e, ids, result, finals);
    DeliverOpensQueues(e, ids, result, finals);
    DeliverKeepsApart(e, ids, result, finals);
    hide ConsumersApart;
    forall t | t in d.streams
      ensures FinalOnlyLast(d.streams[t].items)
      ensures !d.streams[t].left && !HasFinal(d.streams[t].items) ==> d.QueueKnown(t)
    {
      DeliverKeepsStream(e, ids, result, finals, t);
    }
  }

  lemma DeliverOpensQueues(e: Engine, ids: set<SchedReqId>, result: SchedReqId -> DiffusionOutput,
                           finals: set<SchedReqId>)
    requires Keyed(e) && QueuesReady(e, finals) && finals * e.streamQueues.Keys <= ids
    ensures QueuesReady(Deliver(e, ids, result, finals), {})
  {
  }

  lemma DeliverKeepsStream(e: Engine, ids: set<SchedReqId>, result: SchedReqId -> DiffusionOutput,
                           finals: set<SchedReqId>, t: Ticket)
    requires Keyed(e) && QueuesReady(e, finals) && StreamsOrderly(e) && t in e.streams
    ensures var d := Deliver(e, ids, result, finals);
            && FinalOnlyLast(d.streams[t].items)
            && (!d.streams[t].left && !HasFinal(d.streams[t].items) ==> d.QueueKnown(t))
  {
    var s := e.streams[t];
    SentAt(e.streams, e.streamQueues, Closing(ids - finals, result), t);
    if e.QueueKnown(t) && s.id in ids && s.id !in finals {
      AppendFinal(s.items, Item(result(s.id), true));
    }
  }

  lemma DeliverKeepsApart(e: Engine, ids: set<SchedReqId>, result: SchedReqId -> DiffusionOutput,
                          finals: set<SchedReqId>)
    requires ConsumersApart(e)
    ensures ConsumersApart(Deliver(e, ids, result, finals))
  {
  }

  /** Every delivered stream ends with exactly one final item. */
  lemma DeliverCloses(e: Engine, ids: set<SchedReqId>, result: SchedReqId -> DiffusionOutput,
                      finals: set<SchedReqId>, t: Ticket)
    requires t in e.streams && QueueInOrder(e, finals, t) && e.QueueKnown(t) && e.streams[t].id in ids
    ensures var items := Deliver(e, ids, result, finals).streams[t].items;
            && FinalOnlyLast(items) && items != [] && items[|items| - 1].isFinal
            && (e.streams[t].id !in finals ==> items == e.streams[t].items + [Item(result(e.streams[t].id), true)])
  {
    var s := e.streams[t];
    var items := Deliver(e, ids, result, finals).streams[t].items;
    SentAt(e.streams, e.streamQueues, Closing(ids - finals, result), t);
    if s.id in finals {
      var i :| 0 <= i < |s.items| && s.items[i].isFinal;
      assert i == |items| - 1;
    } else {
      AppendFinal(s.items, Item(result(s.id), true));
    }
  }

  /** A delivered waiter is woken with its result. */
  lemma DeliverWakes(e: Engine, ids: set<SchedReqId>, result: SchedReqId -> DiffusionOutput,
                     finals: set<SchedReqId>, t: Ticket)
    requires t in e.waiters && e.EventKnown(t) && e.waiters[t].id in ids && e.waiters[t].id !in e.streamQueues
    ensures var d := Deliver(e, ids, result, finals);
            && d.waiters[t] == e.waiters[t].(got := Some(result(e.waiters[t].id)))
            && e.waiters[t].id in d.pendingResults && d.pendingResults[e.waiters[t].id] == result(e.waiters[t].id)
  {
  }

  lemma DispatchAbortsKeepsInv(e: Engine, ids: set<SchedReqId>)
    requires Keyed(e) && ClientsServed(e)
    ensures Keyed(DispatchAborts(e, ids)) && ClientsServed(DispatchAborts(e, ids))
  {
    DeliverServes(e, Abortable(e, ids), Aborting(e.scheduler), {});
  }

  // ---- The driver's sections ----

  lemma ProcessAbortsKeepsDriver(e: Engine)
    requires DriverInv(e)
    ensures ProcessAborts(e).scheduler.Valid() && Keyed(ProcessAborts(e))
    ensures e.phase.Executing? ==> BatchTracked(ProcessAborts(e).scheduler, e.phase.batch)
    ensures ProcessAborts(e).scheduler.states.Keys == e.scheduler.states.Keys
  {
    var statuses: map<SchedReqId, Status> := map id | id in AbortTargets(e) :: Aborted;
    FinishRequestsKeepsValid(e.scheduler, statuses);
    FinishRequestsEnds(e.scheduler, statuses);
  }

  /** Only the ids of live requests matter to the clients, not their statuses. */
  lemma ClientsLookAtIds(e: Engine, n: Engine)
    requires n == e.(scheduler := n.scheduler, abortQueue := n.abortQueue, phase := n.phase)
    requires n.scheduler.states.Keys == e.scheduler.states.Keys
    ensures Keyed(e) ==> Keyed(n)
    ensures ClientsServed(e) ==> ClientsServed(n)
  {
    if ClientsServed(e) {
      forall t | t in n.waiters && n.waiters[t].answer.None? ensures WaiterServed(n, t) {
        assert WaiterServed(e, t);
      }
      assert forall t :: t in e.streams ==> n.QueueKnown(t) == e.QueueKnown(t);
    }
  }

  /** The premise that keeps streams open: a step output flagged finished, for a
      stream that is not skipped, belongs to a request the scheduler reports finished. */
  ghost predicate FinalsReported(e: Engine, output: RunnerOutput, skip: set<SchedReqId>, ids: set<SchedReqId>) {
    StepFinals(e.streamQueues.Keys, output, skip) <= ids
  }

  /** Both schedulers meet the premise for any output about the batch they handed out. */
  lemma SchedulersReportFinals(e: Engine, batch: Batch, output: RunnerOutput, yielded: seq<SchedReqId>,
                               skip: set<SchedReqId>)
    requires BatchTracked(e.scheduler, batch) && output.IsAbout(batch.scheduled)
    ensures FinalsReported(e.(scheduler := e.scheduler.UpdateFromOutput(batch, output, yielded)),
                           output, skip, e.scheduler.FinishedBy(batch, output))
  {
    var s := e.scheduler;
    var updated := e.(scheduler := s.UpdateFromOutput(batch, output, yielded));
    forall id | id in StepFinals(updated.streamQueues.Keys, output, skip) ensures id in s.FinishedBy(batch, output) {
      assert output.FinishedFlag(id) && id in batch.scheduled;
      if !s.HasFinished(id) {
        assert s.Verdict(output, id).Some?;
        assert id in s.Verdicts(batch, output);
      }
    }
  }

  /** Publishing one step's outputs: afterwards a known queue holds a final item exactly
      if the step put it there, and always last. */
  lemma PublishStepMarksFinals(e: Engine, output: RunnerOutput, skip: set<SchedReqId>)
    requires QueuesInOrder(e, {})
    ensures QueuesInOrder(PublishStep(e, output, skip), StepFinals(e.streamQueues.Keys, output, skip))
  {
    forall t | t in e.streams
      ensures QueueInOrder(PublishStep(e, output, skip), StepFinals(e.streamQueues.Keys, output, skip), t)
    {
      PublishStepAt(e, output, skip, t);
    }
  }

  lemma PublishStepAt(e: Engine, output: RunnerOutput, skip: set<SchedReqId>, t: Ticket)
    requires t in e.streams && QueueInOrder(e, {}, t)
    ensures QueueInOrder(PublishStep(e, output, skip), StepFinals(e.streamQueues.Keys, output, skip), t)
    ensures HasFinal(e.streams[t].items) ==> PublishStep(e, output, skip).streams[t].items == e.streams[t].items
  {
    var s := e.streams[t];
    var item := StepItem(e.streamQueues.Keys, output, skip, s.id);
    SentAt(e.streams, e.streamQueues, StepItems(e, output, skip), t);
    if e.QueueKnown(t) && item.Some? { AppendFinal(s.items, item.value); }
  }

  lemma OpenIsInOrder(e: Engine)
    requires StreamsOpen(e)
    ensures QueuesInOrder(e, {})
  {
    hide FinalOnlyLast, HasFinal;
  }

  lemma PublishStepKeepsReady(e: Engine, output: RunnerOutput, skip: set<SchedReqId>)
    requires Keyed(e) && StreamsOpen(e)
    ensures var p := PublishStep(e, output, skip);
            Keyed(p) && QueuesReady(p, StepFinals(e.streamQueues.Keys, output, skip)) && StreamsOrderly(p)
  {
    var p := PublishStep(e, output, skip);
    OpenIsInOrder(e);
    PublishStepMarksFinals(e, output, skip);
    forall t | t in p.streams && !p.streams[t].left && !HasFinal(p.streams[t].items) ensures p.QueueKnown(t) {
      PublishStepAt(e, output, skip, t);
    }
  }

  /** The publishing half of the update section keeps every known queue open exactly
      when the premise holds. */
  lemma PublishAndDispatchServe(e: Engine, ids: set<SchedReqId>, output: RunnerOutput, skip: set<SchedReqId>)
    requires Keyed(e) && ClientsServed(e)
    ensures var d := DispatchFinished(PublishStep(e, output, skip), ids, output,
                                      StepFinals(e.streamQueues.Keys, output, skip));
            && (StreamsOpen(d) <==> FinalsReported(e, output, skip, ids))
            && (FinalsReported(e, output, skip, ids) ==> Keyed(d) && ClientsServed(d))
  {
    var p := PublishStep(e, output, skip);
    var finals := StepFinals(e.streamQueues.Keys, output, skip);
    PublishStepKeepsReady(e, output, skip);
    PublishLeavesWaiters(e, output, skip);
    if FinalsReported(e, output, skip, ids) {
      DeliverServes(p, ids, Selecting(p.scheduler, output), finals);
    } else {
      var id :| id in finals && id !in ids;
      UnreportedStaysClosed(p, ids, Selecting(p.scheduler, output), finals, id);
    }
  }

  lemma PublishLeavesWaiters(e: Engine, output: RunnerOutput, skip: set<SchedReqId>)
    requires WaitersServed(e) && AnsweredRight(e) && ConsumersApart(e)
    ensures WaitersServed(PublishStep(e, output, skip)) && AnsweredRight(PublishStep(e, output, skip))
    ensures ConsumersApart(PublishStep(e, output, skip))
  {
    var p := PublishStep(e, output, skip);
    forall t | t in p.waiters && p.waiters[t].answer.None? ensures WaiterServed(p, t) {
      assert WaiterServed(e, t);
    }
  }

  lemma UnreportedStaysClosed(p: Engine, ids: set<SchedReqId>, result: SchedReqId -> DiffusionOutput,
                              finals: set<SchedReqId>, id: SchedReqId)
    requires Keyed(p) && QueuesReady(p, finals) && id in finals && id !in ids && id in p.streamQueues
    ensures !StreamsOpen(Deliver(p, ids, result, finals))
  {
    var d := Deliver(p, ids, result, finals);
    var t := p.streamQueues[id];
    SentAt(p.streams, p.streamQueues, Closing(ids - finals, result), t);
    assert id in d.streamQueues && HasFinal(d.streams[t].items);
  }

  lemma DigestKeepsInv(e: Engine, output: RunnerOutput, yielded: seq<SchedReqId>)
    requires DriverInv(e) && Enabled(e, DoUpdate(output, yielded))
    ensures var u := Digest(e, e.phase.batch, output, yielded);
            && u.scheduler.Valid() && Keyed(u) && (ClientsServed(e) ==> ClientsServed(u))
            && u.scheduler.states.Keys == e.scheduler.states.Keys
            && forall id :: id in ProcessAborts(e).scheduler.FinishedBy(e.phase.batch, output) <==>
                            id in e.phase.batch.scheduled && u.scheduler.HasFinished(id)
  {
    var a := ProcessAborts(e);
    ProcessAbortsKeepsDriver(e);
    UpdateEndsWhatItReports(a.scheduler, e.phase.batch, output, yielded);
    ClientsLookAtIds(e, Digest(e, e.phase.batch, output, yielded));
  }

  /** The update section in one expression, after the scheduler took the output in. */
  function Dispatched(u: Engine, ids: set<SchedReqId>, output: RunnerOutput): Engine {
    var skip := SkippedIds(u.scheduler, ids);
    DispatchFinished(PublishStep(u, output, skip), ids, output, StepFinals(u.streamQueues.Keys, output, skip))
  }

  lemma UpdateIsDispatched(e: Engine, output: RunnerOutput, yielded: seq<SchedReqId>)
    requires e.scheduler.Valid() && Enabled(e, DoUpdate(output, yielded))
    ensures Next(e, DoUpdate(output, yielded))
            == Dispatched(Digest(e, e.phase.batch, output, yielded),
                          ProcessAborts(e).scheduler.FinishedBy(e.phase.batch, output), output).(phase := Idle)
  {
  }

  lemma DispatchKeepsDriver(u: Engine, ids: set<SchedReqId>, output: RunnerOutput)
    requires u.scheduler.Valid() && Keyed(u)
    requires forall id :: id in ids ==> u.scheduler.HasFinished(id)
    ensures Dispatched(u, ids, output).scheduler.Valid() && Keyed(Dispatched(u, ids, output))
  {
    PopAllKeepsValid(u.scheduler, ids);
  }

  lemma UpdateKeepsInv(e: Engine, output: RunnerOutput, yielded: seq<SchedReqId>)
    requires DriverInv(e) && Enabled(e, DoUpdate(output, yielded))
    ensures DriverInv(Next(e, DoUpdate(output, yielded)))
    ensures ClientsServed(e) ==> ClientsServed(Next(e, DoUpdate(output, yielded)))
  {
    var a := ProcessAborts(e);
    var ids := a.scheduler.FinishedBy(e.phase.batch, output);
    ProcessAbortsKeepsDriver(e);
    DigestKeepsInv(e, output, yielded);
    UpdateIsDispatched(e, output, yielded);
    var u := Digest(e, e.phase.batch, output, yielded);
    SchedulersReportFinals(a, e.phase.batch, output, yielded, SkippedIds(u.scheduler, ids));
    DispatchKeepsDriver(u, ids, output);
    if ClientsServed(e) {
      PublishAndDispatchServe(u, ids, output, SkippedIds(u.scheduler, ids));
      PhaseIsNoClientMatter(Dispatched(u, ids, output), Idle);
    }
  }

  lemma PhaseIsNoClientMatter(e: Engine, phase: Phase)
    ensures ClientsServed(e) ==> ClientsServed(e.(phase := phase))
  {
    ClientsLookAtIds(e, e.(phase := phase));
  }

  lemma PollKeepsInv(e: Engine)
    requires DriverInv(e) && Enabled(e, DoPoll)
    ensures DriverInv(Next(e, DoPoll))
    ensures ClientsServed(e) ==> ClientsServed(Next(e, DoPoll))
  {
    ProcessAbortsKeepsDriver(e);
    ClientsLookAtIds(e, Next(e, DoPoll));
  }

  lemma RunningBatchTracked(s: Scheduler, batch: Batch)
    requires s.Valid() && s.finished == {}
    requires forall id :: id in batch.scheduled ==> id in s.running
    ensures BatchTracked(s, batch)
  {
  }

  /** What the schedule section does to the engine besides the scheduler. */
  ghost predicate Scheduled(e: Engine, n: Engine) {
    && n == e.(scheduler := n.scheduler, phase := n.phase)
    && n.scheduler.states.Keys == e.scheduler.states.Keys
    && n.scheduler.Valid() && PhaseConsistent(n) && !n.phase.Surfacing?
  }

  lemma ScheduledBatch(e: Engine, s: Scheduler, batch: Batch)
    requires s.Valid() && s.states.Keys == e.scheduler.states.Keys && s.finished == {}
    requires forall id :: id in batch.scheduled ==> id in s.running
    ensures Scheduled(e, e.(scheduler := s, phase := Executing(batch)))
  {
    RunningBatchTracked(s, batch);
  }

  lemma ScheduleStep(e: Engine, selected: seq<SchedReqId>)
    requires DriverInv(e) && Enabled(e, DoSchedule(selected))
    ensures Scheduled(e, Next(e, DoSchedule(selected)))
  {
    var n := Next(e, DoSchedule(selected));
    assert e.phase.Polled? && n == AfterSchedule(e, selected);
    ScheduleKeepsValid(e.scheduler, selected);
    var (s, batch) := e.scheduler.Schedule(selected);
    hide Scheduled, Next, Scheduler.Schedule, BatchTracked, Enabled;
    if !e.phase.hadRequests && !e.scheduler.HasRequests() {
      assert n == e.(phase := Idle);
      assert Scheduled(e, n) by { IdleIsScheduled(e); }
    } else {
      assert n == e.(scheduler := s, phase := Executing(batch));
      ScheduledBatch(e, s, batch);
    }
  }

  lemma IdleIsScheduled(e: Engine)
    requires DriverInv(e)
    ensures Scheduled(e, e.(phase := Idle))
  {
  }

  lemma KeyedLooksAtClients(e: Engine, n: Engine)
    requires Keyed(e) && n == e.(scheduler := n.scheduler, phase := n.phase)
    ensures Keyed(n)
  {
  }

  /** The batch a schedule section hands to the executor is never empty, so the driver
      never gets to surface aborts that carry no work. */
  lemma ScheduleKeepsInv(e: Engine, selected: seq<SchedReqId>)
    requires DriverInv(e) && Enabled(e, DoSchedule(selected))
    ensures DriverInv(Next(e, DoSchedule(selected)))
    ensures ClientsServed(e) ==> ClientsServed(Next(e, DoSchedule(selected)))
    ensures !Next(e, DoSchedule(selected)).phase.Surfacing?
  {
    ScheduleStep(e, selected);
    KeyedLooksAtClients(e, Next(e, DoSchedule(selected)));
    hide Next, ClientsServed, Keyed, PhaseConsistent, Scheduler.Valid;
    ClientsLookAtIds(e, Next(e, DoSchedule(selected)));
  }

  // ---- Engine death ----

  lemma SignalWakesWaiters(e: Engine)
    requires Keyed(e) && WaitersServed(e) && AnsweredRight(e)
    ensures var d := SignalEngineDead(e);
            && WaitersServed(d) && AnsweredRight(d)
            && (forall t :: t in e.waiters && e.waiters[t].Asleep() ==> d.waiters[t].got == Some(ENGINE_DIED))
            && (forall t :: t in e.waiters && !e.waiters[t].Asleep() ==> d.waiters[t] == e.waiters[t])
  {
    var d := SignalEngineDead(e);
    SignalKeepsTickets(e);
    SignalKeepsEvents(e);
    hide SignalEngineDead, WaiterServed, Keyed;
    forall t | t in e.waiters
      ensures e.waiters[t].answer.None? ==> WaiterServed(d, t)
      ensures e.waiters[t].Asleep() ==> d.waiters[t].got == Some(ENGINE_DIED)
      ensures !e.waiters[t].Asleep() ==> d.waiters[t] == e.waiters[t]
    {
      SignalWakes(e, t);
    }
  }

  lemma SignalKeepsEvents(e: Engine)
    ensures SignalEngineDead(e).reqEvents == e.reqEvents
    ensures forall t :: t in e.waiters ==> SignalEngineDead(e).waiters[t].answer == e.waiters[t].answer
  {
  }

  lemma SignalWakes(e: Engine, t: Ticket)
    requires Keyed(e) && WaitersServed(e) && AnsweredRight(e) && t in e.waiters
    ensures var d := SignalEngineDead(e);
            && (e.waiters[t].answer.None? ==> WaiterServed(d, t))
            && (e.waiters[t].Asleep() ==> d.waiters[t].got == Some(ENGINE_DIED))
            && (!e.waiters[t].Asleep() ==> d.waiters[t] == e.waiters[t])
  {
    if e.waiters[t].answer.None? { assert WaiterServed(e, t); } else { assert !e.EventKnown(t); }
  }

  lemma SignalCloses(e: Engine, t: Ticket)
    requires t in e.streams && QueueInOrder(e, {}, t)
    ensures var d := SignalEngineDead(e);
            && FinalOnlyLast(d.streams[t].items) && (HasFinal(e.streams[t].items) ==> d.streams[t] == e.streams[t])
            && (e.QueueKnown(t) ==> d.streams[t].items == e.streams[t].items + [Item(ENGINE_DIED, true)])
            && (e.QueueKnown(t) ==> HasFinal(d.streams[t].items))
  {
    SentAt(e.streams, e.streamQueues, Closing(e.streamQueues.Keys, ENGINE_DEATH), t);
    if e.QueueKnown(t) { AppendFinal(e.streams[t].items, Item(ENGINE_DIED, true)); }
  }

  lemma SignalClosesStreams(e: Engine)
    requires Keyed(e) && StreamsOpen(e)
    ensures var d := SignalEngineDead(e);
            && StreamsOpen(d) && d.streamQueues == map[]
            && (forall t :: t in e.streams && e.QueueKnown(t) ==>
                  d.streams[t].items == e.streams[t].items + [Item(ENGINE_DIED, true)])
            && (forall t :: t in e.streams && !d.streams[t].left ==> HasFinal(d.streams[t].items))
  {
    var d := SignalEngineDead(e);
    assert d.streamQueues == map[];
    OpenIsInOrder(e);
    assert forall t :: t in e.streams ==> d.streams[t].left == e.streams[t].left;
    SignalKeepsTickets(e);
    hide SignalEngineDead, FinalOnlyLast, HasFinal, QueuesReady, Keyed;
    forall t | t in e.streams
      ensures t in d.streams && FinalOnlyLast(d.streams[t].items)
      ensures !d.streams[t].left ==> HasFinal(d.streams[t].items)
      ensures e.QueueKnown(t) ==> d.streams[t].items == e.streams[t].items + [Item(ENGINE_DIED, true)]
    {
      SignalCloses(e, t);
    }
    assert QueuesReady(d, {}) by { NoQueuesReady(d); }
  }

  lemma NoQueuesReady(e: Engine)
    requires e.streamQueues == map[]
    ensures QueuesReady(e, {})
  {
  }

  lemma SignalKeepsTickets(e: Engine)
    ensures SignalEngineDead(e).streams.Keys == e.streams.Keys
    ensures ConsumersApart(e) ==> ConsumersApart(SignalEngineDead(e))
    ensures SignalEngineDead(e).waiters.Keys == e.waiters.Keys
  {
  }

  /** When the engine dies or is closed, every known queue gets the error as its one final
      item, every waiter still asleep is woken with it, and nobody else is disturbed. */
  lemma SignalTellsEveryone(e: Engine)
    requires Keyed(e) && ClientsServed(e)
    ensures var d := SignalEngineDead(e);
            && ClientsServed(d) && d.streamQueues == map[] && !d.running
            && (forall t :: t in e.streams && e.QueueKnown(t) ==>
                  d.streams[t].items == e.streams[t].items + [Item(ENGINE_DIED, true)])
            && (forall t :: t in e.streams && !d.streams[t].left ==> HasFinal(d.streams[t].items))
            && (forall t :: t in e.waiters && e.waiters[t].Asleep() ==> d.waiters[t].got == Some(ENGINE_DIED))
            && (forall t :: t in e.waiters && !e.waiters[t].Asleep() ==> d.waiters[t] == e.waiters[t])
  {
    SignalWakesWaiters(e);
    SignalClosesStreams(e);
    SignalKeepsTickets(e);
  }

  lemma SignalKeepsDriver(e: Engine)
    requires DriverInv(e)
    ensures DriverInv(SignalEngineDead(e))
  {
  }

  // ---- The clients' sections ----

  lemma SubmittedStates(s: Scheduler, id: SchedReqId, requestIds: seq<RequestId>)
    ensures s.Submit(id, requestIds).0.states.Keys == s.states.Keys + {id}
    ensures s.Submit(id, requestIds).0.finished == s.finished
    ensures forall x :: x in s.states && x != id ==> s.Submit(id, requestIds).0.states[x] == s.states[x]
    ensures s.HasRequests() ==> s.Submit(id, requestIds).0.HasRequests()
  {
  }

  lemma SubmitKeepsPhase(e: Engine, id: SchedReqId, requestIds: seq<RequestId>)
    requires PhaseConsistent(e) && id !in e.scheduler.states
    ensures PhaseConsistent(e.(scheduler := e.scheduler.Submit(id, requestIds).0))
  {
    SubmittedStates(e.scheduler, id, requestIds);
    hide Scheduler.Submit, Scheduler.HasRequests;
  }

  /** The engine with one more waiter registered, and with one more stream. */
  function WithWaiter(e: Engine, s: Scheduler, id: SchedReqId): Engine {
    e.(scheduler := s, reqEvents := e.reqEvents[id := e.tickets],
       waiters := e.waiters[e.tickets := Waiter(id, None, None)], tickets := e.tickets + 1)
  }

  function WithStream(e: Engine, s: Scheduler, id: SchedReqId): Engine {
    e.(scheduler := s, streamQueues := e.streamQueues[id := e.tickets],
       streams := e.streams[e.tickets := Stream(id, [], false)], tickets := e.tickets + 1)
  }

  lemma SubmissionIs(e: Engine, step: Step)
    requires e.scheduler.Valid() && Enabled(e, step) && (step.DoSubmitWaiter? || step.DoSubmitStream?)
    ensures var (s, raised) := e.scheduler.Submit(step.id, step.requestIds);
            Next(e, step) == if raised then e.(scheduler := s)
                             else if step.DoSubmitWaiter? then WithWaiter(e, s, step.id)
                             else WithStream(e, s, step.id)
  {
  }

  lemma MoreKeyed(e: Engine, s: Scheduler, id: SchedReqId)
    requires Keyed(e)
    ensures Keyed(e.(scheduler := s)) && Keyed(WithWaiter(e, s, id)) && Keyed(WithStream(e, s, id))
  {
  }

  lemma PhaseLooksAtScheduler(e: Engine, n: Engine)
    requires n.scheduler == e.scheduler && n.phase == e.phase
    ensures PhaseConsistent(e) ==> PhaseConsistent(n)
  {
  }

  /** The tables after a submission, raising or not. */
  lemma SubmitKeepsDriver(e: Engine, step: Step)
    requires DriverInv(e) && Enabled(e, step) && (step.DoSubmitWaiter? || step.DoSubmitStream?)
    ensures DriverInv(Next(e, step))
  {
    SubmissionIs(e, step);
    SubmitIsCleanExactly(e.scheduler, step.id, step.requestIds);
    SubmitKeepsPhase(e, step.id, step.requestIds);
    var s := e.scheduler.Submit(step.id, step.requestIds).0;
    MoreKeyed(e, s, step.id);
    PhaseLooksAtScheduler(e.(scheduler := s), Next(e, step));
    hide Next, Keyed, PhaseConsistent, Scheduler.Valid, Scheduler.Submit, Enabled;
  }

  lemma MoreStatesServe(e: Engine, s: Scheduler)
    requires ClientsServed(e) && e.scheduler.states.Keys <= s.states.Keys
    ensures ClientsServed(e.(scheduler := s))
  {
    hide FinalOnlyLast, HasFinal;
    var n := e.(scheduler := s);
    forall t | t in n.waiters && n.waiters[t].answer.None? ensures WaiterServed(n, t) { assert WaiterServed(e, t); }
    assert forall t :: t in e.streams ==> n.QueueKnown(t) == e.QueueKnown(t);
  }

  lemma WithWaiterServesWaiters(e: Engine, s: Scheduler, id: SchedReqId)
    requires Keyed(e) && WaitersServed(e) && AnsweredRight(e)
    requires s.states.Keys == e.scheduler.states.Keys + {id} && id !in e.scheduler.states
    requires Fresh(e, DoSubmitWaiter(id, []))
    ensures WaitersServed(WithWaiter(e, s, id)) && AnsweredRight(WithWaiter(e, s, id))
  {
    var n := WithWaiter(e, s, id);
    forall t | t in n.waiters && n.waiters[t].answer.None? ensures WaiterServed(n, t) {
      if t in e.waiters { assert WaiterServed(e, t); }
    }
  }

  lemma WithWaiterServes(e: Engine, s: Scheduler, id: SchedReqId)
    requires Keyed(e) && ClientsServed(e)
    requires s.states.Keys == e.scheduler.states.Keys + {id} && id !in e.scheduler.states
    requires Fresh(e, DoSubmitWaiter(id, []))
    ensures ClientsServed(WithWaiter(e, s, id))
  {
    hide FinalOnlyLast, HasFinal, WaitersServed, AnsweredRight;
    WithWaiterServesWaiters(e, s, id);
    var n := WithWaiter(e, s, id);
    assert forall t :: t in e.streams ==> n.QueueKnown(t) == e.QueueKnown(t);
  }

  lemma NothingIn(items: seq<Item>)
    requires items == []
    ensures !HasFinal(items) && FinalOnlyLast(items)
  {
  }

  lemma WithStreamServesWaiters(e: Engine, s: Scheduler, id: SchedReqId)
    requires WaitersServed(e) && AnsweredRight(e) && e.scheduler.states.Keys <= s.states.Keys
    ensures WaitersServed(WithStream(e, s, id)) && AnsweredRight(WithStream(e, s, id))
  {
    var n := WithStream(e, s, id);
    forall t | t in n.waiters && n.waiters[t].answer.None? ensures WaiterServed(n, t) { assert WaiterServed(e, t); }
  }

  lemma WithStreamApart(e: Engine, s: Scheduler, id: SchedReqId)
    requires Keyed(e) && ConsumersApart(e)
    requires forall t :: t in e.streams && e.streams[t].id == id ==> e.streams[t].left
    ensures ConsumersApart(WithStream(e, s, id))
  {
    var n := WithStream(e, s, id);
    forall t, u | Inside(n, t) && Inside(n, u) && n.streams[t].id == n.streams[u].id ensures t == u {
      if t in e.streams && u in e.streams && t != e.tickets && u != e.tickets { assert Inside(e, t) && Inside(e, u); }
    }
  }

  lemma WithStreamOpens(e: Engine, s: Scheduler, id: SchedReqId)
    requires Keyed(e) && StreamsOpen(e)
    requires s.states.Keys == e.scheduler.states.Keys + {id} && id !in e.scheduler.states && id !in e.reqEvents
    ensures StreamsOpen(WithStream(e, s, id))
  {
    NothingIn([]);
    hide FinalOnlyLast, HasFinal;
    var n := WithStream(e, s, id);
    forall t | t in e.streams && !e.streams[t].left && !HasFinal(e.streams[t].items) ensures n.QueueKnown(t) {
      assert e.QueueKnown(t);
    }
    assert QueuesReady(n, {}) by { hide StreamsOrderly; }
    hide QueuesReady;
  }

  lemma WithStreamServes(e: Engine, s: Scheduler, id: SchedReqId)
    requires Keyed(e) && ClientsServed(e)
    requires s.states.Keys == e.scheduler.states.Keys + {id} && id !in e.scheduler.states && id !in e.reqEvents
    requires forall t :: t in e.streams && e.streams[t].id == id ==> e.streams[t].left
    ensures ClientsServed(WithStream(e, s, id))
  {
    hide Keyed, StreamsOpen, WaitersServed, AnsweredRight, ConsumersApart;
    WithStreamServesWaiters(e, s, id);
    WithStreamApart(e, s, id);
    WithStreamOpens(e, s, id);
  }

  /** A submission serves its own client and everybody else, given a fresh id; one that
      raises disturbs nobody. */
  lemma SubmitKeepsInv(e: Engine, step: Step)
    requires DriverInv(e) && ClientsServed(e) && Enabled(e, step) && Fresh(e, step)
    requires step.DoSubmitWaiter? || step.DoSubmitStream?
    ensures Inv(Next(e, step))
  {
    SubmitKeepsDriver(e, step);
    SubmissionIs(e, step);
    SubmittedStates(e.scheduler, step.id, step.requestIds);
    var (s, raised) := e.scheduler.Submit(step.id, step.requestIds);
    assert step.id !in e.scheduler.states;
    hide Next, DriverInv, ClientsServed, Scheduler.Submit, Enabled;
    if raised {
      MoreStatesServe(e, s);
    } else if step.DoSubmitWaiter? {
      WithWaiterServes(e, s, step.id);
    } else {
      WithStreamServes(e, s, step.id);
    }
  }

  lemma CollectServesWaiters(e: Engine, t: Ticket)
    requires Keyed(e) && WaitersServed(e) && AnsweredRight(e) && t in e.waiters && e.waiters[t].Awake()
    ensures WaitersServed(Collect(e, t)) && AnsweredRight(Collect(e, t))
    ensures Collect(e, t).waiters[t].answer == e.waiters[t].got
  {
    var n := Collect(e, t);
    assert WaiterServed(e, t);
    forall u | u in n.waiters && n.waiters[u].answer.None? ensures WaiterServed(n, u) {
      assert WaiterServed(e, u);
    }
  }

  lemma CollectServes(e: Engine, t: Ticket)
    requires Keyed(e) && ClientsServed(e) && t in e.waiters && e.waiters[t].Awake()
    ensures ClientsServed(Collect(e, t)) && Keyed(Collect(e, t))
    ensures Collect(e, t).waiters[t].answer == e.waiters[t].got
  {
    hide FinalOnlyLast, HasFinal;
    var n := Collect(e, t);
    CollectServesWaiters(e, t);
    hide WaiterServed, WaitersServed, AnsweredRight;
    assert forall u :: u in e.streams ==> n.QueueKnown(u) == e.QueueKnown(u);
  }

  lemma LeaveServesWaiters(e: Engine, t: Ticket)
    requires WaitersServed(e) && AnsweredRight(e) && t in e.streams
    ensures WaitersServed(LeaveStream(e, t)) && AnsweredRight(LeaveStream(e, t))
  {
    var n := LeaveStream(e, t);
    forall u | u in n.waiters && n.waiters[u].answer.None? ensures WaiterServed(n, u) {
      assert WaiterServed(e, u);
    }
  }

  lemma LeaveKeepsReady(e: Engine, t: Ticket)
    requires Keyed(e) && QueuesReady(e, {}) && t in e.streams
    ensures QueuesReady(LeaveStream(e, t), {}) && Keyed(LeaveStream(e, t))
  {
    hide HasFinal;
  }

  lemma LeaveServes(e: Engine, t: Ticket)
    requires Keyed(e) && ClientsServed(e) && t in e.streams && !e.streams[t].left
    ensures ClientsServed(LeaveStream(e, t)) && Keyed(LeaveStream(e, t))
  {
    hide FinalOnlyLast, HasFinal;
    var n := LeaveStream(e, t);
    LeaveServesWaiters(e, t);
    LeaveKeepsReady(e, t);
    hide WaiterServed, WaitersServed, AnsweredRight, QueuesReady;
    forall u | u in n.streams && !n.streams[u].left && !HasFinal(n.streams[u].items) ensures n.QueueKnown(u) {
      assert e.QueueKnown(u);
    }
  }

  // ---- Steps and runs ----

  /** What the driver's own tables promise is kept by every step, whatever ids the clients
      use. */
  lemma StepKeepsDriver(e: Engine, step: Step)
    requires DriverInv(e) && Enabled(e, step)
    ensures DriverInv(Next(e, step))
  {
    match step
    case DoSubmitWaiter(_, _) => SubmitKeepsDriver(e, step);
    case DoSubmitStream(_, _) => SubmitKeepsDriver(e, step);
    case DoPoll => PollKeepsInv(e);
    case DoSchedule(selected) => ScheduleKeepsInv(e, selected);
    case DoUpdate(output, yielded) => UpdateKeepsInv(e, output, yielded);
    case DoEngineDied => SignalKeepsDriver(e);
    case DoClose => SignalKeepsDriver(e);
    case _ =>
  }

  lemma StepKeepsInv(e: Engine, step: Step)
    requires Inv(e) && Enabled(e, step) && Fresh(e, step)
    ensures Inv(Next(e, step))
  {
    StepKeepsDriver(e, step);
    match step
    case DoSubmitWaiter(_, _) => SubmitKeepsInv(e, step);
    case DoSubmitStream(_, _) => SubmitKeepsInv(e, step);
    case DoCollect(t) => CollectServes(e, t);
    case DoLeaveStream(t) => LeaveServes(e, t);
    case DoPoll => PollKeepsInv(e);
    case DoSchedule(selected) => ScheduleKeepsInv(e, selected);
    case DoUpdate(output, yielded) => UpdateKeepsInv(e, output, yielded);
    case DoEngineDied =>
      SignalTellsEveryone(e);
      PhaseIsNoClientMatter(SignalEngineDead(e), Stopped);
    case DoClose => SignalTellsEveryone(e);
    case DoAbort(requestIds) => ClientsLookAtIds(e, Next(e, step));
    case DoStop => PhaseIsNoClientMatter(e, Stopped);
    case DoSurface =>
  }

  lemma {:induction false} RunKeepsDriver(first: Engine, steps: seq<Step>, last: Engine)
    requires DriverInv(first) && Runs(first, steps, last)
    ensures DriverInv(last)
    decreases |steps|
  {
    if steps != [] {
      StepKeepsDriver(first, steps[0]);
      RunKeepsDriver(Next(first, steps[0]), steps[1..], last);
    }
  }

  lemma {:induction false} RunKeepsInv(first: Engine, steps: seq<Step>, last: Engine)
    requires Inv(first) && Runs(first, steps, last) && FreshRun(first, steps)
    ensures Inv(last)
    decreases |steps|
  {
    if steps != [] {
      StepKeepsInv(first, steps[0]);
      RunKeepsInv(Next(first, steps[0]), steps[1..], last);
    }
  }

  lemma InitialInv(e: Engine)
    requires Initial(e)
    ensures Inv(e)
  {
  }

  // ---- The order of items, whatever ids are in use ----

  lemma OrderLooksAtQueues(e: Engine, n: Engine)
    requires QueuesInOrder(e, {}) && n.streams == e.streams && n.streamQueues == e.streamQueues
    ensures QueuesInOrder(n, {})
  {
    hide FinalOnlyLast, HasFinal;
    forall t | t in n.streams ensures QueueInOrder(n, {}, t) { assert QueueInOrder(e, {}, t); }
  }

  lemma DeliverKeepsOrder(e: Engine, ids: set<SchedReqId>, result: SchedReqId -> DiffusionOutput,
                          finals: set<SchedReqId>)
    requires QueuesInOrder(e, finals) && finals <= ids
    ensures QueuesInOrder(Deliver(e, ids, result, finals), {})
  {
    var d := Deliver(e, ids, result, finals);
    forall t | t in d.streams ensures QueueInOrder(d, {}, t) {
      var s := e.streams[t];
      assert QueueInOrder(e, finals, t);
      SentAt(e.streams, e.streamQueues, Closing(ids - finals, result), t);
      if e.QueueKnown(t) && s.id in ids && s.id !in finals { AppendFinal(s.items, Item(result(s.id), true)); }
    }
  }

  lemma UpdateKeepsOrder(e: Engine, output: RunnerOutput, yielded: seq<SchedReqId>)
    requires DriverInv(e) && QueuesInOrder(e, {}) && Enabled(e, DoUpdate(output, yielded))
    ensures QueuesInOrder(Next(e, DoUpdate(output, yielded)), {})
  {
    var a := ProcessAborts(e);
    var ids := a.scheduler.FinishedBy(e.phase.batch, output);
    var u := Digest(e, e.phase.batch, output, yielded);
    var skip := SkippedIds(u.scheduler, ids);
    ProcessAbortsKeepsDriver(e);
    SchedulersReportFinals(a, e.phase.batch, output, yielded, skip);
    DigestLooksAtScheduler(e, e.phase.batch, output, yielded);
    UpdateIsDispatched(e, output, yielded);
    OrderLooksAtQueues(e, u);
    PublishStepMarksFinals(u, output, skip);
    hide QueuesInOrder, Next, Digest, Deliver;
    var p := PublishStep(u, output, skip);
    DeliverKeepsOrder(p, ids, Selecting(p.scheduler, output), StepFinals(u.streamQueues.Keys, output, skip));
    OrderLooksAtQueues(Dispatched(u, ids, output), Next(e, DoUpdate(output, yielded)));
  }

  lemma SignalKeepsOrder(e: Engine)
    requires QueuesInOrder(e, {})
    ensures QueuesInOrder(SignalEngineDead(e), {})
  {
    var d := SignalEngineDead(e);
    assert d.streamQueues == map[] && d.streams.Keys == e.streams.Keys;
    hide SignalEngineDead, FinalOnlyLast, HasFinal;
    forall t | t in d.streams ensures QueueInOrder(d, {}, t) {
      assert QueueInOrder(e, {}, t);
      SignalCloses(e, t);
    }
  }

  lemma SubmitKeepsOrder(e: Engine, step: Step)
    requires DriverInv(e) && QueuesInOrder(e, {}) && Enabled(e, step)
    requires step.DoSubmitWaiter? || step.DoSubmitStream?
    ensures QueuesInOrder(Next(e, step), {})
  {
    var n := Next(e, step);
    NothingIn([]);
    SubmissionIs(e, step);
    hide Next, FinalOnlyLast, HasFinal, Scheduler.Submit, Scheduler.Valid, Enabled;
    forall t | t in n.streams ensures QueueInOrder(n, {}, t) {
      if t in e.streams { assert QueueInOrder(e, {}, t); }
    }
  }

  lemma LeaveKeepsOrder(e: Engine, t: Ticket)
    requires QueuesInOrder(e, {}) && t in e.streams
    ensures QueuesInOrder(LeaveStream(e, t), {})
  {
    hide FinalOnlyLast, HasFinal;
    var n := LeaveStream(e, t);
    forall u | u in n.streams ensures QueueInOrder(n, {}, u) { assert QueueInOrder(e, {}, u); }
  }

  /** Whatever ids the clients use, no step puts a second final item into a queue, or anything
      after a final item. */
  lemma StepKeepsOrder(e: Engine, step: Step)
    requires DriverInv(e) && QueuesInOrder(e, {}) && Enabled(e, step)
    ensures QueuesInOrder(Next(e, step), {})
  {
    var n := Next(e, step);
    assert e.scheduler.Valid() && !step.DoSurface?;
    hide QueuesInOrder, Scheduler.Valid, Keyed, PhaseConsistent;
    match step
    case DoSubmitWaiter(_, _) => SubmitKeepsOrder(e, step);
    case DoSubmitStream(_, _) => SubmitKeepsOrder(e, step);
    case DoLeaveStream(t) => LeaveKeepsOrder(e, t);
    case DoUpdate(output, yielded) => UpdateKeepsOrder(e, output, yielded);
    case DoEngineDied =>
      SignalKeepsOrder(e);
      OrderLooksAtQueues(SignalEngineDead(e), n);
    case DoClose => SignalKeepsOrder(e);
    case _ =>
      OthersLeaveQueues(e, step);
      hide Next;
      OrderLooksAtQueues(e, n);
  }

  lemma OthersLeaveQueues(e: Engine, step: Step)
    requires e.scheduler.Valid() && Enabled(e, step)
    requires step.DoCollect? || step.DoAbort? || step.DoPoll? || step.DoSchedule? || step.DoStop?
    ensures Next(e, step).streams == e.streams && Next(e, step).streamQueues == e.streamQueues
  {
    hide Scheduler.Valid;
    if step.DoSchedule? {
      hide Next, Enabled;
      ScheduleLeavesClients(e, step.selected);
    }
  }

  lemma {:induction false} RunKeepsOrder(first: Engine, steps: seq<Step>, last: Engine)
    requires DriverInv(first) && QueuesInOrder(first, {}) && Runs(first, steps, last)
    ensures DriverInv(last) && QueuesInOrder(last, {})
    decreases |steps|
  {
    if steps != [] {
      StepKeepsDriver(first, steps[0]);
      StepKeepsOrder(first, steps[0]);
      RunKeepsOrder(Next(first, steps[0]), steps[1..], last);
    }
  }

  // ---- Main results ----

  /** In every state a run reaches, under whatever ids: every queue has at most one final item
      and nothing after it, and one the driver knows is still open.  If the ids were fresh,
      rejected submissions included: no waiter or consumer is forgotten, no woken waiter is
      without its result, and every waiter returned what was stored for it. */
  lemma EveryReachableStateIsSafe(first: Engine, steps: seq<Step>, last: Engine)
    requires Initial(first) && Runs(first, steps, last)
    ensures QueuesInOrder(last, {})
    ensures FreshRun(first, steps) ==> ClientsServed(last)
    ensures FreshRun(first, steps) ==>
              forall t :: Enabled(last, DoCollect(t)) ==>
                Some(Collected(last, last.waiters[t].id)) == last.waiters[t].got
  {
    InitialInv(first);
    RunKeepsOrder(first, steps, last);
    if FreshRun(first, steps) {
      RunKeepsInv(first, steps, last);
      forall t | Enabled(last, DoCollect(t))
        ensures Some(Collected(last, last.waiters[t].id)) == last.waiters[t].got
      {
        assert WaiterServed(last, t);
      }
    }
  }

  /** The driver's choice of result is the legacy finalizer's, exactly for requests whose
      scheduler state is not lost. */
  lemma SelectionAgreesWithLegacy(s: Scheduler, id: SchedReqId, output: RunnerOutput)
    ensures Finalize(s, id, Some(output), MISSING_OUTPUT) == Some(SelectResult(s, id, output)) <==> id in s.states
  {
  }

  /** A finished request got its result and is forgotten: its waiter is woken, its stream
      ends with exactly one final item.  If the request was skipped, that item is all the
      step put there. */
  ghost predicate Delivered(before: Engine, after: Engine, id: SchedReqId, result: DiffusionOutput, skipped: bool) {
    && id !in after.scheduler.states && id !in after.streamQueues
    && (forall t :: t in before.waiters && before.EventKnown(t) && before.waiters[t].id == id
                    && id !in before.streamQueues ==>
          t in after.waiters && after.waiters[t] == before.waiters[t].(got := Some(result)))
    && (forall t :: t in before.streams && before.QueueKnown(t) && before.streams[t].id == id ==>
          t in after.streams && Ended(before.streams[t].items, after.streams[t].items, result, skipped))
  }

  ghost predicate Ended(before: seq<Item>, after: seq<Item>, result: DiffusionOutput, skipped: bool) {
    && after != [] && after[|after| - 1].isFinal && FinalOnlyLast(after)
    && (skipped ==> after == before + [Item(result, true)])
  }

  lemma SkippedGetsNothing(u: Engine, output: RunnerOutput, skip: set<SchedReqId>, t: Ticket)
    requires t in u.streams && u.streams[t].id in skip
    ensures PublishStep(u, output, skip).streams[t].items == u.streams[t].items
    ensures u.streams[t].id !in StepFinals(u.streamQueues.Keys, output, skip)
  {
  }

  lemma DispatchDeliversStream(u: Engine, ids: set<SchedReqId>, output: RunnerOutput, t: Ticket)
    requires t in u.streams && QueueInOrder(u, {}, t) && u.QueueKnown(t) && u.streams[t].id in ids
    ensures var n := Dispatched(u, ids, output);
            && t in n.streams
            && Ended(u.streams[t].items, n.streams[t].items, SelectResult(u.scheduler, u.streams[t].id, output),
                     u.streams[t].id in SkippedIds(u.scheduler, ids))
  {
    var skip := SkippedIds(u.scheduler, ids);
    var p := PublishStep(u, output, skip);
    PublishStepAt(u, output, skip, t);
    DeliverCloses(p, ids, Selecting(p.scheduler, output), StepFinals(u.streamQueues.Keys, output, skip), t);
    if u.streams[t].id in skip { SkippedGetsNothing(u, output, skip, t); }
  }

  lemma DispatchDeliversWaiter(u: Engine, ids: set<SchedReqId>, output: RunnerOutput, t: Ticket)
    requires t in u.waiters && u.EventKnown(t) && u.waiters[t].id in ids && u.waiters[t].id !in u.streamQueues
    ensures var n := Dispatched(u, ids, output);
            && t in n.waiters
            && n.waiters[t] == u.waiters[t].(got := Some(SelectResult(u.scheduler, u.waiters[t].id, output)))
  {
    var skip := SkippedIds(u.scheduler, ids);
    var p := PublishStep(u, output, skip);
    DeliverWakes(p, ids, Selecting(p.scheduler, output), StepFinals(u.streamQueues.Keys, output, skip), t);
  }

  lemma DispatchForgets(u: Engine, ids: set<SchedReqId>, output: RunnerOutput, id: SchedReqId)
    requires id in ids
    ensures var n := Dispatched(u, ids, output); id !in n.scheduler.states && id !in n.streamQueues
  {
  }

  lemma DispatchDelivers(u: Engine, ids: set<SchedReqId>, output: RunnerOutput, id: SchedReqId)
    requires QueuesInOrder(u, {}) && id in ids
    ensures Delivered(u, Dispatched(u, ids, output), id, SelectResult(u.scheduler, id, output),
                      id in SkippedIds(u.scheduler, ids))
  {
    DispatchForgets(u, ids, output, id);
    hide Dispatched, SelectResult, SkippedIds, Ended;
    forall t | t in u.waiters && u.EventKnown(t) && u.waiters[t].id == id && id !in u.streamQueues
      ensures t in Dispatched(u, ids, output).waiters
      ensures Dispatched(u, ids, output).waiters[t]
              == u.waiters[t].(got := Some(SelectResult(u.scheduler, id, output)))
    {
      DispatchDeliversWaiter(u, ids, output, t);
    }
    forall t | t in u.streams && u.QueueKnown(t) && u.streams[t].id == id
      ensures t in Dispatched(u, ids, output).streams
      ensures Ended(u.streams[t].items, Dispatched(u, ids, output).streams[t].items,
                    SelectResult(u.scheduler, id, output), id in SkippedIds(u.scheduler, ids))
    {
      DispatchDeliversStream(u, ids, output, t);
    }
  }

  /** What an update delivers to a request: the result selected for it from the state after
      the scheduler took the output in.  A request that ended without completing gets no
      data from this step. */
  ghost predicate UpdateDelivered(e: Engine, output: RunnerOutput, yielded: seq<SchedReqId>, id: SchedReqId)
    requires e.scheduler.Valid() && Enabled(e, DoUpdate(output, yielded))
  {
    var s := Digest(e, e.phase.batch, output, yielded).scheduler;
    Delivered(e, Next(e, DoUpdate(output, yielded)), id, SelectResult(s, id, output),
              id in s.states && s.states[id].status != Completed)
  }

  lemma DigestLooksAtScheduler(e: Engine, batch: Batch, output: RunnerOutput, yielded: seq<SchedReqId>)
    ensures var u := Digest(e, batch, output, yielded); u == e.(scheduler := u.scheduler, abortQueue := [])
  {
  }

  lemma SkippedIs(s: Scheduler, ids: set<SchedReqId>, id: SchedReqId)
    requires id in ids
    ensures id in SkippedIds(s, ids) <==> id in s.states && s.states[id].status != Completed
  {
  }

  /** One update section delivers to every request it reports finished. */
  lemma UpdateDelivers(e: Engine, output: RunnerOutput, yielded: seq<SchedReqId>, id: SchedReqId)
    requires DriverInv(e) && QueuesInOrder(e, {}) && Enabled(e, DoUpdate(output, yielded))
    requires id in ProcessAborts(e).scheduler.FinishedBy(e.phase.batch, output)
    ensures UpdateDelivered(e, output, yielded, id)
  {
    DigestLooksAtScheduler(e, e.phase.batch, output, yielded);
    UpdateIsDispatched(e, output, yielded);
    var u := Digest(e, e.phase.batch, output, yielded);
    OrderLooksAtQueues(e, u);
    var ids := ProcessAborts(e).scheduler.FinishedBy(e.phase.batch, output);
    hide Dispatched, SelectResult, Digest, Next, Scheduler.FinishedBy, Delivered;
    DispatchDelivers(u, ids, output, id);
    SkippedIs(u.scheduler, ids, id);
    DeliveredElsewhere(u, e, Dispatched(u, ids, output), Next(e, DoUpdate(output, yielded)), id,
                       SelectResult(u.scheduler, id, output), id in SkippedIds(u.scheduler, ids));
  }

  /** Delivery only looks at the clients, their tables and the scheduler states. */
  lemma DeliveredElsewhere(b1: Engine, b2: Engine, a1: Engine, a2: Engine, id: SchedReqId,
                           result: DiffusionOutput, skipped: bool)
    requires Delivered(b1, a1, id, result, skipped)
    requires b1 == b2.(scheduler := b1.scheduler, abortQueue := b1.abortQueue, phase := b1.phase)
    requires a2 == a1.(phase := a2.phase)
    ensures Delivered(b2, a2, id, result, skipped)
  {
    assert forall t :: t in b2.waiters ==> b1.EventKnown(t) == b2.EventKnown(t);
    assert forall t :: t in b2.streams ==> b1.QueueKnown(t) == b2.QueueKnown(t);
  }

  // ---- Where answers come from ----

  /** In this step the driver chose r for the waiter: as the result selected when it delivered
      the request, or as the error of a dying engine. */
  ghost predicate Chose(e: Engine, step: Step, t: Ticket, r: DiffusionOutput)
    requires e.scheduler.Valid() && Enabled(e, step)
  {
    t in e.waiters &&
    match step
    case DoUpdate(output, yielded) =>
      && e.waiters[t].id in ProcessAborts(e).scheduler.FinishedBy(e.phase.batch, output)
      && r == SelectResult(Digest(e, e.phase.batch, output, yielded).scheduler, e.waiters[t].id, output)
    case DoEngineDied => r == ENGINE_DIED
    case DoClose => r == ENGINE_DIED
    case _ => false
  }

  ghost predicate ChosenInRun(first: Engine, steps: seq<Step>, t: Ticket, r: DiffusionOutput)
    decreases |steps|
  {
    && steps != [] && first.scheduler.Valid() && Enabled(first, steps[0])
    && (Chose(first, steps[0], t, r) || ChosenInRun(Next(first, steps[0]), steps[1..], t, r))
  }

  lemma DispatchedWaiter(u: Engine, ids: set<SchedReqId>, output: RunnerOutput, t: Ticket)
    requires t in u.waiters
    ensures var n := Dispatched(u, ids, output);
            && t in n.waiters
            && (n.waiters[t] == u.waiters[t]
                || (u.waiters[t].id in ids
                    && n.waiters[t] == u.waiters[t].(got := Some(SelectResult(u.scheduler, u.waiters[t].id, output)))))
  {
  }

  lemma UpdateChooses(e: Engine, output: RunnerOutput, yielded: seq<SchedReqId>, t: Ticket, r: DiffusionOutput)
    requires e.scheduler.Valid() && Enabled(e, DoUpdate(output, yielded))
    requires var n := Next(e, DoUpdate(output, yielded)); t in n.waiters && n.waiters[t].got == Some(r)
    ensures t in e.waiters && (e.waiters[t].got == Some(r) || Chose(e, DoUpdate(output, yielded), t, r))
  {
    UpdateIsDispatched(e, output, yielded);
    DigestLooksAtScheduler(e, e.phase.batch, output, yielded);
    DispatchedKeepsTickets(Digest(e, e.phase.batch, output, yielded),
                           ProcessAborts(e).scheduler.FinishedBy(e.phase.batch, output), output);
    hide Dispatched, SelectResult, Digest, Next, Scheduler.FinishedBy;
    DispatchedWaiter(Digest(e, e.phase.batch, output, yielded),
                     ProcessAborts(e).scheduler.FinishedBy(e.phase.batch, output), output, t);
  }

  lemma DispatchedKeepsTickets(u: Engine, ids: set<SchedReqId>, output: RunnerOutput)
    ensures Dispatched(u, ids, output).waiters.Keys == u.waiters.Keys
    ensures Dispatched(u, ids, output).streams.Keys == u.streams.Keys
  {
  }

  lemma SignalChooses(e: Engine, t: Ticket, r: DiffusionOutput)
    requires Keyed(e) && ClientsServed(e)
    requires t in SignalEngineDead(e).waiters && SignalEngineDead(e).waiters[t].got == Some(r)
    ensures t in e.waiters && (e.waiters[t].got == Some(r) || r == ENGINE_DIED)
  {
    SignalKeepsTickets(e);
    hide SignalEngineDead, ClientsServed, Keyed;
    SignalTellsEveryone(e);
  }

  lemma SubmissionChoosesNothing(e: Engine, step: Step, t: Ticket, r: DiffusionOutput)
    requires e.scheduler.Valid() && Enabled(e, step) && (step.DoSubmitWaiter? || step.DoSubmitStream?)
    requires t in Next(e, step).waiters && Next(e, step).waiters[t].got == Some(r)
    ensures t in e.waiters && e.waiters[t].got == Some(r)
  {
    hide Next, Enabled, Scheduler.Submit, Scheduler.Valid;
    SubmissionIs(e, step);
  }

  lemma OthersChooseNothing(e: Engine, step: Step, t: Ticket, r: DiffusionOutput)
    requires e.scheduler.Valid() && Enabled(e, step)
    requires !step.DoUpdate? && !step.DoEngineDied? && !step.DoClose? && !step.DoSurface?
    requires t in Next(e, step).waiters && Next(e, step).waiters[t].got == Some(r)
    ensures t in e.waiters && e.waiters[t].got == Some(r)
  {
    if step.DoSubmitWaiter? || step.DoSubmitStream? {
      hide Next, Enabled, Scheduler.Valid;
      SubmissionChoosesNothing(e, step, t, r);
    } else if step.DoSchedule? {
      hide Next, Enabled, Scheduler.Valid;
      ScheduleLeavesClients(e, step.selected);
    } else {
      hide Scheduler.Valid;
    }
  }

  lemma ScheduleLeavesClients(e: Engine, selected: seq<SchedReqId>)
    requires e.scheduler.Valid() && Enabled(e, DoSchedule(selected))
    ensures var n := Next(e, DoSchedule(selected));
            n.waiters == e.waiters && n.streams == e.streams && n.streamQueues == e.streamQueues
  {
    hide Scheduler.Valid, Scheduler.Schedule, Scheduler.MaySelect, Scheduler.HasRequests;
  }

  lemma StepChooses(e: Engine, step: Step, t: Ticket, r: DiffusionOutput)
    requires DriverInv(e) && ClientsServed(e) && Enabled(e, step)
    requires t in Next(e, step).waiters && Next(e, step).waiters[t].got == Some(r)
    ensures t in e.waiters && (e.waiters[t].got == Some(r) || Chose(e, step, t, r))
  {
    if step.DoEngineDied? || step.DoClose? {
      assert Next(e, step).waiters == SignalEngineDead(e).waiters;
      hide Next, SignalEngineDead, ClientsServed;
      SignalChooses(e, t, r);
    } else if step.DoUpdate? {
      hide Next, ClientsServed, DriverInv;
      UpdateChooses(e, step.output, step.yielded, t, r);
    } else {
      assert !step.DoSurface?;
      hide Next, ClientsServed, Chose;
      OthersChooseNothing(e, step, t, r);
    }
  }

  lemma {:induction false} RunChooses(first: Engine, steps: seq<Step>, last: Engine, t: Ticket, r: DiffusionOutput)
    requires Inv(first) && Runs(first, steps, last) && FreshRun(first, steps)
    requires t in last.waiters && last.waiters[t].got == Some(r)
    ensures (t in first.waiters && first.waiters[t].got == Some(r)) || ChosenInRun(first, steps, t, r)
    decreases |steps|
  {
    if steps != [] {
      var n := Next(first, steps[0]);
      StepKeepsInv(first, steps[0]);
      RunChooses(n, steps[1..], last, t, r);
      if t in n.waiters && n.waiters[t].got == Some(r) { StepChooses(first, steps[0], t, r); }
    }
  }

  /** Over every run, what a waiter returned was chosen for it by the driver in that run. */
  lemma EveryAnswerWasChosen(first: Engine, steps: seq<Step>, last: Engine, t: Ticket)
    requires Initial(first) && Runs(first, steps, last) && FreshRun(first, steps)
    requires t in last.waiters && last.waiters[t].answer.Some?
    ensures ChosenInRun(first, steps, t, last.waiters[t].answer.value)
  {
    InitialInv(first);
    RunKeepsInv(first, steps, last);
    RunChooses(first, steps, last, t, last.waiters[t].answer.value);
  }

  // ---- What becomes of aborts ----

  /** A request that has ended but belongs to no batch in flight. */
  ghost predicate Stranded(e: Engine, id: SchedReqId) {
    && e.scheduler.HasFinished(id)
    && (e.phase.Executing? ==> id !in e.phase.batch.scheduled)
  }

  ghost predicate StrandedWaiter(e: Engine, t: Ticket) {
    t in e.waiters && e.waiters[t].Asleep() && Stranded(e, e.waiters[t].id)
  }

  ghost predicate StrandedStream(e: Engine, t: Ticket, items: seq<Item>) {
    && t in e.streams && !e.streams[t].left && e.streams[t].items == items && !HasFinal(items)
    && Stranded(e, e.streams[t].id)
  }

  /** Draining the abort queue between two batches strands every request it ends, and tells
      nobody. */
  lemma AbortBetweenBatchesStrands(e: Engine, id: SchedReqId)
    requires DriverInv(e) && Enabled(e, DoPoll) && id in AbortTargets(e) && !e.scheduler.HasFinished(id)
    requires id in e.scheduler.states
    ensures Stranded(Next(e, DoPoll), id) && Next(e, DoPoll).scheduler.states[id].status == Aborted
    ensures Next(e, DoPoll).waiters == e.waiters && Next(e, DoPoll).streams == e.streams
  {
  }

  /** Draining the queue in the update section marks its targets as aborted, and only the
      members of the batch in flight among them are reported finished. */
  lemma DigestMarksAborted(e: Engine, output: RunnerOutput, yielded: seq<SchedReqId>, id: SchedReqId)
    requires DriverInv(e) && Enabled(e, DoUpdate(output, yielded)) && id in e.scheduler.states
    requires id in AbortTargets(e) || e.scheduler.HasFinished(id)
    ensures var state := Digest(e, e.phase.batch, output, yielded).scheduler.states;
            && id in state && state[id].status.IsFinished() && state[id].requestIds == e.scheduler.states[id].requestIds
            && (!e.scheduler.HasFinished(id) ==> state[id].status == Aborted)
    ensures id in ProcessAborts(e).scheduler.FinishedBy(e.phase.batch, output) <==> id in e.phase.batch.scheduled
  {
    var a := ProcessAborts(e);
    ProcessAbortsKeepsDriver(e);
    assert a.scheduler.HasFinished(id);
    UpdateEndsWhatItReports(a.scheduler, e.phase.batch, output, yielded);
  }

  /** A dispatch is no matter to a request that is neither reported nor in the batch. */
  lemma DispatchLeavesOthers(u: Engine, batch: Batch, ids: set<SchedReqId>, output: RunnerOutput, id: SchedReqId)
    requires id !in ids && id !in batch.scheduled && output.IsAbout(batch.scheduled)
    ensures var n := Dispatched(u, ids, output);
            && (u.scheduler.HasFinished(id) ==> n.scheduler.HasFinished(id))
            && n.waiters.Keys == u.waiters.Keys && n.streams.Keys == u.streams.Keys
            && (forall t :: t in u.waiters && u.waiters[t].id == id ==> n.waiters[t] == u.waiters[t])
            && (forall t :: t in u.streams && u.streams[t].id == id ==> n.streams[t] == u.streams[t])
  {
    var skip := SkippedIds(u.scheduler, ids);
    PublishLeavesOthers(u, batch, skip, output, id);
    DeliverLeavesOthers(PublishStep(u, output, skip), ids, Selecting(u.scheduler, output),
                        StepFinals(u.streamQueues.Keys, output, skip), id);
    hide PublishStep, Deliver, StepFinals;
  }

  lemma PublishLeavesOthers(u: Engine, batch: Batch, skip: set<SchedReqId>, output: RunnerOutput, id: SchedReqId)
    requires id !in batch.scheduled && output.IsAbout(batch.scheduled)
    ensures var n := PublishStep(u, output, skip);
            && n == u.(streams := n.streams) && n.streams.Keys == u.streams.Keys
            && (forall t :: t in u.streams ==> n.streams[t].id == u.streams[t].id)
            && (forall t :: t in u.streams && u.streams[t].id == id ==> n.streams[t] == u.streams[t])
  {
    assert StepItem(u.streamQueues.Keys, output, skip, id).None?;
  }

  lemma DeliverLeavesOthers(e: Engine, ids: set<SchedReqId>, result: SchedReqId -> DiffusionOutput,
                            finals: set<SchedReqId>, id: SchedReqId)
    requires id !in ids
    ensures var n := Deliver(e, ids, result, finals);
            && (e.scheduler.HasFinished(id) ==> n.scheduler.HasFinished(id))
            && n.waiters.Keys == e.waiters.Keys && n.streams.Keys == e.streams.Keys
            && (forall t :: t in e.waiters && e.waiters[t].id == id ==> n.waiters[t] == e.waiters[t])
            && (forall t :: t in e.streams && e.streams[t].id == id ==> n.streams[t] == e.streams[t])
  {
  }

  lemma UpdateStrands(e: Engine, output: RunnerOutput, yielded: seq<SchedReqId>, id: SchedReqId)
    requires DriverInv(e) && Enabled(e, DoUpdate(output, yielded)) && id in e.scheduler.states
    requires id in AbortTargets(e) || e.scheduler.HasFinished(id)
    requires id !in e.phase.batch.scheduled
    ensures var n := Next(e, DoUpdate(output, yielded));
            && Stranded(n, id) && n.waiters.Keys == e.waiters.Keys && n.streams.Keys == e.streams.Keys
            && (forall t :: t in e.waiters && e.waiters[t].id == id ==> n.waiters[t] == e.waiters[t])
            && (forall t :: t in e.streams && e.streams[t].id == id ==> n.streams[t] == e.streams[t])
  {
    DigestMarksAborted(e, output, yielded, id);
    DigestLooksAtScheduler(e, e.phase.batch, output, yielded);
    UpdateIsDispatched(e, output, yielded);
    hide Dispatched, Digest, Next, Scheduler.FinishedBy;
    DispatchLeavesOthers(Digest(e, e.phase.batch, output, yielded), e.phase.batch,
                         ProcessAborts(e).scheduler.FinishedBy(e.phase.batch, output), output, id);
  }

  lemma AbortedSelection(s: Scheduler, id: SchedReqId, output: RunnerOutput)
    requires id in s.states && s.states[id].status == Aborted
    ensures SelectResult(s, id, output) == AbortResult(s.states[id], id)
  {
  }

  /** Draining it in the update section delivers the abort result exactly to the requests
      of the batch in flight, and strands the others. */
  lemma AbortDuringBatch(e: Engine, output: RunnerOutput, yielded: seq<SchedReqId>, id: SchedReqId)
    requires DriverInv(e) && QueuesInOrder(e, {}) && Enabled(e, DoUpdate(output, yielded))
    requires id in e.scheduler.states && id in AbortTargets(e) && !e.scheduler.HasFinished(id)
    ensures if id in e.phase.batch.scheduled
            then Delivered(e, Next(e, DoUpdate(output, yielded)), id, AbortResult(e.scheduler.states[id], id), true)
            else Stranded(Next(e, DoUpdate(output, yielded)), id)
  {
    hide Update, Digest, SelectResult, Delivered, Next;
    if id in e.phase.batch.scheduled {
      DigestMarksAborted(e, output, yielded, id);
      AbortedSelection(Digest(e, e.phase.batch, output, yielded).scheduler, id, output);
      UpdateDelivers(e, output, yielded, id);
    } else {
      UpdateStrands(e, output, yielded, id);
    }
  }

  lemma PollLeavesFinished(e: Engine, id: SchedReqId)
    requires DriverInv(e) && Enabled(e, DoPoll) && e.scheduler.HasFinished(id)
    ensures Stranded(Next(e, DoPoll), id)
    ensures Next(e, DoPoll).waiters == e.waiters && Next(e, DoPoll).streams == e.streams
  {
  }

  lemma ScheduleLeavesFinished(e: Engine, selected: seq<SchedReqId>, id: SchedReqId)
    requires DriverInv(e) && Enabled(e, DoSchedule(selected)) && e.scheduler.HasFinished(id)
    ensures Stranded(Next(e, DoSchedule(selected)), id)
    ensures var n := Next(e, DoSchedule(selected)); n.waiters == e.waiters && n.streams == e.streams
  {
    hide Keyed, PhaseConsistent, Scheduler.Valid, Scheduler.Schedule, Scheduler.HasFinished;
    hide Scheduler.MaySelect, Scheduler.HasRequests;
    FinishedIsNotScheduled(e.scheduler, selected, id);
  }

  lemma FinishedIsNotScheduled(s: Scheduler, selected: seq<SchedReqId>, id: SchedReqId)
    requires s.Valid() && s.MaySelect(selected) && s.HasFinished(id)
    ensures var (n, batch) := s.Schedule(selected); n.HasFinished(id) && id !in batch.scheduled
  {
    ScheduleKeepsValid(s, selected);
    hide Without, NoDuplicates;
  }

  lemma SubmitLeavesFinished(e: Engine, step: Step, id: SchedReqId)
    requires DriverInv(e) && Enabled(e, step) && (step.DoSubmitWaiter? || step.DoSubmitStream?) && Stranded(e, id)
    ensures var n := Next(e, step);
            && Stranded(n, id)
            && (forall t :: t in e.waiters ==> t in n.waiters && n.waiters[t] == e.waiters[t])
            && (forall t :: t in e.streams ==> t in n.streams && n.streams[t] == e.streams[t])
  {
    SubmissionIs(e, step);
    SubmittedStates(e.scheduler, step.id, step.requestIds);
    assert step.id !in e.scheduler.states;
    var (s, raised) := e.scheduler.Submit(step.id, step.requestIds);
    hide Next, Enabled, Scheduler.Submit, Scheduler.Valid, PhaseConsistent;
    MoreStatesLeaveStranded(e, s, id);
  }

  lemma MoreStatesLeaveStranded(e: Engine, s: Scheduler, id: SchedReqId)
    requires Stranded(e, id) && id in s.states && s.states[id] == e.scheduler.states[id]
    ensures forall n: Engine :: n.scheduler == s && n.phase == e.phase ==> Stranded(n, id)
  {
  }

  lemma LeavingLeavesStranded(e: Engine, step: Step, id: SchedReqId)
    requires e.scheduler.Valid() && Enabled(e, step) && Stranded(e, id)
    requires step.DoCollect? || step.DoLeaveStream? || step.DoAbort? || step.DoStop?
    ensures Stranded(Next(e, step), id)
    ensures forall t :: t in e.streams && step != DoLeaveStream(t) ==>
              t in Next(e, step).streams && Next(e, step).streams[t] == e.streams[t]
    ensures forall t :: t in e.waiters && step != DoCollect(t) ==>
              t in Next(e, step).waiters && Next(e, step).waiters[t] == e.waiters[t]
  {
    hide Scheduler.Valid;
  }

  /** Until the engine dies or is closed, a stranded waiter stays blocked. */
  lemma StepLeavesStrandedWaiter(e: Engine, step: Step, t: Ticket)
    requires DriverInv(e) && Enabled(e, step) && StrandedWaiter(e, t) && !step.DoEngineDied? && !step.DoClose?
    ensures StrandedWaiter(Next(e, step), t)
  {
    var id := e.waiters[t].id;
    assert e.scheduler.Valid() && !step.DoSurface?;
    hide Next, Keyed, PhaseConsistent, Scheduler.Valid;
    match step
    case DoUpdate(output, yielded) => UpdateStrands(e, output, yielded, id);
    case DoPoll => PollLeavesFinished(e, id);
    case DoSchedule(selected) => ScheduleLeavesFinished(e, selected, id);
    case DoSubmitWaiter(_, _) => SubmitLeavesFinished(e, step, id);
    case DoSubmitStream(_, _) => SubmitLeavesFinished(e, step, id);
    case _ => LeavingLeavesStranded(e, step, id);
  }

  /** Until then, or until its consumer leaves, a stranded stream receives nothing. */
  lemma StepLeavesStrandedStream(e: Engine, step: Step, t: Ticket, items: seq<Item>)
    requires DriverInv(e) && Enabled(e, step) && StrandedStream(e, t, items)
    requires !step.DoEngineDied? && !step.DoClose? && step != DoLeaveStream(t)
    ensures StrandedStream(Next(e, step), t, items)
  {
    var id := e.streams[t].id;
    assert e.scheduler.Valid() && !step.DoSurface?;
    hide HasFinal, Next, Keyed, PhaseConsistent, Scheduler.Valid;
    match step
    case DoUpdate(output, yielded) => UpdateStrands(e, output, yielded, id);
    case DoPoll => PollLeavesFinished(e, id);
    case DoSchedule(selected) => ScheduleLeavesFinished(e, selected, id);
    case DoSubmitWaiter(_, _) => SubmitLeavesFinished(e, step, id);
    case DoSubmitStream(_, _) => SubmitLeavesFinished(e, step, id);
    case _ => LeavingLeavesStranded(e, step, id);
  }

  lemma StepLeavesBoth(e: Engine, step: Step, t: Ticket, items: seq<Item>)
    requires DriverInv(e) && Enabled(e, step) && !step.DoEngineDied? && !step.DoClose?
    ensures StrandedWaiter(e, t) ==> StrandedWaiter(Next(e, step), t)
    ensures StrandedStream(e, t, items) && step != DoLeaveStream(t) ==> StrandedStream(Next(e, step), t, items)
  {
    hide Next, Enabled, DriverInv, StrandedWaiter, StrandedStream;
    if StrandedWaiter(e, t) { StepLeavesStrandedWaiter(e, step, t); }
    if StrandedStream(e, t, items) && step != DoLeaveStream(t) { StepLeavesStrandedStream(e, step, t, items); }
  }

  /** The same over any number of steps. */
  lemma {:induction false} StrandedForever(first: Engine, steps: seq<Step>, last: Engine, t: Ticket, items: seq<Item>)
    requires DriverInv(first) && Runs(first, steps, last)
    requires forall i :: 0 <= i < |steps| ==> !steps[i].DoEngineDied? && !steps[i].DoClose?
    ensures StrandedWaiter(first, t) ==> StrandedWaiter(last, t)
    ensures StrandedStream(first, t, items) && DoLeaveStream(t) !in steps ==> StrandedStream(last, t, items)
    decreases |steps|
  {
    hide Next, Enabled, DriverInv, StrandedWaiter, StrandedStream, Scheduler.Valid;
    if steps != [] {
      StepKeepsDriver(first, steps[0]);
      StepLeavesBoth(first, steps[0], t, items);
      StrandedForever(Next(first, steps[0]), steps[1..], last, t, items);
    }
  }

  /** What wakes a stranded waiter in the end is engine death, and not with the abort result. */
  lemma StrandedWaiterSeesEngineDeath(e: Engine, t: Ticket)
    requires Inv(e) && StrandedWaiter(e, t)
    ensures SignalEngineDead(e).waiters[t].got == Some(ENGINE_DIED)
    ensures e.phase.Idle? && e.running ==> Enabled(e, DoClose)
  {
    SignalTellsEveryone(e);
  }
}
