/**
 Clients that lose their event or queue because a scheduler id is used again while another
 client still holds it, and runs from an empty engine that end badly.
 */
module EngineReuse {
  import opened Common
  import opened DiffusionScheduler
  import opened EngineState
  import opened EngineSafety

  // ---- Lost clients ----

  /** Asleep, with an event the driver no longer knows. */
  ghost predicate LostWaiter(e: Engine, t: Ticket) {
    t in e.waiters && e.waiters[t].Asleep() && !e.EventKnown(t)
  }

  /** Waiting for a final item in a queue the driver no longer knows. */
  ghost predicate LostStream(e: Engine, t: Ticket, items: seq<Item>) {
    && t in e.streams && !e.streams[t].left && !e.QueueKnown(t)
    && e.streams[t].items == items && !HasFinal(items)
  }

  lemma DispatchLeavesUnknown(u: Engine, ids: set<SchedReqId>, output: RunnerOutput, t: Ticket)
    ensures var n := Dispatched(u, ids, output);
            && n.reqEvents == u.reqEvents && n.tickets == u.tickets
            && (forall id :: id in n.streamQueues ==> id in u.streamQueues && n.streamQueues[id] == u.streamQueues[id])
            && (t in u.waiters && !u.EventKnown(t) ==> t in n.waiters && n.waiters[t] == u.waiters[t])
            && (t in u.streams && !u.QueueKnown(t) ==> t in n.streams && n.streams[t] == u.streams[t])
  {
  }

  lemma UpdateLeavesUnknown(e: Engine, output: RunnerOutput, yielded: seq<SchedReqId>, t: Ticket, items: seq<Item>)
    requires DriverInv(e) && Enabled(e, DoUpdate(output, yielded))
    ensures LostWaiter(e, t) ==> LostWaiter(Next(e, DoUpdate(output, yielded)), t)
    ensures LostStream(e, t, items) ==> LostStream(Next(e, DoUpdate(output, yielded)), t, items)
  {
    UpdateIsDispatched(e, output, yielded);
    DigestLooksAtScheduler(e, e.phase.batch, output, yielded);
    hide Dispatched, Digest, Next, Scheduler.FinishedBy, HasFinal, DriverInv;
    DispatchLeavesUnknown(Digest(e, e.phase.batch, output, yielded),
                          ProcessAborts(e).scheduler.FinishedBy(e.phase.batch, output), output, t);
  }

  lemma SubmitLeavesUnknown(e: Engine, step: Step, t: Ticket, items: seq<Item>)
    requires DriverInv(e) && Enabled(e, step) && (step.DoSubmitWaiter? || step.DoSubmitStream?)
    ensures LostWaiter(e, t) ==> LostWaiter(Next(e, step), t)
    ensures LostStream(e, t, items) ==> LostStream(Next(e, step), t, items)
  {
    SubmissionIs(e, step);
    hide Next, HasFinal, Scheduler.Submit, Scheduler.Valid, PhaseConsistent;
  }

  lemma SchedulerLeavesUnknown(e: Engine, n: Engine, t: Ticket, items: seq<Item>)
    requires n == e.(scheduler := n.scheduler, abortQueue := n.abortQueue, phase := n.phase)
    ensures LostWaiter(e, t) ==> LostWaiter(n, t)
    ensures LostStream(e, t, items) ==> LostStream(n, t, items)
  {
  }

  lemma SignalLeavesUnknown(e: Engine, t: Ticket, items: seq<Item>)
    ensures LostWaiter(e, t) ==> LostWaiter(SignalEngineDead(e), t)
    ensures LostStream(e, t, items) ==> LostStream(SignalEngineDead(e), t, items)
  {
  }

  lemma LeavingLeavesUnknown(e: Engine, step: Step, t: Ticket, items: seq<Item>)
    requires e.scheduler.Valid() && Enabled(e, step) && (step.DoCollect? || step.DoLeaveStream?)
    ensures LostWaiter(e, t) ==> LostWaiter(Next(e, step), t)
    ensures LostStream(e, t, items) && step != DoLeaveStream(t) ==> LostStream(Next(e, step), t, items)
  {
    hide HasFinal, Scheduler.Valid;
  }

  /** No step ever wakes a lost waiter, engine death included, or sends a lost stream
      anything. */
  lemma StepLeavesLost(e: Engine, step: Step, t: Ticket, items: seq<Item>)
    requires DriverInv(e) && Enabled(e, step)
    ensures LostWaiter(e, t) ==> LostWaiter(Next(e, step), t)
    ensures LostStream(e, t, items) && step != DoLeaveStream(t) ==> LostStream(Next(e, step), t, items)
  {
    match step
    case DoSubmitWaiter(_, _) => SubmitLeavesUnknown(e, step, t, items);
    case DoSubmitStream(_, _) => SubmitLeavesUnknown(e, step, t, items);
    case DoCollect(_) => LeavingLeavesUnknown(e, step, t, items);
    case DoLeaveStream(_) => LeavingLeavesUnknown(e, step, t, items);
    case DoUpdate(output, yielded) => UpdateLeavesUnknown(e, output, yielded, t, items);
    case DoEngineDied =>
      SignalLeavesUnknown(e, t, items);
      SchedulerLeavesUnknown(SignalEngineDead(e), Next(e, step), t, items);
    case DoClose => SignalLeavesUnknown(e, t, items);
    case DoSchedule(selected) => ScheduleStep(e, selected); SchedulerLeavesUnknown(e, Next(e, step), t, items);
    case DoPoll => SchedulerLeavesUnknown(e, Next(e, step), t, items);
    case DoAbort(_) => SchedulerLeavesUnknown(e, Next(e, step), t, items);
    case DoStop => SchedulerLeavesUnknown(e, Next(e, step), t, items);
    case DoSurface =>
  }

  /** The same over any run, under whatever ids. */
  lemma {:induction false} LostForever(first: Engine, steps: seq<Step>, last: Engine, t: Ticket, items: seq<Item>)
    requires DriverInv(first) && Runs(first, steps, last)
    ensures LostWaiter(first, t) ==> LostWaiter(last, t)
    ensures LostStream(first, t, items) && DoLeaveStream(t) !in steps ==> LostStream(last, t, items)
    decreases |steps|
  {
    if steps != [] {
      assert steps == [steps[0]] + steps[1..];
      StepKeepsDriver(first, steps[0]);
      StepLeavesLost(first, steps[0], t, items);
      hide Next, Enabled, DriverInv, LostWaiter, LostStream;
      LostForever(Next(first, steps[0]), steps[1..], last, t, items);
    }
  }

  // ---- When a reused id disturbs somebody ----

  /** Whoever else returns, the driver keeps knowing the waiter's event. */
  ghost predicate EventStays(n: Engine, t: Ticket)
    requires t in n.waiters
  {
    forall u :: u != t && Enabled(n, DoCollect(u)) ==> Collect(n, u).EventKnown(t)
  }

  /** The waiter's event stays known; and if the engine dies, the waiter is told so. */
  ghost predicate WaiterSecure(n: Engine, t: Ticket)
    requires t in n.waiters
  {
    && EventStays(n, t)
    && SignalEngineDead(n).waiters[t].got == Some(ENGINE_DIED)
  }

  function Always(r: DiffusionOutput): SchedReqId -> DiffusionOutput { _ => r }

  /** Whoever else leaves, the driver keeps knowing the stream's queue; and if its own
      consumer leaves early, the request's result is nobody else's. */
  ghost predicate StreamSecure(n: Engine, t: Ticket)
    requires t in n.streams
  {
    && (forall u :: u != t && Enabled(n, DoLeaveStream(u)) ==> LeaveStream(n, u).QueueKnown(t))
    && (forall r :: Deliver(LeaveStream(n, t), {n.streams[t].id}, Always(r), {}).waiters == n.waiters)
  }

  lemma SubmittedWaiter(e: Engine, id: SchedReqId, requestIds: seq<RequestId>)
    requires e.scheduler.Valid() && Enabled(e, DoSubmitWaiter(id, requestIds)) && !e.scheduler.Submit(id, requestIds).1
    ensures Next(e, DoSubmitWaiter(id, requestIds)) == WithWaiter(e, e.scheduler.Submit(id, requestIds).0, id)
  {
  }

  lemma SubmittedStream(e: Engine, id: SchedReqId, requestIds: seq<RequestId>)
    requires e.scheduler.Valid() && Enabled(e, DoSubmitStream(id, requestIds)) && !e.scheduler.Submit(id, requestIds).1
    ensures Next(e, DoSubmitStream(id, requestIds)) == WithStream(e, e.scheduler.Submit(id, requestIds).0, id)
  {
  }

  lemma EventStaysExactly(e: Engine, s: Scheduler, id: SchedReqId)
    requires Keyed(e) && WaitersServed(e) && id !in e.scheduler.states
    ensures EventStays(WithWaiter(e, s, id), e.tickets) <==> id !in e.reqEvents || id !in e.pendingResults
  {
    var n := WithWaiter(e, s, id);
    forall u | u != e.tickets && Enabled(n, DoCollect(u))
      ensures u in e.waiters && (Collect(n, u).EventKnown(e.tickets) <==> e.waiters[u].id != id)
      ensures e.waiters[u].id == id ==> id in e.reqEvents && id in e.pendingResults
    {
      assert WaiterServed(e, u);
    }
    if id in e.reqEvents {
      var u := e.reqEvents[id];
      assert WaiterServed(e, u);
      assert Enabled(n, DoCollect(u)) && !Collect(n, u).EventKnown(e.tickets);
    }
  }

  lemma DeathTellsNew(e: Engine, s: Scheduler, id: SchedReqId)
    ensures SignalEngineDead(WithWaiter(e, s, id)).waiters[e.tickets].got == Some(ENGINE_DIED)
            <==> id !in e.pendingResults || e.pendingResults[id] == ENGINE_DIED
  {
  }

  /** A new waiter is secure exactly if its id is fresh for it. */
  lemma WithWaiterSecureExactly(e: Engine, s: Scheduler, id: SchedReqId, requestIds: seq<RequestId>)
    requires Keyed(e) && WaitersServed(e) && id !in e.scheduler.states
    ensures WaiterSecure(WithWaiter(e, s, id), e.tickets) <==> Fresh(e, DoSubmitWaiter(id, requestIds))
  {
    EventStaysExactly(e, s, id);
    DeathTellsNew(e, s, id);
    assert e.tickets in WithWaiter(e, s, id).waiters;
    hide SignalEngineDead, Collect, Enabled, EventStays, WithWaiter, Keyed, WaitersServed;
  }

  lemma LeavingOfOthers(e: Engine, s: Scheduler, id: SchedReqId)
    requires Keyed(e)
    ensures var n := WithStream(e, s, id);
            (forall u :: u != e.tickets && Enabled(n, DoLeaveStream(u)) ==> LeaveStream(n, u).QueueKnown(e.tickets))
            <==> forall u :: u in e.streams && e.streams[u].id == id ==> e.streams[u].left
  {
    var n := WithStream(e, s, id);
    forall u | u in e.streams && !e.streams[u].left
      ensures u != e.tickets && Enabled(n, DoLeaveStream(u))
      ensures LeaveStream(n, u).QueueKnown(e.tickets) <==> e.streams[u].id != id
    {
    }
    forall u | u != e.tickets && Enabled(n, DoLeaveStream(u)) ensures u in e.streams && !e.streams[u].left {}
  }

  lemma ResultOfOthers(e: Engine, s: Scheduler, id: SchedReqId)
    requires Keyed(e) && WaitersServed(e) && id !in e.scheduler.states
    ensures var n := WithStream(e, s, id);
            (forall r :: Deliver(LeaveStream(n, e.tickets), {id}, Always(r), {}).waiters == n.waiters)
            <==> id !in e.reqEvents
  {
    var n := WithStream(e, s, id);
    if id in e.reqEvents {
      var u := e.reqEvents[id];
      assert WaiterServed(e, u);
      var r := ErrorOutput(if e.waiters[u].got.value.error == Some("") then "error" else "");
      assert Deliver(LeaveStream(n, e.tickets), {id}, Always(r), {}).waiters[u].got == Some(r);
      assert r != e.waiters[u].got.value;
    } else {
      forall r ensures Deliver(LeaveStream(n, e.tickets), {id}, Always(r), {}).waiters == n.waiters {
        assert Woken(n.waiters, n.reqEvents, {id}, Always(r)) == n.waiters;
      }
    }
  }

  /** A new stream is secure exactly if its id is fresh for it. */
  lemma WithStreamSecureExactly(e: Engine, s: Scheduler, id: SchedReqId, requestIds: seq<RequestId>)
    requires Keyed(e) && WaitersServed(e) && id !in e.scheduler.states
    ensures StreamSecure(WithStream(e, s, id), e.tickets) <==> Fresh(e, DoSubmitStream(id, requestIds))
  {
    hide Keyed, WaitersServed;
    LeavingOfOthers(e, s, id);
    ResultOfOthers(e, s, id);
  }

  /** The code only checks a new scheduler id against live scheduler states.  That makes the
      new client secure exactly if its id is fresh. */
  lemma ReusedIdsSecureExactly(e: Engine, id: SchedReqId, requestIds: seq<RequestId>)
    requires Inv(e) && id !in e.scheduler.states && !e.scheduler.Submit(id, requestIds).1
    ensures var n := Next(e, DoSubmitWaiter(id, requestIds));
            e.tickets in n.waiters &&
            (WaiterSecure(n, e.tickets) <==> Fresh(e, DoSubmitWaiter(id, requestIds)))
    ensures var n := Next(e, DoSubmitStream(id, requestIds));
            e.tickets in n.streams &&
            (StreamSecure(n, e.tickets) <==> Fresh(e, DoSubmitStream(id, requestIds)))
  {
    SubmittedWaiter(e, id, requestIds);
    SubmittedStream(e, id, requestIds);
    hide Next, WaiterSecure, StreamSecure, Fresh, Scheduler.Submit;
    WithWaiterSecureExactly(e, e.scheduler.Submit(id, requestIds).0, id, requestIds);
    WithStreamSecureExactly(e, e.scheduler.Submit(id, requestIds).0, id, requestIds);
  }

  /** A waiter that submits while another one still has to take its result under the same id
      is lost as soon as that one takes it. */
  lemma ReusedIdLosesWaiter(e: Engine, id: SchedReqId, requestIds: seq<RequestId>, u: Ticket)
    requires Inv(e) && id !in e.scheduler.states && !e.scheduler.Submit(id, requestIds).1
    requires u in e.waiters && e.waiters[u].answer.None? && e.waiters[u].id == id
    ensures var n := Next(e, DoSubmitWaiter(id, requestIds));
            Enabled(n, DoCollect(u)) && LostWaiter(Collect(n, u), e.tickets)
  {
    SubmittedWaiter(e, id, requestIds);
    assert WaiterServed(e, u);
  }

  /** A stream opened while the consumer of another one of the same id is still there is lost
      as soon as that consumer leaves. */
  lemma ReusedIdLosesStream(e: Engine, id: SchedReqId, requestIds: seq<RequestId>, u: Ticket)
    requires Inv(e) && id !in e.scheduler.states && !e.scheduler.Submit(id, requestIds).1
    requires u in e.streams && !e.streams[u].left && e.streams[u].id == id
    ensures var n := Next(e, DoSubmitStream(id, requestIds));
            Enabled(n, DoLeaveStream(u)) && LostStream(LeaveStream(n, u), e.tickets, [])
  {
    SubmittedStream(e, id, requestIds);
  }

  // ---- Runs from an empty engine ----

  lemma RunsOn(first: Engine, step: Step, steps: seq<Step>, last: Engine)
    requires first.scheduler.Valid() && Enabled(first, step) && Runs(Next(first, step), steps, last)
    ensures Runs(first, [step] + steps, last)
  {
    assert ([step] + steps)[1..] == steps;
  }

  /** The scheduler holds one request and the driver is idle. */
  ghost predicate Alone(e: Engine, id: SchedReqId, status: Status) {
    && e.scheduler.states.Keys == {id} && e.scheduler.states[id].status == status
    && e.abortQueue == []
  }

  ghost predicate Startable(e: Engine) {
    Initial(e) && e.running && e.abortQueue == []
  }

  function Submission(stream: bool, id: SchedReqId): Step {
    if stream then DoSubmitStream(id, [id]) else DoSubmitWaiter(id, [id])
  }

  ghost predicate QueuedAlone(e: Engine, id: SchedReqId) {
    Inv(e) && Alone(e, id, Waiting) && e.scheduler.waiting == [id] && e.scheduler.running == []
  }

  ghost predicate RunningAlone(e: Engine, id: SchedReqId) {
    Inv(e) && Alone(e, id, Running) && e.phase.Executing? && id in e.phase.batch.scheduled
  }

  /** The client t of the request, before it is served and after. */
  ghost predicate Expecting(e: Engine, id: SchedReqId, t: Ticket, stream: bool) {
    if stream then t in e.streams && !e.streams[t].left && e.streams[t].id == id
    else t in e.waiters && e.waiters[t].Asleep() && e.EventKnown(t) && e.waiters[t].id == id && id !in e.streamQueues
  }

  ghost predicate ServedStill(e: Engine, id: SchedReqId, t: Ticket, stream: bool) {
    if stream then t in e.streams && !e.streams[t].left && e.streams[t].id == id
    else t in e.waiters && e.waiters[t].Awake() && e.waiters[t].id == id
  }

  lemma FirstSubmission(first: Engine, id: SchedReqId, stream: bool)
    requires Startable(first)
    ensures Inv(first) && Enabled(first, Submission(stream, id))
    ensures var e := Next(first, Submission(stream, id));
            && QueuedAlone(e, id) && Expecting(e, id, first.tickets, stream)
            && e.phase == Idle && e.running && e.tickets == first.tickets + 1
  {
    InitialInv(first);
    SubmitIsCleanExactly(first.scheduler, id, [id]);
    SubmitKeepsInv(first, Submission(stream, id));
  }

  lemma PolledAlone(e: Engine, id: SchedReqId)
    requires QueuedAlone(e, id) && e.phase == Idle && e.running
    ensures Enabled(e, DoPoll)
    ensures var n := Next(e, DoPoll);
            QueuedAlone(n, id) && n.phase == Polled(true) && n == e.(scheduler := n.scheduler, phase := n.phase)
  {
    assert e.scheduler.Valid() && AbortTargets(e) == {};
    hide Inv, Scheduler.Valid;
    StepKeepsInv(e, DoPoll);
    var statuses: map<SchedReqId, Status> := map x | x in AbortTargets(e) :: Aborted;
    assert e.scheduler.Ending(statuses) == {};
    assert [id][1..] == [];
    assert Without([id], {}) == [id];
  }

  lemma ScheduledAlone(e: Engine, id: SchedReqId)
    requires QueuedAlone(e, id) && e.phase == Polled(true)
    ensures Enabled(e, DoSchedule([id]))
    ensures var n := Next(e, DoSchedule([id]));
            RunningAlone(n, id) && n == e.(scheduler := n.scheduler, phase := n.phase)
  {
    assert e.scheduler.MaySelect([id]);
    StepKeepsInv(e, DoSchedule([id]));
    ScheduleKeepsValid(e.scheduler, [id]);
    ScheduleStep(e, [id]);
    assert Next(e, DoSchedule([id])) == AfterSchedule(e, [id]);
    hide Next, DriverInv, ClientsServed;
    assert id in e.scheduler.Schedule([id]).0.running;
  }

  lemma StillExpecting(e: Engine, n: Engine, id: SchedReqId, t: Ticket, stream: bool)
    requires Expecting(e, id, t, stream) && n == e.(scheduler := n.scheduler, phase := n.phase)
    ensures Expecting(n, id, t, stream) && n.tickets == e.tickets
  {
  }

  /** A step that ends the request with a result. */
  function OneResult(id: SchedReqId): RunnerOutput {
    RunnerOutput(id, Some(0), true, Some(DiffusionOutput(0, None, false, None)), None, map[], map[])
  }

  lemma UpdateEndsAlone(e: Engine, id: SchedReqId)
    requires RunningAlone(e, id)
    ensures Enabled(e, DoUpdate(OneResult(id), []))
    ensures id in ProcessAborts(e).scheduler.FinishedBy(e.phase.batch, OneResult(id))
  {
    assert AbortTargets(e) == {};
    var s := ProcessAborts(e).scheduler;
    assert s.states[id].status == Running;
    assert s.Verdict(OneResult(id), id) == Some(Completed);
    assert id in s.Verdicts(e.phase.batch, OneResult(id));
    assert OneResult(id).IsAbout(e.phase.batch.scheduled);
    assert s.FinishRequests(s.Verdicts(e.phase.batch, OneResult(id))).MayYield([]);
  }

  lemma DispatchedBooks(u: Engine, ids: set<SchedReqId>, output: RunnerOutput)
    ensures var n := Dispatched(u, ids, output);
            && n.scheduler.states.Keys <= u.scheduler.states.Keys && n.tickets == u.tickets
            && (forall t :: t in u.streams ==>
                  t in n.streams && n.streams[t].left == u.streams[t].left && n.streams[t].id == u.streams[t].id)
  {
  }

  lemma UpdatedBooks(e: Engine, output: RunnerOutput, yielded: seq<SchedReqId>)
    requires DriverInv(e) && Enabled(e, DoUpdate(output, yielded))
    ensures var n := Next(e, DoUpdate(output, yielded));
            && n.scheduler.states.Keys <= e.scheduler.states.Keys && n.tickets == e.tickets
            && (forall t :: t in e.streams ==>
                  t in n.streams && n.streams[t].left == e.streams[t].left && n.streams[t].id == e.streams[t].id)
  {
    UpdateIsDispatched(e, output, yielded);
    DigestKeepsInv(e, output, yielded);
    DigestLooksAtScheduler(e, e.phase.batch, output, yielded);
    hide Dispatched, Digest, Next, Enabled, Scheduler.FinishedBy, DriverInv, ClientsServed;
    DispatchedBooks(Digest(e, e.phase.batch, output, yielded),
                    ProcessAborts(e).scheduler.FinishedBy(e.phase.batch, output), output);
  }

  lemma UpdatedAlone(e: Engine, id: SchedReqId, t: Ticket, stream: bool)
    requires RunningAlone(e, id) && Expecting(e, id, t, stream)
    ensures Enabled(e, DoUpdate(OneResult(id), []))
    ensures var n := Next(e, DoUpdate(OneResult(id), []));
            Inv(n) && n.scheduler.states == map[] && n.tickets == e.tickets && ServedStill(n, id, t, stream)
  {
    assert DriverInv(e) && e.scheduler.Valid() && e.scheduler.states.Keys == {id};
    OpenIsInOrder(e);
    hide Next, Enabled, Inv, DriverInv, ClientsServed, Scheduler.Valid, OneResult, SelectResult, Expecting, Delivered;
    UpdateEndsAlone(e, id);
    UpdateDelivers(e, OneResult(id), [], id);
    StepKeepsInv(e, DoUpdate(OneResult(id), []));
    UpdatedBooks(e, OneResult(id), []);
    var n, s := Next(e, DoUpdate(OneResult(id), [])), Digest(e, e.phase.batch, OneResult(id), []).scheduler;
    hide Digest, QueuesInOrder;
    DeliveredIsServed(e, n, id, SelectResult(s, id, OneResult(id)), id in s.states && s.states[id].status != Completed,
                      t, stream);
  }

  lemma DeliveredIsServed(e: Engine, n: Engine, id: SchedReqId, result: DiffusionOutput, skipped: bool, t: Ticket,
                          stream: bool)
    requires Delivered(e, n, id, result, skipped) && Expecting(e, id, t, stream)
    requires n.scheduler.states.Keys <= {id}
    requires forall t :: t in e.streams ==>
               t in n.streams && n.streams[t].left == e.streams[t].left && n.streams[t].id == e.streams[t].id
    ensures n.scheduler.states == map[] && ServedStill(n, id, t, stream)
  {
    assert n.scheduler.states.Keys == {};
  }

  lemma FourSteps(first: Engine, id: SchedReqId, stream: bool, e1: Engine, e2: Engine, e3: Engine, e: Engine)
    requires first.scheduler.Valid() && Enabled(first, Submission(stream, id))
               && e1 == Next(first, Submission(stream, id))
    requires e1.scheduler.Valid() && Enabled(e1, DoPoll) && e2 == Next(e1, DoPoll)
    requires e2.scheduler.Valid() && Enabled(e2, DoSchedule([id])) && e3 == Next(e2, DoSchedule([id]))
    requires e3.scheduler.Valid() && Enabled(e3, DoUpdate(OneResult(id), []))
    requires e == Next(e3, DoUpdate(OneResult(id), []))
    ensures Runs(first, [Submission(stream, id), DoPoll, DoSchedule([id]), DoUpdate(OneResult(id), [])], e)
  {
    hide Next, Enabled, Scheduler.Valid, OneResult;
    var last := [DoUpdate(OneResult(id), [])];
    assert Runs(e, [], e);
    RunsOn(e3, DoUpdate(OneResult(id), []), [], e);
    RunsOn(e2, DoSchedule([id]), last, e);
    RunsOn(e1, DoPoll, [DoSchedule([id])] + last, e);
    RunsOn(first, Submission(stream, id), [DoPoll] + ([DoSchedule([id])] + last), e);
    assert [Submission(stream, id)] + ([DoPoll] + ([DoSchedule([id])] + last))
        == [Submission(stream, id), DoPoll, DoSchedule([id]), DoUpdate(OneResult(id), [])];
  }

  /** Submit, poll, schedule, finish: the client has its result and is still there. */
  lemma ServedOnce(first: Engine, id: SchedReqId, stream: bool) returns (e: Engine)
    requires Startable(first)
    ensures Inv(first) && Inv(e) && e.scheduler.states == map[] && e.tickets == first.tickets + 1
    ensures Runs(first, [Submission(stream, id), DoPoll, DoSchedule([id]), DoUpdate(OneResult(id), [])], e)
    ensures ServedStill(e, id, first.tickets, stream)
  {
    var t := first.tickets;
    FirstSubmission(first, id, stream);
    var e1 := Next(first, Submission(stream, id));
    PolledAlone(e1, id);
    var e2 := Next(e1, DoPoll);
    ScheduledAlone(e2, id);
    var e3 := Next(e2, DoSchedule([id]));
    assert first.scheduler.Valid() && e1.scheduler.Valid() && e2.scheduler.Valid() && e3.scheduler.Valid();
    hide Next, Enabled, Inv, Alone, Scheduler.Valid, OneResult, Expecting, ServedStill;
    StillExpecting(e1, e2, id, t, stream);
    StillExpecting(e2, e3, id, t, stream);
    UpdatedAlone(e3, id, t, stream);
    e := Next(e3, DoUpdate(OneResult(id), []));
    FourSteps(first, id, stream, e1, e2, e3, e);
  }

  // ---- The runs that lose somebody ----

  function Reuse(stream: bool, id: SchedReqId): seq<Step> {
    [Submission(stream, id), DoPoll, DoSchedule([id]), DoUpdate(OneResult(id), []), Submission(stream, id)]
  }

  lemma {:induction false} RunsThenStep(first: Engine, steps: seq<Step>, e: Engine, step: Step)
    requires Runs(first, steps, e) && e.scheduler.Valid() && Enabled(e, step)
    ensures Runs(first, steps + [step], Next(e, step))
    decreases |steps|
  {
    if steps == [] {
      assert steps + [step] == [step] && [step][1..] == [];
    } else {
      assert (steps + [step])[1..] == steps[1..] + [step];
      RunsThenStep(Next(first, steps[0]), steps[1..], e, step);
    }
  }

  lemma NothingActive(e: Engine, id: SchedReqId)
    requires DriverInv(e) && e.scheduler.states == map[]
    ensures !e.scheduler.Submit(id, [id]).1 && Enabled(e, DoSubmitWaiter(id, [id]))
              && Enabled(e, DoSubmitStream(id, [id]))
  {
    SubmitIsCleanExactly(e.scheduler, id, [id]);
  }

  lemma ReuseRuns(first: Engine, id: SchedReqId, stream: bool, e: Engine, step: Step)
    requires Runs(first, [Submission(stream, id), DoPoll, DoSchedule([id]), DoUpdate(OneResult(id), [])], e)
    requires e.scheduler.Valid() && Enabled(e, Submission(stream, id))
    requires var n := Next(e, Submission(stream, id)); n.scheduler.Valid() && Enabled(n, step)
    ensures Runs(first, Reuse(stream, id) + [step], Next(Next(e, Submission(stream, id)), step))
  {
    hide Next, Enabled, Scheduler.Valid, OneResult, Runs;
    var four := [Submission(stream, id), DoPoll, DoSchedule([id]), DoUpdate(OneResult(id), [])];
    RunsThenStep(first, four, e, Submission(stream, id));
    assert four + [Submission(stream, id)] == Reuse(stream, id);
    RunsThenStep(first, Reuse(stream, id), Next(e, Submission(stream, id)), step);
  }

  lemma ValidAfter(e: Engine, step: Step)
    requires DriverInv(e) && Enabled(e, step)
    ensures e.scheduler.Valid() && DriverInv(Next(e, step)) && Next(e, step).scheduler.Valid()
  {
    StepKeepsDriver(e, step);
  }

  lemma LosesWaiter(e: Engine, id: SchedReqId, t: Ticket)
    requires Inv(e) && e.scheduler.states == map[] && ServedStill(e, id, t, false)
    ensures e.scheduler.Valid() && Enabled(e, Submission(false, id))
    ensures var n := Next(e, Submission(false, id));
            && n.scheduler.Valid() && Enabled(n, DoCollect(t))
            && DriverInv(Next(n, DoCollect(t))) && LostWaiter(Next(n, DoCollect(t)), e.tickets)
  {
    NothingActive(e, id);
    ReusedIdLosesWaiter(e, id, [id], t);
    hide DriverInv, ClientsServed, LostWaiter;
    assert DriverInv(e);
    ValidAfter(e, Submission(false, id));
    ValidAfter(Next(e, Submission(false, id)), DoCollect(t));
  }

  lemma LosesStream(e: Engine, id: SchedReqId, t: Ticket)
    requires Inv(e) && e.scheduler.states == map[] && ServedStill(e, id, t, true)
    ensures e.scheduler.Valid() && Enabled(e, Submission(true, id))
    ensures var n := Next(e, Submission(true, id));
            && n.scheduler.Valid() && Enabled(n, DoLeaveStream(t))
            && DriverInv(Next(n, DoLeaveStream(t))) && LostStream(Next(n, DoLeaveStream(t)), e.tickets, [])
  {
    NothingActive(e, id);
    ReusedIdLosesStream(e, id, [id], t);
    hide DriverInv, ClientsServed, LostStream;
    assert DriverInv(e);
    ValidAfter(e, Submission(true, id));
    ValidAfter(Next(e, Submission(true, id)), DoLeaveStream(t));
  }

  /** Two waiters under one id: the second submits when the first was served but has not
      returned yet, the first returns, and the second is never woken again. */
  lemma RunThatLosesWaiter(first: Engine, id: SchedReqId) returns (last: Engine)
    requires Startable(first)
    ensures Runs(first, Reuse(false, id) + [DoCollect(first.tickets)], last)
    ensures DriverInv(last) && LostWaiter(last, first.tickets + 1)
  {
    hide Next, Enabled, Inv, DriverInv, LostWaiter, ServedStill, Runs, Scheduler.Valid;
    var e := ServedOnce(first, id, false);
    LosesWaiter(e, id, first.tickets);
    ReuseRuns(first, id, false, e, DoCollect(first.tickets));
    last := Next(Next(e, Submission(false, id)), DoCollect(first.tickets));
  }

  /** The same of two streams, when the consumer of the first one ends. */
  lemma RunThatLosesStream(first: Engine, id: SchedReqId) returns (last: Engine)
    requires Startable(first)
    ensures Runs(first, Reuse(true, id) + [DoLeaveStream(first.tickets)], last)
    ensures DriverInv(last) && LostStream(last, first.tickets + 1, [])
  {
    hide Next, Enabled, Inv, DriverInv, LostStream, ServedStill, Runs, Scheduler.Valid;
    var e := ServedOnce(first, id, true);
    LosesStream(e, id, first.tickets);
    ReuseRuns(first, id, true, e, DoLeaveStream(first.tickets));
    last := Next(Next(e, Submission(true, id)), DoLeaveStream(first.tickets));
  }

  lemma QueuedAbortStrands(e: Engine, id: SchedReqId, t: Ticket, stream: bool)
    requires QueuedAlone(e, id) && Expecting(e, id, t, stream) && e.phase == Idle && e.running
    requires id in e.scheduler.activeIds && e.scheduler.activeIds[id] == id
    requires stream ==> t in e.streams && e.streams[t] == Stream(id, [], false)
    ensures e.scheduler.Valid() && Enabled(e, DoAbort([id]))
    ensures var n := Next(e, DoAbort([id]));
            && n.scheduler.Valid() && Enabled(n, DoPoll) && Inv(Next(n, DoPoll))
            && (if stream then StrandedStream(Next(n, DoPoll), t, []) else StrandedWaiter(Next(n, DoPoll), t))
  {
    assert e.scheduler.Valid();
    var n := Next(e, DoAbort([id]));
    assert n.abortQueue == [id] && n == e.(abortQueue := [id]);
    hide ClientsServed, Keyed, PhaseConsistent, Scheduler.Valid;
    StepKeepsInv(e, DoAbort([id]));
    assert id in AbortTargets(n) && Enabled(n, DoPoll);
    hide Next, ProcessAborts, Enabled, Inv, StrandedWaiter, StrandedStream, Expecting;
    PollStrands(n, id, t, stream);
  }

  lemma PollStrands(e: Engine, id: SchedReqId, t: Ticket, stream: bool)
    requires Inv(e) && Enabled(e, DoPoll) && id in AbortTargets(e) && Alone(e.(abortQueue := []), id, Waiting)
    requires Expecting(e, id, t, stream) && (stream ==> t in e.streams && e.streams[t] == Stream(id, [], false))
    ensures Inv(Next(e, DoPoll))
    ensures if stream then StrandedStream(Next(e, DoPoll), t, []) else StrandedWaiter(Next(e, DoPoll), t)
  {
    assert e.scheduler.Valid();
    NothingIn([]);
    hide Next, Enabled, ClientsServed, Keyed, PhaseConsistent, HasFinal, Scheduler.Valid;
    AbortBetweenBatchesStrands(e, id);
    StepKeepsInv(e, DoPoll);
  }

  lemma ThreeSteps(first: Engine, a: Step, e1: Engine, b: Step, e2: Engine, c: Step)
    requires first.scheduler.Valid() && Enabled(first, a) && e1 == Next(first, a)
    requires e1.scheduler.Valid() && Enabled(e1, b) && e2 == Next(e1, b)
    requires e2.scheduler.Valid() && Enabled(e2, c)
    ensures Runs(first, [a, b, c], Next(e2, c))
  {
    hide Next, Enabled, Scheduler.Valid;
    var last := Next(e2, c);
    assert Runs(last, [], last);
    RunsOn(e2, c, [], last);
    RunsOn(e1, b, [c], last);
    RunsOn(first, a, [b, c], last);
    assert [a] + [b, c] == [a, b, c];
  }

  /** Three steps that strand a client: submit, abort while queued, poll. */
  lemma AbortWhileQueuedStrands(first: Engine, id: SchedReqId, stream: bool) returns (last: Engine)
    requires Startable(first)
    ensures Runs(first, [Submission(stream, id), DoAbort([id]), DoPoll], last)
    ensures Inv(last)
    ensures if stream then StrandedStream(last, first.tickets, []) else StrandedWaiter(last, first.tickets)
  {
    FirstSubmission(first, id, stream);
    assert first.scheduler.Valid();
    QueuedIsActive(first, id, stream);
    hide Next, Enabled, Inv, Alone, Scheduler.Valid, Expecting, StrandedStream, StrandedWaiter;
    var e1 := Next(first, Submission(stream, id));
    QueuedAbortStrands(e1, id, first.tickets, stream);
    var e2 := Next(e1, DoAbort([id]));
    last := Next(e2, DoPoll);
    ThreeSteps(first, Submission(stream, id), e1, DoAbort([id]), e2, DoPoll);
  }

  lemma QueuedIsActive(first: Engine, id: SchedReqId, stream: bool)
    requires Startable(first)
    requires first.scheduler.Valid() && Enabled(first, Submission(stream, id))
    ensures var e := Next(first, Submission(stream, id));
            && id in e.scheduler.activeIds && e.scheduler.activeIds[id] == id
            && (stream ==> first.tickets in e.streams && e.streams[first.tickets] == Stream(id, [], false))
  {
    SubmitIsCleanExactly(first.scheduler, id, [id]);
  }
}
