/**
 What one update of the driver gives to each client of the batch, read off the runner
 output's own fields.
 */
module EngineOutcome {
  import opened Common
  import opened DiffusionScheduler
  import opened EngineState
  import opened EngineSafety

  // ---- What is published ----

  /** Whether a step has something to stream for a request: its own entry, or the common
      result if there are no entries and the output is named after it. */
  ghost predicate Streams(output: RunnerOutput, id: SchedReqId) {
    match output.perRequestResults
    case Some(results) => id in results
    case None => output.result.Some? && output.reqId == id
  }

  /** A known queue gets exactly the item the step has for its request, flagged as the output
      flags the request; nobody else gets anything. */
  lemma PublishedExactly(e: Engine, output: RunnerOutput, skip: set<SchedReqId>, t: Ticket,
                         result: Option<DiffusionOutput>)
    requires t in e.streams && ResultIs(output, e.streams[t].id, result)
    ensures var before, after := e.streams[t], PublishStep(e, output, skip).streams[t];
            && after.id == before.id && after.left == before.left
            && (if e.QueueKnown(t) && before.id !in skip && Streams(output, before.id)
                then result.Some? && after.items == before.items + [Item(result.value, SaysFinished(output, before.id))]
                else after.items == before.items)
    ensures var id := e.streams[t].id;
            e.QueueKnown(t) ==>
              (id in StepFinals(e.streamQueues.Keys, output, skip) <==>
                 id !in skip && Streams(output, id) && SaysFinished(output, id))
  {
    SentAt(e.streams, e.streamQueues, StepItems(e, output, skip), t);
  }

  // ---- What an update gives ----

  ghost predicate Failed(kind: Kind, output: RunnerOutput, id: SchedReqId, result: Option<DiffusionOutput>) {
    match kind
    case RequestKind => result.None? || (result.value.error.Some? && result.value.error.value != "")
    case StepKind => (result.Some? && result.value.error.Some?) || !HasStepIndex(output, id)
  }

  ghost predicate Ends(kind: Kind, output: RunnerOutput, id: SchedReqId, result: Option<DiffusionOutput>) {
    kind.RequestKind? || Failed(kind, output, id, result) || SaysFinished(output, id)
  }

  ghost function Answer(result: Option<DiffusionOutput>): DiffusionOutput {
    if result.Some? then result.value
    else DiffusionOutput(0, Some("Diffusion execution finished without a final output."), false, None)
  }

  /** What comes into the queue of a request in one update: the item of the step unless the
      request failed, and if the request ends without a final item, a final one. */
  ghost function Fed(kind: Kind, output: RunnerOutput, id: SchedReqId, result: Option<DiffusionOutput>): seq<Item> {
    var heard := !Failed(kind, output, id, result) && result.Some? && Streams(output, id);
    (if heard then [Item(result.value, SaysFinished(output, id))] else [])
    + (if Ends(kind, output, id, result) && !(heard && SaysFinished(output, id))
       then [Item(Answer(result), true)] else [])
  }

  /** A member of the batch in flight that no abort has ended. */
  ghost predicate InFlight(e: Engine, id: SchedReqId) {
    e.phase.Executing? && id in e.phase.batch.scheduled && !ProcessAborts(e).scheduler.HasFinished(id)
  }

  lemma InFlightIsReported(e: Engine, output: RunnerOutput, yielded: seq<SchedReqId>, id: SchedReqId)
    requires DriverInv(e) && Enabled(e, DoUpdate(output, yielded)) && InFlight(e, id)
    ensures Reported(ProcessAborts(e).scheduler, e.phase.batch, id, output, yielded)
    ensures ProcessAborts(e).scheduler.kind == e.scheduler.kind
  {
    var s := ProcessAborts(e).scheduler;
    hide Scheduler.Verdicts, Scheduler.FinishRequests, Scheduler.Valid, Scheduler.MayYield, ProcessAborts;
    ProcessAbortsKeepsDriver(e);
    assert e.phase.Executing? && s.FinishRequests(s.Verdicts(e.phase.batch, output)).MayYield(yielded);
    hide Enabled, Keyed;
    AbortsKeepKind(e);
  }

  lemma AbortsKeepKind(e: Engine)
    ensures ProcessAborts(e).scheduler.kind == e.scheduler.kind
  {
  }

  lemma SelectedUnlessAborted(s: Scheduler, id: SchedReqId, output: RunnerOutput, result: Option<DiffusionOutput>)
    requires id in s.states && s.states[id].status != Aborted && ResultIs(output, id, result)
    ensures SelectResult(s, id, output) == Answer(result)
  {
  }

  lemma DigestEnds(e: Engine, output: RunnerOutput, yielded: seq<SchedReqId>, id: SchedReqId,
                   result: Option<DiffusionOutput>)
    requires DriverInv(e) && Enabled(e, DoUpdate(output, yielded)) && InFlight(e, id) && ResultIs(output, id, result)
    ensures var u, ids := Digest(e, e.phase.batch, output, yielded),
                          ProcessAborts(e).scheduler.FinishedBy(e.phase.batch, output);
            && (id in ids <==> Ends(e.scheduler.kind, output, id, result))
            && (id in SkippedIds(u.scheduler, ids) <==> Failed(e.scheduler.kind, output, id, result))
            && (id in ids ==> SelectResult(u.scheduler, id, output) == Answer(result))
  {
    InFlightIsReported(e, output, yielded, id);
    var s, u := ProcessAborts(e).scheduler, Digest(e, e.phase.batch, output, yielded);
    hide Enabled, DriverInv, ProcessAborts;
    assert u.scheduler == s.UpdateFromOutput(e.phase.batch, output, yielded);
    hide Digest, Scheduler.UpdateFromOutput, Scheduler.FinishedBy, Reported, ResultIs;
    match e.scheduler.kind
    case StepKind => StepUpdateEndsExactly(s, e.phase.batch, output, yielded, id, result);
    case RequestKind => RequestUpdateEndsExactly(s, e.phase.batch, output, yielded, id, result);
    hide SaysFinished, HasStepIndex, SelectResult, Answer;
    if id in s.FinishedBy(e.phase.batch, output) {
      SelectedUnlessAborted(u.scheduler, id, output, result);
    }
  }

  lemma DispatchFeeds(u: Engine, ids: set<SchedReqId>, output: RunnerOutput, t: Ticket, kind: Kind,
                      result: Option<DiffusionOutput>)
    requires t in u.streams && u.QueueKnown(t)
    requires ResultIs(output, u.streams[t].id, result)
    requires u.streams[t].id in ids <==> Ends(kind, output, u.streams[t].id, result)
    requires u.streams[t].id in SkippedIds(u.scheduler, ids) <==> Failed(kind, output, u.streams[t].id, result)
    requires u.streams[t].id in ids ==> SelectResult(u.scheduler, u.streams[t].id, output) == Answer(result)
    ensures var n := Dispatched(u, ids, output);
            && t in n.streams && n.streams[t].items == u.streams[t].items + Fed(kind, output, u.streams[t].id, result)
            && (n.QueueKnown(t) <==> u.streams[t].id !in ids)
  {
    var id, skip := u.streams[t].id, SkippedIds(u.scheduler, ids);
    var p, finals := PublishStep(u, output, skip), StepFinals(u.streamQueues.Keys, output, skip);
    PublishedExactly(u, output, skip, t, result);
    SentAt(p.streams, p.streamQueues, Closing(ids - finals, Selecting(p.scheduler, output)), t);
    assert Dispatched(u, ids, output).streams
        == Sent(p.streams, p.streamQueues, Closing(ids - finals, Selecting(p.scheduler, output)));
    assert Dispatched(u, ids, output).streamQueues == u.streamQueues - ids;
    assert Dispatched(u, ids, output).streams[t].id == id;
    hide PublishStep, Sent, StepFinals, ResultIs, Streams, SaysFinished, Failed, Dispatched, SelectResult;
    var published := if !Failed(kind, output, id, result) && result.Some? && Streams(output, id)
                     then [Item(result.value, SaysFinished(output, id))] else [];
    ConcatAssociates(u.streams[t].items, published, [Item(Answer(result), true)]);
    assert p.streams[t].items == u.streams[t].items + published;
  }

  /** In one update a stream of the batch gets exactly the item the output has for it, final
      exactly if the output flags its request finished, and one final item instead if its
      request ends without that. */
  lemma UpdateFeedsStream(e: Engine, output: RunnerOutput, yielded: seq<SchedReqId>, t: Ticket,
                          result: Option<DiffusionOutput>)
    requires DriverInv(e) && Enabled(e, DoUpdate(output, yielded)) && t in e.streams && e.QueueKnown(t)
    requires InFlight(e, e.streams[t].id) && ResultIs(output, e.streams[t].id, result)
    ensures var n := Next(e, DoUpdate(output, yielded));
            && t in n.streams
            && n.streams[t].items == e.streams[t].items + Fed(e.scheduler.kind, output, e.streams[t].id, result)
            && (n.QueueKnown(t) <==> !Ends(e.scheduler.kind, output, e.streams[t].id, result))
  {
    var id, u := e.streams[t].id, Digest(e, e.phase.batch, output, yielded);
    DigestEnds(e, output, yielded, id, result);
    DigestLooksAtScheduler(e, e.phase.batch, output, yielded);
    UpdateIsDispatched(e, output, yielded);
    var ids := ProcessAborts(e).scheduler.FinishedBy(e.phase.batch, output);
    hide Next, Digest, ProcessAborts, Enabled, DriverInv, Ends, Failed, Fed, Scheduler.FinishedBy, SelectResult;
    hide Dispatched, SkippedIds;
    DispatchFeeds(u, ids, output, t, e.scheduler.kind, result);
  }

  /** A waiter of the batch is woken with the result the output has for it exactly if its
      request ends. */
  lemma UpdateAnswersWaiter(e: Engine, output: RunnerOutput, yielded: seq<SchedReqId>, t: Ticket,
                            result: Option<DiffusionOutput>)
    requires DriverInv(e) && Enabled(e, DoUpdate(output, yielded)) && t in e.waiters && e.EventKnown(t)
    requires InFlight(e, e.waiters[t].id) && ResultIs(output, e.waiters[t].id, result)
    requires e.waiters[t].id !in e.streamQueues
    ensures var n := Next(e, DoUpdate(output, yielded));
            && t in n.waiters
            && n.waiters[t] == if Ends(e.scheduler.kind, output, e.waiters[t].id, result)
                               then e.waiters[t].(got := Some(Answer(result))) else e.waiters[t]
  {
    var id, u := e.waiters[t].id, Digest(e, e.phase.batch, output, yielded);
    DigestEnds(e, output, yielded, id, result);
    DigestLooksAtScheduler(e, e.phase.batch, output, yielded);
    UpdateIsDispatched(e, output, yielded);
    var ids := ProcessAborts(e).scheduler.FinishedBy(e.phase.batch, output);
    hide Next, Digest, ProcessAborts, Enabled, DriverInv, Ends, Failed, Scheduler.FinishedBy, SelectResult, Answer;
    if id in ids { DispatchDeliversWaiter(u, ids, output, t); } else { DispatchedWaiter(u, ids, output, t); }
    DispatchedWaiter(u, ids, output, t);
  }

  /** What a waiter hears whose request an abort has ended: no error, but that it was aborted,
      under its first public id. */
  lemma AbortedHears(e: Engine, output: RunnerOutput, yielded: seq<SchedReqId>, t: Ticket)
    requires DriverInv(e) && QueuesInOrder(e, {}) && Enabled(e, DoUpdate(output, yielded))
    requires t in e.waiters && e.EventKnown(t) && e.waiters[t].id !in e.streamQueues
    requires e.waiters[t].id in e.scheduler.states && e.waiters[t].id in AbortTargets(e)
    requires !e.scheduler.HasFinished(e.waiters[t].id) && e.waiters[t].id in e.phase.batch.scheduled
    ensures var n, id := Next(e, DoUpdate(output, yielded)), e.waiters[t].id;
            var names := e.scheduler.states[id].requestIds;
            && t in n.waiters && n.waiters[t].got.Some?
            && var r := n.waiters[t].got.value;
               && r.aborted && r.error == None && r.payload == 0
               && r.abortMessage == Some("Request " + (if names != [] then names[0] else id) + " aborted.")
  {
    var id := e.waiters[t].id;
    AbortDuringBatch(e, output, yielded, id);
    hide Next, DriverInv, Enabled, QueuesInOrder;
  }

  // ---- What the other sections leave behind ----

  /** A waiter that returns takes its result and its event away, and nothing else. */
  lemma CollectTakes(e: Engine, t: Ticket)
    requires Inv(e) && Enabled(e, DoCollect(t))
    ensures var n, w := Next(e, DoCollect(t)), e.waiters[t];
            n == e.(pendingResults := e.pendingResults - {w.id}, reqEvents := e.reqEvents - {w.id},
                    waiters := e.waiters[t := w.(answer := w.got)])
  {
    assert WaiterServed(e, t);
  }

  /** A delivery stores a result for exactly the ids it delivers that have no stream. */
  lemma DeliveryStores(e: Engine, ids: set<SchedReqId>, result: SchedReqId -> DiffusionOutput, finals: set<SchedReqId>,
                       id: SchedReqId)
    ensures var d := Deliver(e, ids, result, finals).pendingResults;
            if id in ids && id !in e.streamQueues then id in d && d[id] == result(id)
            else (id in d <==> id in e.pendingResults) && (id in d ==> d[id] == e.pendingResults[id])
  {
  }

  /** It wakes exactly the waiters of those ids whose event the driver knows. */
  lemma DeliveryWakes(e: Engine, ids: set<SchedReqId>, result: SchedReqId -> DiffusionOutput, finals: set<SchedReqId>,
                      t: Ticket)
    requires t in e.waiters
    ensures var d, w := Deliver(e, ids, result, finals).waiters, e.waiters[t];
            && t in d
            && d[t] == if w.id in ids && w.id !in e.streamQueues && e.EventKnown(t)
                       then w.(got := Some(result(w.id))) else w
  {
  }

  /** What everybody hears who still waits when the engine dies. */
  lemma DeathIsHeard(e: Engine, t: Ticket)
    requires Inv(e) && Enabled(e, DoEngineDied) && t in e.waiters && e.waiters[t].Asleep()
    ensures var n := Next(e, DoEngineDied);
            && t in n.waiters && n.waiters[t].got.Some?
            && n.waiters[t].got.value == DiffusionOutput(0, Some("Diffusion engine died."), false, None)
  {
    assert Keyed(e) && ClientsServed(e);
    assert Next(e, DoEngineDied).waiters == SignalEngineDead(e).waiters;
    hide SignalEngineDead, Inv, Keyed, ClientsServed, Next, Enabled;
    SignalTellsEveryone(e);
    SignalKeepsTickets(e);
  }

  /** Aborts are queued behind those already there. */
  lemma AbortIsQueued(e: Engine, requestIds: seq<RequestId>)
    requires e.scheduler.Valid()
    ensures Next(e, DoAbort(requestIds)) == e.(abortQueue := e.abortQueue + requestIds)
  {
  }

  /** Draining the queue ends exactly the unfinished requests that some queued public id is
      active for, and empties it. */
  lemma AbortsEndExactly(e: Engine, id: SchedReqId)
    requires id in e.scheduler.states
    ensures var n, was := ProcessAborts(e), e.scheduler.states[id];
            && n == e.(scheduler := n.scheduler, abortQueue := []) && id in n.scheduler.states
            && n.scheduler.states[id]
               == if !was.status.IsFinished() && Named(e, id) then was.(status := Aborted) else was
  {
    assert Named(e, id) <==> id in AbortTargets(e);
  }

  ghost predicate Named(e: Engine, id: SchedReqId) {
    exists r :: r in e.abortQueue && r in e.scheduler.activeIds && e.scheduler.activeIds[r] == id
  }

  /** Aborts without work would reach exactly the requests the scheduler still has and for which
      nothing is stored. */
  lemma AbortsAreHeard(e: Engine, ids: set<SchedReqId>, t: Ticket)
    requires t in e.waiters && e.EventKnown(t) && e.waiters[t].id !in e.streamQueues && e.waiters[t].id in ids
    ensures var id := e.waiters[t].id;
            var n := DispatchAborts(e, ids);
            if id in e.scheduler.states && id !in e.pendingResults then
              var names := e.scheduler.states[id].requestIds;
              && t in n.waiters && n.waiters[t].got.Some?
              && n.waiters[t].got.value
                 == DiffusionOutput(0, None, true,
                                    Some("Request " + (if names != [] then names[0] else id) + " aborted."))
            else t in n.waiters && n.waiters[t] == e.waiters[t]
  {
  }

  /** Where the driver stands after each step, and whether it is to go on. */
  lemma PhaseFollows(e: Engine, step: Step)
    requires DriverInv(e) && Enabled(e, step)
    ensures var n := Next(e, step);
            && (n.running <==> e.running && !step.DoEngineDied? && !step.DoClose?)
            && match step
               case DoPoll => n.phase == Polled(n.scheduler.HasRequests())
               case DoSchedule(_) =>
                 if !e.phase.hadRequests && !e.scheduler.HasRequests() then n.phase == Idle
                 else n.phase.Executing? && forall id :: id in n.phase.batch.scheduled <==> id in n.scheduler.running
               case DoUpdate(_, _) => n.phase == Idle
               case DoEngineDied => n.phase == Stopped
               case DoStop => n.phase == Stopped
               case _ => n.phase == e.phase
  {
    hide Keyed;
    if step.DoSchedule? {
      ScheduleKeepsValid(e.scheduler, step.selected);
      ScheduleStep(e, step.selected);
    } else if step.DoUpdate? {
      UpdateIsDispatched(e, step.output, step.yielded);
      DigestLooksAtScheduler(e, e.phase.batch, step.output, step.yielded);
    } else if step.DoSubmitWaiter? || step.DoSubmitStream? {
      SubmissionIs(e, step);
    }
  }
}
