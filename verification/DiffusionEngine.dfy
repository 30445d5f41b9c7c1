/**
 The concurrent half of vllm_omni/diffusion/diffusion_engine.py as the class it is:
 each method is one critical section and is proved to do what the step functions of
 EngineState say, whichever order its loops visit sets and dictionaries in.
 */
module DiffusionEngineDriver {
  import opened Common
  import opened DiffusionScheduler
  import opened EngineState

  class DiffusionEngine {
    var scheduler: Scheduler
    var abortQueue: seq<RequestId>
    var pendingResults: map<SchedReqId, DiffusionOutput>
    var reqEvents: map<SchedReqId, Ticket>
    var streamQueues: map<SchedReqId, Ticket>
    var waiters: map<Ticket, Waiter>
    var streams: map<Ticket, Stream>
    ghost var tickets: nat
    var running: bool
    ghost var phase: Phase

    ghost function State(): Engine
      reads this
    {
      Engine(scheduler, abortQueue, pendingResults, reqEvents, streamQueues, waiters, streams, tickets, running, phase)
    }

    ghost predicate TablesKeyed()
      reads this
    {
      QueuesKeyed(streamQueues, streams) && EventsKeyed(reqEvents, waiters)
    }

    /** `add_request`: may raise after the state was entered. */
    method AddRequest(id: SchedReqId, requestIds: seq<RequestId>) returns (raised: bool)
      modifies this`scheduler
      ensures (scheduler, raised) == old(scheduler).Submit(id, requestIds)
    {
      ghost var before := scheduler;
      RegisteredExactly(before.activeIds, id, requestIds);
      scheduler := scheduler.(states := scheduler.states[id := RequestState(requestIds, Waiting)]);
      assert requestIds[0..] == requestIds;
      for i := 0 to |requestIds|
        invariant scheduler == before.(states := scheduler.states, activeIds := scheduler.activeIds)
        invariant scheduler.states == before.states[id := RequestState(requestIds, Waiting)]
        invariant Registered(before.activeIds, id, requestIds) == Registered(scheduler.activeIds, id, requestIds[i..])
      {
        var r := requestIds[i];
        assert requestIds[i..][1..] == requestIds[i + 1..];
        if r in scheduler.activeIds && scheduler.activeIds[r] != id {
          return true;
        }
        scheduler := scheduler.(activeIds := scheduler.activeIds[r := id]);
      }
      assert requestIds[|requestIds|..] == [];
      scheduler := scheduler.(waiting := scheduler.waiting + [id]);
      raised := false;
    }

    method SubmitAndRegister(id: SchedReqId, requestIds: seq<RequestId>, event: Ticket) returns (raised: bool)
      requires event == tickets
      modifies this`scheduler, this`reqEvents, this`waiters, this`tickets
      ensures State() == SubmitWaiter(old(State()), id, requestIds)
      ensures raised == old(scheduler).Submit(id, requestIds).1
    {
      raised := AddRequest(id, requestIds);
      if raised {
        return;
      }
      reqEvents := reqEvents[id := event];
      waiters := waiters[event := Waiter(id, None, None)];
      tickets := tickets + 1;
    }

    method OpenStream(id: SchedReqId, requestIds: seq<RequestId>, queue: Ticket) returns (raised: bool)
      requires queue == tickets
      modifies this`scheduler, this`streamQueues, this`streams, this`tickets
      ensures State() == SubmitStream(old(State()), id, requestIds)
      ensures raised == old(scheduler).Submit(id, requestIds).1
    {
      raised := AddRequest(id, requestIds);
      if raised {
        return;
      }
      streamQueues := streamQueues[id := queue];
      streams := streams[queue := Stream(id, [], false)];
      tickets := tickets + 1;
    }

    /** The section a waiter enters after its event was set. */
    method TakeResult(t: Ticket) returns (result: DiffusionOutput)
      requires t in waiters
      modifies this`pendingResults, this`reqEvents, this`waiters
      ensures State() == Collect(old(State()), t)
      ensures result == Collected(old(State()), old(waiters[t].id))
    {
      var id := waiters[t].id;
      result := if id in pendingResults then pendingResults[id] else NO_RESULT;
      pendingResults := pendingResults - {id};
      reqEvents := reqEvents - {id};
      waiters := waiters[t := waiters[t].(answer := Some(result))];
    }

    /** The section a consumer ends in. */
    method ForgetStream(t: Ticket)
      requires t in streams
      modifies this`streamQueues, this`streams
      ensures State() == LeaveStream(old(State()), t)
    {
      streamQueues := streamQueues - {streams[t].id};
      streams := streams[t := streams[t].(left := true)];
    }

    /** Puts one item into the queue known for an id. */
    method PutItem(id: SchedReqId, item: Item)
      requires id in streamQueues && streamQueues[id] in streams
      modifies this`streams
      ensures streams == SentOne(old(streams), streamQueues[id], item)
    {
      var t := streamQueues[id];
      streams := streams[t := streams[t].(items := streams[t].items + [item])];
    }

    /** `_process_aborts_queue` with `_abort_requests`: one `finish_requests` per target. */
    method ProcessAbortsQueue()
      modifies this`scheduler, this`abortQueue
      ensures State() == ProcessAborts(old(State()))
    {
      var targets := ResolveAborts();
      assert AbortedStatuses(targets) == map id | id in AbortTargets(State()) :: Aborted;
      AbortAll(targets);
      abortQueue := [];
    }

    method ResolveAborts() returns (targets: seq<SchedReqId>)
      ensures forall id :: id in targets <==> id in AbortTargets(State())
    {
      targets := [];
      for i := 0 to |abortQueue|
        invariant forall id :: id in targets <==> id in Resolved(abortQueue[..i], scheduler.activeIds)
      {
        var r := abortQueue[i];
        assert abortQueue[..i + 1] == abortQueue[..i] + [r];
        if r in scheduler.activeIds && scheduler.activeIds[r] !in targets {
          targets := targets + [scheduler.activeIds[r]];
        }
      }
      assert abortQueue[..|abortQueue|] == abortQueue;
    }

    method AbortAll(targets: seq<SchedReqId>)
      modifies this`scheduler
      ensures scheduler == old(scheduler).FinishRequests(AbortedStatuses(targets))
    {
      ghost var before := scheduler;
      FinishNothing(before);
      for i := 0 to |targets|
        invariant scheduler == before.FinishRequests(AbortedStatuses(targets[..i]))
      {
        FinishOneMore(before, targets[..i], targets[i]);
        assert targets[..i + 1] == targets[..i] + [targets[i]];
        if targets[i] in scheduler.states {
          scheduler := scheduler.FinishRequests(map[targets[i] := Aborted]);
        }
      }
      assert targets[..|targets|] == targets;
    }

    method DispatchStepOutputs(output: RunnerOutput, skip: set<SchedReqId>) returns (finals: set<SchedReqId>)
      requires QueuesKeyed(streamQueues, streams)
      modifies this`streams
      ensures State() == PublishStep(old(State()), output, skip)
      ensures finals == StepFinals(streamQueues.Keys, output, skip)
      ensures QueuesKeyed(streamQueues, streams)
    {
      SentKeepsKeyed(streamQueues, streams, StepItems(State(), output, skip));
      if output.perRequestResults.None? {
        finals := DispatchSingleOutput(output, skip);
      } else {
        finals := DispatchPerRequestOutputs(output, skip);
      }
    }

    method DispatchSingleOutput(output: RunnerOutput, skip: set<SchedReqId>) returns (finals: set<SchedReqId>)
      requires QueuesKeyed(streamQueues, streams) && output.perRequestResults.None?
      modifies this`streams
      ensures streams == PublishStep(old(State()), output, skip).streams
      ensures finals == StepFinals(streamQueues.Keys, output, skip)
    {
      finals := {};
      ghost var item := StepItems(State(), output, skip);
      SentNothing(streams, streamQueues, item);
      if output.result.None? || output.reqId in skip || output.reqId !in streamQueues {
        assert streams == Sent(streams, streamQueues, item);
        return;
      }
      var finished := output.FinishedFlag(output.reqId);
      SentOnlyTo(streams, streamQueues, item, output.reqId);
      PutItem(output.reqId, Item(output.result.value, finished));
      if finished {
        finals := {output.reqId};
      }
    }

    /** Puts the item of one more id, if it has one and the queue is known. */
    method PutNext(id: SchedReqId, one: Option<Item>, ghost before: map<Ticket, Stream>,
                   ghost known: map<SchedReqId, Ticket>, ghost item: SchedReqId -> Option<Item>,
                   ghost seen: set<SchedReqId>)
      requires QueuesKeyed(known, before) && id !in seen
      requires one == if id in known then item(id) else None
      requires one.Some? ==> id in streamQueues && streamQueues[id] == known[id]
      requires streams == Sent(before, known, Within(item, seen))
      modifies this`streams
      ensures streams == Sent(before, known, Within(item, seen + {id}))
    {
      SentOneMore(before, known, item, seen, id);
      if one.Some? {
        PutItem(id, one.value);
      }
    }

    method DispatchPerRequestOutputs(output: RunnerOutput, skip: set<SchedReqId>) returns (finals: set<SchedReqId>)
      requires QueuesKeyed(streamQueues, streams) && output.perRequestResults.Some?
      modifies this`streams
      ensures streams == PublishStep(old(State()), output, skip).streams
      ensures finals == StepFinals(streamQueues.Keys, output, skip)
    {
      finals := {};
      ghost var before, item := streams, StepItems(State(), output, skip);
      var results := output.perRequestResults.value;
      var todo := results.Keys;
      PerRequestItems(streamQueues.Keys, output, skip);
      PublishedPerRequest(State(), output, skip);
      assert results.Keys - todo == {};
      hide Sent, Within, StepFinals, QueuesKeyed, PublishStep, FinalsWithin;
      while todo != {}
        invariant todo <= results.Keys
        invariant streams == Sent(before, streamQueues, Within(item, results.Keys - todo))
        invariant finals == FinalsWithin(streamQueues.Keys, output, skip, results.Keys - todo)
        decreases |todo|
      {
        var id :| id in todo;
        ghost var seen := results.Keys - todo;
        SeenOneMore(results.Keys, todo, id);
        todo := todo - {id};
        FinalsOneMore(streamQueues.Keys, output, skip, seen, id);
        var known := id !in skip && id in streamQueues;
        var finished := output.FinishedFlag(id);
        PutNext(id, if known then Some(Item(results[id], finished)) else None, before, streamQueues, item, seen);
        if known && finished {
          finals := finals + {id};
        }
      }
      assert results.Keys - todo == results.Keys;
    }

    method DispatchFinishedRequests(ids: set<SchedReqId>, output: RunnerOutput, finals: set<SchedReqId>)
      requires TablesKeyed()
      modifies this`scheduler, this`streams, this`streamQueues, this`pendingResults, this`waiters
      ensures State() == DispatchFinished(old(State()), ids, output, finals)
    {
      hide Deliver, HandOverOne, SelectResult;
      ghost var before := State();
      ghost var choose := Selecting(scheduler, output);
      var todo := ids;
      DeliverNothing(before, choose, finals);
      assert ids - todo == {};
      while todo != {}
        invariant todo <= ids
        invariant TablesKeyed()
        invariant State() == Deliver(before, ids - todo, choose, finals)
        decreases |todo|
      {
        var id :| id in todo;
        ghost var done := ids - todo;
        todo := todo - {id};
        DeliverOneMore(before, done, choose, finals, id);
        DeliverLeavesOthers(before, done, choose, finals, id);
        SelectionDependsOnState(before.scheduler, scheduler, id, output);
        assert done + {id} == ids - todo;
        HandOver(id, SelectResult(scheduler, id, output), id in finals);
      }
      assert ids - todo == ids;
    }

    method DispatchAbortedRequests(finished: set<SchedReqId>)
      requires TablesKeyed()
      modifies this`scheduler, this`streams, this`streamQueues, this`pendingResults, this`waiters
      ensures State() == DispatchAborts(old(State()), finished)
    {
      hide Deliver, HandOverOne, Abortable;
      ghost var before := State();
      ghost var choose := Aborting(scheduler);
      var todo := finished;
      DeliverNothing(before, choose, {});
      AbortableNothing(before);
      assert finished - todo == {};
      while todo != {}
        invariant todo <= finished
        invariant TablesKeyed()
        invariant State() == Deliver(before, Abortable(before, finished - todo), choose, {})
        decreases |todo|
      {
        var id :| id in todo;
        ghost var seen := finished - todo;
        todo := todo - {id};
        assert seen + {id} == finished - todo;
        AbortableOneMore(before, seen, id);
        DeliverLeavesOthers(before, Abortable(before, seen), choose, {}, id);
        if id !in pendingResults && id in scheduler.states {
          DeliverOneMore(before, Abortable(before, seen), choose, {}, id);
          HandOver(id, AbortResult(scheduler.states[id], id), false);
        }
      }
      assert finished - todo == finished;
    }

    /** The common tail of the two dispatch loops. */
    method HandOver(id: SchedReqId, result: DiffusionOutput, alreadyFinal: bool)
      requires TablesKeyed()
      modifies this`scheduler, this`streams, this`streamQueues, this`pendingResults, this`waiters
      ensures State() == HandOverOne(old(State()), id, result, alreadyFinal)
      ensures TablesKeyed()
    {
      scheduler := scheduler.PopAll({id});
      if id in streamQueues {
        if !alreadyFinal {
          PutItem(id, Item(result, true));
        }
        streamQueues := streamQueues - {id};
      } else {
        pendingResults := pendingResults[id := result];
        if id in reqEvents {
          var t := reqEvents[id];
          waiters := waiters[t := waiters[t].(got := Some(result))];
        }
      }
    }

    method SignalDead()
      requires TablesKeyed()
      modifies this`streams, this`streamQueues, this`pendingResults, this`waiters, this`running
      ensures State() == SignalEngineDead(old(State()))
    {
      running := false;
      WakeEveryWaiter();
      CloseEveryStream();
    }

    method WakeEveryWaiter()
      requires EventsKeyed(reqEvents, waiters)
      modifies this`pendingResults, this`waiters
      ensures var stored := Stored(old(pendingResults), reqEvents.Keys - old(pendingResults).Keys, ENGINE_DEATH);
              pendingResults == stored && waiters == Woken(old(waiters), reqEvents, reqEvents.Keys, Taking(stored))
    {
      hide Stored, Woken, EventsKeyed;
      ghost var pending, sleeping := pendingResults, waiters;
      ghost var stored := Stored(pending, reqEvents.Keys - pending.Keys, ENGINE_DEATH);
      var todo := reqEvents.Keys;
      WakeNone(pending, reqEvents, sleeping, stored);
      while todo != {}
        invariant todo <= reqEvents.Keys && EventsKeyed(reqEvents, sleeping)
        invariant waiters == Woken(sleeping, reqEvents, reqEvents.Keys - todo, Taking(stored))
        invariant pendingResults == Stored(pending, reqEvents.Keys - todo - pending.Keys, ENGINE_DEATH)
        decreases |todo|
      {
        var id :| id in todo;
        WakeOneMore(pending, reqEvents, sleeping, todo, id);
        todo := todo - {id};
        if id !in pendingResults {
          pendingResults := pendingResults[id := ENGINE_DIED];
        }
        var t := reqEvents[id];
        waiters := waiters[t := waiters[t].(got := Some(pendingResults[id]))];
      }
      assert reqEvents.Keys - todo == reqEvents.Keys;
    }

    method CloseEveryStream()
      requires QueuesKeyed(streamQueues, streams)
      modifies this`streams, this`streamQueues
      ensures streamQueues == map[]
      ensures streams == Sent(old(streams), old(streamQueues), Closing(old(streamQueues).Keys, ENGINE_DEATH))
    {
      ghost var known, before := streamQueues, streams;
      ClosedNone(known, before);
      hide ClosedBut, Sent;
      var todo := streamQueues.Keys;
      while todo != {}
        invariant ClosedBut(streamQueues, streams, before, known, todo)
        decreases |todo|
      {
        var id :| id in todo;
        CloseNext(id, before, known, todo);
        todo := todo - {id};
      }
      ClosedAll(streamQueues, streams, before, known);
    }

    method CloseNext(id: SchedReqId, ghost before: map<Ticket, Stream>, ghost known: map<SchedReqId, Ticket>,
                     ghost todo: set<SchedReqId>)
      requires ClosedBut(streamQueues, streams, before, known, todo) && id in todo
      modifies this`streams, this`streamQueues
      ensures ClosedBut(streamQueues, streams, before, known, todo - {id})
    {
      SeenOneMore(known.Keys, todo, id);
      PutNext(id, Some(Item(ENGINE_DIED, true)), before, known, Closing(known.Keys, ENGINE_DEATH), known.Keys - todo);
      KeysOneLess(streamQueues, id);
      streamQueues := streamQueues - {id};
    }

    /** The driver's update section, from the abort queue to the last dispatch. */
    method UpdateSection(batch: Batch, output: RunnerOutput, yielded: seq<SchedReqId>)
      requires scheduler.Valid() && TablesKeyed()
      modifies this
      ensures State() == Update(old(State()), batch, output, yielded)
    {
      ProcessAbortsQueue();
      var ids := scheduler.FinishedBy(batch, output);
      scheduler := scheduler.UpdateFromOutput(batch, output, yielded);
      var skip := set id | id in ids && id in scheduler.states && scheduler.states[id].status != Completed;
      var finals := DispatchStepOutputs(output, skip);
      DispatchFinishedRequests(ids, output, finals);
    }
  }

  // ---- The specification of the loops ----

  function AbortedStatuses(ids: seq<SchedReqId>): map<SchedReqId, Status> {
    map id | id in ids :: Aborted
  }

  lemma FinishNothing(s: Scheduler)
    ensures s.FinishRequests(AbortedStatuses([])) == s
  {
    assert s.Ending(AbortedStatuses([])) == {};
    EndingNobody(s, AbortedStatuses([]));
  }

  lemma EndingNobody(s: Scheduler, statuses: map<SchedReqId, Status>)
    requires s.Ending(statuses) == {}
    ensures s.FinishRequests(statuses) == s
  {
    WithoutNothing(s.waiting);
    WithoutNothing(s.running);
    hide Without, Scheduler.Ending;
    assert s.FinishRequests(statuses).states == s.states;
  }

  lemma {:induction false} WithoutNothing<T(!new)>(s: seq<T>)
    ensures Without(s, {}) == s
  {
    if s != [] { WithoutNothing(s[1..]); }
  }

  lemma {:induction false} WithoutTwice<T(!new)>(s: seq<T>, a: set<T>, b: set<T>)
    ensures Without(Without(s, a), b) == Without(s, a + b)
  {
    if s != [] { WithoutTwice(s[1..], a, b); }
  }

  lemma EndingOneMore(s: Scheduler, ids: seq<SchedReqId>, id: SchedReqId)
    ensures var t := s.FinishRequests(AbortedStatuses(ids));
            s.Ending(AbortedStatuses(ids + [id])) == s.Ending(AbortedStatuses(ids)) + t.Ending(map[id := Aborted])
  {
  }

  lemma StatesOneMore(s: Scheduler, ids: seq<SchedReqId>, id: SchedReqId)
    ensures s.FinishRequests(AbortedStatuses(ids + [id])).states
         == s.FinishRequests(AbortedStatuses(ids)).FinishRequests(map[id := Aborted]).states
  {
  }

  /** Ending requests one at a time ends the same ones as ending them together. */
  lemma FinishOneMore(s: Scheduler, ids: seq<SchedReqId>, id: SchedReqId)
    ensures var t := s.FinishRequests(AbortedStatuses(ids));
            s.FinishRequests(AbortedStatuses(ids + [id]))
              == if id in t.states then t.FinishRequests(map[id := Aborted]) else t
  {
    hide Scheduler.Ending;
    var t := s.FinishRequests(AbortedStatuses(ids));
    var one := t.Ending(map[id := Aborted]);
    var done := s.Ending(AbortedStatuses(ids));
    EndingOneMore(s, ids, id);
    StatesOneMore(s, ids, id);
    WithoutTwice(s.waiting, done, one);
    WithoutTwice(s.running, done, one);
    FinishUnknown(t, id);
  }

  lemma FinishUnknown(t: Scheduler, id: SchedReqId)
    ensures id !in t.states ==> t.FinishRequests(map[id := Aborted]) == t
  {
    if id !in t.states {
      assert t.Ending(map[id := Aborted]) == {};
      hide Scheduler.Ending, Scheduler.FinishRequests;
      EndingNobody(t, map[id := Aborted]);
    }
  }

  // ---- Tables and queues ----

  ghost predicate QueuesKeyed(queues: map<SchedReqId, Ticket>, streams: map<Ticket, Stream>) {
    forall id :: id in queues ==> queues[id] in streams && streams[queues[id]].id == id
  }

  ghost predicate EventsKeyed(events: map<SchedReqId, Ticket>, waiters: map<Ticket, Waiter>) {
    forall id :: id in events ==> events[id] in waiters && waiters[events[id]].id == id
  }

  /** One item put into one queue. */
  function SentOne(streams: map<Ticket, Stream>, t: Ticket, item: Item): map<Ticket, Stream>
    requires t in streams
  {
    streams[t := streams[t].(items := streams[t].items + [item])]
  }

  lemma PerRequestItems(streams: set<SchedReqId>, output: RunnerOutput, skip: set<SchedReqId>)
    requires output.perRequestResults.Some?
    ensures forall id :: id in output.perRequestResults.value ==>
              && StepItem(streams, output, skip, id)
                 == (if id in skip || id !in streams then None
                     else Some(Item(output.perRequestResults.value[id], output.FinishedFlag(id))))
              && (id in StepFinals(streams, output, skip) <==>
                    id !in skip && id in streams && output.FinishedFlag(id))
    ensures StepFinals(streams, output, skip) <= output.perRequestResults.value.Keys
    ensures forall id :: StepItem(streams, output, skip, id).Some? ==> id in output.perRequestResults.value
  {
  }

  /** All known queues but those of `todo` are closed and forgotten. */
  ghost predicate ClosedBut(queues: map<SchedReqId, Ticket>, streams: map<Ticket, Stream>, before: map<Ticket, Stream>,
                            known: map<SchedReqId, Ticket>, todo: set<SchedReqId>)
  {
    && QueuesKeyed(known, before) && todo <= known.Keys && queues.Keys == todo
    && (forall id :: id in queues ==> queues[id] == known[id])
    && streams == Sent(before, known, Within(Closing(known.Keys, ENGINE_DEATH), known.Keys - todo))
  }

  lemma ClosedNone(queues: map<SchedReqId, Ticket>, streams: map<Ticket, Stream>)
    requires QueuesKeyed(queues, streams)
    ensures ClosedBut(queues, streams, streams, queues, queues.Keys)
  {
    SentToNobody(streams, queues, Closing(queues.Keys, ENGINE_DEATH));
    assert queues.Keys - queues.Keys == {};
  }

  lemma ClosedAll(queues: map<SchedReqId, Ticket>, streams: map<Ticket, Stream>, before: map<Ticket, Stream>,
                  known: map<SchedReqId, Ticket>)
    requires ClosedBut(queues, streams, before, known, {})
    ensures queues == map[] && streams == Sent(before, known, Closing(known.Keys, ENGINE_DEATH))
  {
    SentToAll(before, known, Closing(known.Keys, ENGINE_DEATH), known.Keys);
    assert known.Keys - {} == known.Keys;
  }

  lemma KeysOneLess<K, V>(m: map<K, V>, k: K)
    ensures (m - {k}).Keys == m.Keys - {k}
    ensures forall j :: j in m && j != k ==> j in m - {k} && (m - {k})[j] == m[j]
  {
  }

  lemma SeenOneMore<T>(all: set<T>, todo: set<T>, id: T)
    requires id in todo && todo <= all
    ensures all - (todo - {id}) == (all - todo) + {id} && id !in all - todo
  {
  }

  /** The items of the ids in a set. */
  function Within(item: SchedReqId -> Option<Item>, ids: set<SchedReqId>): SchedReqId -> Option<Item> {
    id => if id in ids then item(id) else None
  }

  lemma SentKeepsKeyed(queues: map<SchedReqId, Ticket>, streams: map<Ticket, Stream>, item: SchedReqId -> Option<Item>)
    requires QueuesKeyed(queues, streams)
    ensures QueuesKeyed(queues, Sent(streams, queues, item))
  {
  }

  lemma SentNothing(streams: map<Ticket, Stream>, queues: map<SchedReqId, Ticket>, item: SchedReqId -> Option<Item>)
    ensures (forall id :: id in queues ==> item(id).None?) ==> Sent(streams, queues, item) == streams
  {
  }

  lemma SentToNobody(streams: map<Ticket, Stream>, queues: map<SchedReqId, Ticket>, item: SchedReqId -> Option<Item>)
    ensures Sent(streams, queues, Within(item, {})) == streams
  {
    SentNothing(streams, queues, Within(item, {}));
  }

  /** Sending only depends on the items of known ids. */
  lemma SentSame(streams: map<Ticket, Stream>, queues: map<SchedReqId, Ticket>,
                 item: SchedReqId -> Option<Item>, other: SchedReqId -> Option<Item>)
    requires forall id :: id in queues ==> item(id) == other(id)
    ensures Sent(streams, queues, item) == Sent(streams, queues, other)
  {
  }

  lemma SentOnlyTo(streams: map<Ticket, Stream>, queues: map<SchedReqId, Ticket>, item: SchedReqId -> Option<Item>,
                   id: SchedReqId)
    requires QueuesKeyed(queues, streams) && id in queues && item(id).Some?
    requires forall other :: other in queues && item(other).Some? ==> other == id
    ensures Sent(streams, queues, item) == SentOne(streams, queues[id], item(id).value)
  {
  }

  /** Sending to one more id is sending to it after the others. */
  lemma SentOneMore(streams: map<Ticket, Stream>, queues: map<SchedReqId, Ticket>, item: SchedReqId -> Option<Item>,
                    seen: set<SchedReqId>, id: SchedReqId)
    requires QueuesKeyed(queues, streams) && id !in seen
    ensures var before := Sent(streams, queues, Within(item, seen));
            && QueuesKeyed(queues, before)
            && Sent(streams, queues, Within(item, seen + {id}))
               == if id in queues && item(id).Some? then SentOne(before, queues[id], item(id).value) else before
  {
    SentKeepsKeyed(queues, streams, Within(item, seen));
    if id in queues && item(id).Some? {
      var after := SentOne(Sent(streams, queues, Within(item, seen)), queues[id], item(id).value);
      assert Sent(streams, queues, Within(item, seen + {id})) == after;
    } else {
      SentSame(streams, queues, Within(item, seen + {id}), Within(item, seen));
    }
  }

  lemma SentToAll(streams: map<Ticket, Stream>, queues: map<SchedReqId, Ticket>, item: SchedReqId -> Option<Item>,
                  ids: set<SchedReqId>)
    requires forall id :: id in queues && item(id).Some? ==> id in ids
    ensures Sent(streams, queues, Within(item, ids)) == Sent(streams, queues, item)
  {
    SentSame(streams, queues, Within(item, ids), item);
  }

  /** The streams closed by the items of the ids in a set. */
  function FinalsWithin(streams: set<SchedReqId>, output: RunnerOutput, skip: set<SchedReqId>,
                        ids: set<SchedReqId>): set<SchedReqId> {
    set id | id in ids && id in StepFinals(streams, output, skip)
  }

  lemma FinalsOneMore(streams: set<SchedReqId>, output: RunnerOutput, skip: set<SchedReqId>, ids: set<SchedReqId>,
                      id: SchedReqId)
    ensures FinalsWithin(streams, output, skip, ids + {id})
            == if id in StepFinals(streams, output, skip) then FinalsWithin(streams, output, skip, ids) + {id}
               else FinalsWithin(streams, output, skip, ids)
  {
  }

  lemma AllFinals(streams: set<SchedReqId>, output: RunnerOutput, skip: set<SchedReqId>, ids: set<SchedReqId>)
    requires StepFinals(streams, output, skip) <= ids
    ensures FinalsWithin(streams, output, skip, ids) == StepFinals(streams, output, skip)
  {
  }

  lemma PublishedPerRequest(e: Engine, output: RunnerOutput, skip: set<SchedReqId>)
    requires output.perRequestResults.Some?
    ensures var item, ids := StepItems(e, output, skip), output.perRequestResults.value.Keys;
            && Sent(e.streams, e.streamQueues, Within(item, {})) == e.streams
            && FinalsWithin(e.streamQueues.Keys, output, skip, {}) == {}
            && Sent(e.streams, e.streamQueues, Within(item, ids)) == PublishStep(e, output, skip).streams
            && FinalsWithin(e.streamQueues.Keys, output, skip, ids) == StepFinals(e.streamQueues.Keys, output, skip)
  {
    var item, ids := StepItems(e, output, skip), output.perRequestResults.value.Keys;
    PerRequestItems(e.streamQueues.Keys, output, skip);
    SentToNobody(e.streams, e.streamQueues, item);
    SentToAll(e.streams, e.streamQueues, item, ids);
    AllFinals(e.streamQueues.Keys, output, skip, ids);
  }

  // ---- One request after the other ----

  /** What the body of a dispatch loop does for one request. */
  function HandOverOne(e: Engine, id: SchedReqId, result: DiffusionOutput, alreadyFinal: bool): Engine
    requires QueuesKeyed(e.streamQueues, e.streams) && EventsKeyed(e.reqEvents, e.waiters)
  {
    var popped := e.(scheduler := e.scheduler.PopAll({id}));
    if id in e.streamQueues then
      popped.(streamQueues := e.streamQueues - {id},
              streams := if alreadyFinal then e.streams else SentOne(e.streams, e.streamQueues[id], Item(result, true)))
    else
      popped.(pendingResults := e.pendingResults[id := result],
              waiters := if id in e.reqEvents then WokenOne(e.waiters, e.reqEvents[id], result) else e.waiters)
  }

  function WokenOne(waiters: map<Ticket, Waiter>, t: Ticket, result: DiffusionOutput): map<Ticket, Waiter>
    requires t in waiters
  {
    waiters[t := waiters[t].(got := Some(result))]
  }

  lemma DeliverNothing(e: Engine, result: SchedReqId -> DiffusionOutput, finals: set<SchedReqId>)
    ensures Deliver(e, {}, result, finals) == e
  {
    SentNothing(e.streams, e.streamQueues, Closing({} - finals, result));
    PopNothing(e.scheduler);
    assert {} - e.streamQueues.Keys == {};
    StoredNothing(e.pendingResults, result);
    WokenNothing(e.waiters, e.reqEvents, result);
    hide Sent, Stored, Woken, Scheduler.PopAll;
    assert e.streamQueues - {} == e.streamQueues;
  }

  lemma PopNothing(s: Scheduler)
    ensures s.PopAll({}) == s
  {
    assert s.PopAll({}).states == s.states && s.PopAll({}).activeIds == s.activeIds;
  }

  lemma StoredNothing(results: map<SchedReqId, DiffusionOutput>, result: SchedReqId -> DiffusionOutput)
    ensures Stored(results, {}, result) == results
  {
  }

  lemma WokenNothing(waiters: map<Ticket, Waiter>, events: map<SchedReqId, Ticket>,
                     result: SchedReqId -> DiffusionOutput)
    ensures Woken(waiters, events, {}, result) == waiters
  {
  }

  lemma PopOneMore(s: Scheduler, done: set<SchedReqId>, id: SchedReqId)
    ensures s.PopAll(done + {id}) == s.PopAll(done).PopAll({id})
  {
    var one := s.PopAll(done).PopAll({id});
    var all := s.PopAll(done + {id});
    assert one.states == all.states;
    forall r
      ensures r in one.activeIds <==> r in all.activeIds
    {
      if r in s.activeIds && s.activeIds[r] == id && id !in done {
        assert r in s.PopAll(done).activeIds;
        assert id in s.PopAll(done).states <==> id in s.states;
      }
    }
    assert one.activeIds == all.activeIds;
  }

  lemma StoredOneMore(results: map<SchedReqId, DiffusionOutput>, ids: set<SchedReqId>,
                      result: SchedReqId -> DiffusionOutput, id: SchedReqId)
    ensures Stored(results, ids + {id}, result) == Stored(results, ids, result)[id := result(id)]
  {
  }

  lemma WokenOneMore(waiters: map<Ticket, Waiter>, events: map<SchedReqId, Ticket>, ids: set<SchedReqId>,
                     result: SchedReqId -> DiffusionOutput, id: SchedReqId)
    requires EventsKeyed(events, waiters)
    ensures var before := Woken(waiters, events, ids, result);
            && EventsKeyed(events, before)
            && Woken(waiters, events, ids + {id}, result)
               == if id in events then WokenOne(before, events[id], result(id)) else before
  {
  }

  lemma ClosedOneMore(streams: map<Ticket, Stream>, queues: map<SchedReqId, Ticket>, ids: set<SchedReqId>,
                      result: SchedReqId -> DiffusionOutput, id: SchedReqId)
    requires QueuesKeyed(queues, streams) && id !in ids && id in queues
    ensures var before := Sent(streams, queues, Closing(ids, result));
            && QueuesKeyed(queues, before)
            && Sent(streams, queues, Closing(ids + {id}, result)) == SentOne(before, queues[id], Item(result(id), true))
  {
    var all := Closing(ids + {id}, result);
    SentOneMore(streams, queues, all, ids, id);
    SentSame(streams, queues, Within(all, ids), Closing(ids, result));
    SentSame(streams, queues, Within(all, ids + {id}), all);
  }

  lemma DeliverKeepsTables(e: Engine, ids: set<SchedReqId>, result: SchedReqId -> DiffusionOutput,
                           finals: set<SchedReqId>)
    requires QueuesKeyed(e.streamQueues, e.streams) && EventsKeyed(e.reqEvents, e.waiters)
    ensures var d := Deliver(e, ids, result, finals);
            QueuesKeyed(d.streamQueues, d.streams) && EventsKeyed(d.reqEvents, d.waiters)
  {
  }

  lemma DeliverLeavesOthers(e: Engine, done: set<SchedReqId>, result: SchedReqId -> DiffusionOutput,
                            finals: set<SchedReqId>, id: SchedReqId)
    requires id !in done
    ensures var d := Deliver(e, done, result, finals);
            && (id in d.scheduler.states <==> id in e.scheduler.states)
            && (id in e.scheduler.states ==> d.scheduler.states[id] == e.scheduler.states[id])
            && (id in d.pendingResults <==> id in e.pendingResults)
  {
  }

  lemma SelectionDependsOnState(s: Scheduler, t: Scheduler, id: SchedReqId, output: RunnerOutput)
    requires id in s.states <==> id in t.states
    requires id in s.states ==> s.states[id] == t.states[id]
    ensures SelectResult(s, id, output) == SelectResult(t, id, output)
  {
  }

  lemma AbortableNothing(e: Engine)
    ensures Abortable(e, {}) == {}
  {
  }

  lemma AbortableOneMore(e: Engine, seen: set<SchedReqId>, id: SchedReqId)
    requires id !in seen
    ensures id !in Abortable(e, seen)
    ensures Abortable(e, seen + {id}) == if id !in e.pendingResults && id in e.scheduler.states
                                         then Abortable(e, seen) + {id} else Abortable(e, seen)
  {
  }

  lemma WakeNone(pending: map<SchedReqId, DiffusionOutput>, events: map<SchedReqId, Ticket>,
                 waiters: map<Ticket, Waiter>, stored: map<SchedReqId, DiffusionOutput>)
    ensures Woken(waiters, events, events.Keys - events.Keys, Taking(stored)) == waiters
    ensures Stored(pending, events.Keys - events.Keys - pending.Keys, ENGINE_DEATH) == pending
  {
  }

  lemma WakeOneMore(pending: map<SchedReqId, DiffusionOutput>, events: map<SchedReqId, Ticket>,
                    waiters: map<Ticket, Waiter>, todo: set<SchedReqId>, id: SchedReqId)
    requires id in todo && todo <= events.Keys && EventsKeyed(events, waiters)
    ensures var stored := Stored(pending, events.Keys - pending.Keys, ENGINE_DEATH);
            var before := Woken(waiters, events, events.Keys - todo, Taking(stored));
            && events[id] in before && id in stored
            && stored[id] == (if id in pending then pending[id] else ENGINE_DIED)
            && Woken(waiters, events, events.Keys - (todo - {id}), Taking(stored))
               == WokenOne(before, events[id], stored[id])
    ensures var stored := Stored(pending, events.Keys - todo - pending.Keys, ENGINE_DEATH);
            && (id in stored <==> id in pending) && (id in stored ==> stored[id] == pending[id])
            && Stored(pending, events.Keys - (todo - {id}) - pending.Keys, ENGINE_DEATH)
               == if id in stored then stored else stored[id := ENGINE_DIED]
  {
    var woken := events.Keys - todo;
    var stored := Stored(pending, events.Keys - pending.Keys, ENGINE_DEATH);
    assert events.Keys - (todo - {id}) == woken + {id};
    WokenOneMore(waiters, events, woken, Taking(stored), id);
    if id in pending {
      assert woken + {id} - pending.Keys == woken - pending.Keys;
    } else {
      assert woken + {id} - pending.Keys == (woken - pending.Keys) + {id};
      StoredOneMore(pending, woken - pending.Keys, ENGINE_DEATH, id);
    }
  }

  lemma DeliverOneMoreStream(e: Engine, done: set<SchedReqId>, result: SchedReqId -> DiffusionOutput,
                             finals: set<SchedReqId>, id: SchedReqId)
    requires id !in done && id in e.streamQueues && QueuesKeyed(e.streamQueues, e.streams)
    ensures var before := Sent(e.streams, e.streamQueues, Closing(done - finals, result));
            && e.streamQueues[id] in before
            && Sent(e.streams, e.streamQueues, Closing((done + {id}) - finals, result))
               == if id in finals then before else SentOne(before, e.streamQueues[id], Item(result(id), true))
  {
    SentKeepsKeyed(e.streamQueues, e.streams, Closing(done - finals, result));
    if id in finals {
      assert (done + {id}) - finals == done - finals;
    } else {
      assert (done + {id}) - finals == (done - finals) + {id};
      ClosedOneMore(e.streams, e.streamQueues, done - finals, result, id);
    }
  }

  lemma DeliverOneMoreElse(e: Engine, done: set<SchedReqId>, result: SchedReqId -> DiffusionOutput,
                           finals: set<SchedReqId>, id: SchedReqId)
    requires id !in e.streamQueues
    ensures Sent(e.streams, e.streamQueues, Closing((done + {id}) - finals, result))
            == Sent(e.streams, e.streamQueues, Closing(done - finals, result))
  {
    SentSame(e.streams, e.streamQueues, Closing((done + {id}) - finals, result), Closing(done - finals, result));
  }

  lemma QueuesOneLess(queues: map<SchedReqId, Ticket>, done: set<SchedReqId>, id: SchedReqId)
    ensures queues - (done + {id}) == if id in queues then queues - done - {id} else queues - done
    ensures id !in done ==> (id in queues <==> id in queues - done)
    ensures id !in done && id in queues ==> (queues - done)[id] == queues[id]
  {
  }

  /** Delivering to a set is delivering to its members one by one, in any order. */
  lemma DeliverOneMore(e: Engine, done: set<SchedReqId>, result: SchedReqId -> DiffusionOutput,
                       finals: set<SchedReqId>, id: SchedReqId)
    requires id !in done && QueuesKeyed(e.streamQueues, e.streams) && EventsKeyed(e.reqEvents, e.waiters)
    ensures var d := Deliver(e, done, result, finals);
            && QueuesKeyed(d.streamQueues, d.streams) && EventsKeyed(d.reqEvents, d.waiters)
            && Deliver(e, done + {id}, result, finals) == HandOverOne(d, id, result(id), id in finals)
  {
    DeliverKeepsTables(e, done, result, finals);
    PopOneMore(e.scheduler, done, id);
    QueuesOneLess(e.streamQueues, done, id);
    hide Sent, Stored, Woken, QueuesKeyed, EventsKeyed, Scheduler.PopAll;
    var storing := done - e.streamQueues.Keys;
    if id in e.streamQueues {
      assert (done + {id}) - e.streamQueues.Keys == storing;
      DeliverOneMoreStream(e, done, result, finals, id);
    } else {
      assert (done + {id}) - e.streamQueues.Keys == storing + {id};
      DeliverOneMoreElse(e, done, result, finals, id);
      StoredOneMore(e.pendingResults, storing, result, id);
      WokenOneMore(e.waiters, e.reqEvents, storing, result, id);
    }
  }
}
