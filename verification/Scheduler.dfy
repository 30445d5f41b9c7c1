/**
 The queue and state bookkeeping shared by the diffusion schedulers
 (vllm_omni/diffusion/sched), as a value that the engine's driver replaces
 inside its critical sections.  The batching policy (first-in-first-out or
 duration buckets) only decides which waiting requests are pulled into a batch
 and which running ones yield; those two choices are parameters.
 */
module DiffusionScheduler {
  import opened Common

  type SchedReqId = string
  type RequestId = string

  datatype Status = Waiting | Running | Preempted | Completed | Aborted | Errored {
    predicate IsFinished() {
      Completed? || Aborted? || Errored?
    }
  }

  datatype RequestState = RequestState(requestIds: seq<RequestId>, status: Status)

  datatype DiffusionOutput = DiffusionOutput(
    payload: int, error: Option<string>, aborted: bool, abortMessage: Option<string>)

  function ErrorOutput(message: string): DiffusionOutput {
    DiffusionOutput(0, Some(message), false, None)
  }

  function AbortOutput(requestId: RequestId): DiffusionOutput {
    DiffusionOutput(0, None, true, Some("Request " + requestId + " aborted."))
  }

  datatype RunnerOutput = RunnerOutput(
    reqId: SchedReqId,
    stepIndex: Option<int>,
    finished: bool,
    result: Option<DiffusionOutput>,
    perRequestResults: Option<map<SchedReqId, DiffusionOutput>>,
    perRequestFinished: map<SchedReqId, bool>,
    perRequestStepIndices: map<SchedReqId, int>)
  {
    /** `per_request_finished.get(id, finished)` */
    predicate FinishedFlag(id: SchedReqId) {
      if id in perRequestFinished then perRequestFinished[id] else finished
    }

    /** `(per_request_results or {}).get(id, result)` */
    function ResultFor(id: SchedReqId): Option<DiffusionOutput> {
      if perRequestResults.Some? && id in perRequestResults.value
      then Some(perRequestResults.value[id]) else result
    }

    /** The executor only reports on requests of the batch it was given. */
    ghost predicate IsAbout(batch: seq<SchedReqId>) {
      match perRequestResults
      case Some(results) => forall id :: id in results ==> id in batch
      case None => result.Some? ==> reqId in batch
    }
  }

  datatype Kind = RequestKind | StepKind

  datatype Batch = Batch(scheduled: seq<SchedReqId>, finished: set<SchedReqId>)

  datatype Scheduler = Scheduler(
    kind: Kind,
    states: map<SchedReqId, RequestState>,
    activeIds: map<RequestId, SchedReqId>,
    waiting: seq<SchedReqId>,
    running: seq<SchedReqId>,
    finished: set<SchedReqId>,
    maxRunning: nat)
  {
    predicate HasRequests() {
      waiting != [] || running != []
    }

    predicate HasFinished(id: SchedReqId) {
      id in states && states[id].status.IsFinished()
    }

    /** What every scheduler operation keeps. */
    ghost predicate Valid() {
      && 1 <= maxRunning
      && NoDuplicates(waiting) && NoDuplicates(running)
      && (forall id :: id in waiting ==> id !in running)
      && (forall id :: id in waiting ==> id in states && states[id].status in {Waiting, Preempted})
      && (forall id :: id in running ==> id in states && states[id].status == Running)
      && (forall r :: r in activeIds ==> activeIds[r] in states && r in states[activeIds[r]].requestIds)
    }

    /** Nothing unfinished is out of the queues. */
    ghost predicate AllQueued() {
      forall id :: id in states && !states[id].status.IsFinished() ==> id in waiting || id in running
    }

    /** Registering the public ids of a request that enters the queue. */
    function AddRequest(id: SchedReqId, requestIds: seq<RequestId>): Scheduler {
      this.(states := states[id := RequestState(requestIds, Waiting)],
            activeIds := activeIds + map r | r in requestIds :: id,
            waiting := waiting + [id])
    }

    /** `add_request` as a whole, and whether it raised: the state is entered before the
        public ids are checked, the queue only after. */
    function Submit(id: SchedReqId, requestIds: seq<RequestId>): (Scheduler, bool) {
      var (table, raised) := Registered(activeIds, id, requestIds);
      if raised then (this.(states := states[id := RequestState(requestIds, Waiting)], activeIds := table), true)
      else (AddRequest(id, requestIds), false)
    }

    /** The requests of `statuses` that `_finish_requests` really ends. */
    function Ending(statuses: map<SchedReqId, Status>): set<SchedReqId> {
      set id | id in statuses && id in states && !states[id].status.IsFinished()
    }

    function FinishRequests(statuses: map<SchedReqId, Status>): Scheduler {
      var ending := Ending(statuses);
      this.(states := map id | id in states ::
                        if id in ending then states[id].(status := statuses[id]) else states[id],
            waiting := Without(waiting, ending),
            running := Without(running, ending),
            finished := finished + ending)
    }

    /** What the batching policy may select: waiting requests, at least one when
        nothing runs, within the capacity. */
    ghost predicate MaySelect(selected: seq<SchedReqId>) {
      && NoDuplicates(selected)
      && (forall id :: id in selected ==> id in waiting)
      && (selected != [] ==> |running| + |selected| <= maxRunning)
      && (running == [] && waiting != [] ==> selected != [])
    }

    function Schedule(selected: seq<SchedReqId>): (Scheduler, Batch)
      requires forall id :: id in selected ==> id in states
      requires forall id :: id in running ==> id in states
    {
      var chosen := set id | id in selected;
      var starting := Without(selected, set id | id in selected && states[id].status != Waiting);
      var continued := Without(selected, set id | id in selected && states[id].status == Waiting);
      (this.(states := map id | id in states ::
                         if id in chosen then states[id].(status := Running) else states[id],
             waiting := Without(waiting, chosen),
             running := running + selected,
             finished := {}),
       Batch(starting + running + continued, finished))
    }

    /** The terminal status that `update_from_output` gives one scheduled, still
        unfinished request, if it gives one. */
    function Verdict(output: RunnerOutput, id: SchedReqId): Option<Status> {
      var result := output.ResultFor(id);
      match kind
      case RequestKind =>
        if result.None? then Some(Errored)
        else if result.value.error.Some? && result.value.error.value != "" then Some(Errored)
        else Some(Completed)
      case StepKind =>
        if result.Some? && result.value.error.Some? then Some(Errored)
        else if id !in output.perRequestStepIndices && output.stepIndex.None? then Some(Errored)
        else if output.FinishedFlag(id) then Some(Completed)
        else None
    }

    function Verdicts(batch: Batch, output: RunnerOutput): map<SchedReqId, Status> {
      map id | id in batch.scheduled && id in states && !states[id].status.IsFinished()
             && Verdict(output, id).Some?
        :: Verdict(output, id).value
    }

    /** What `update_from_output` returns: the requests of the batch that were ended
        since it was scheduled, and those that end now. */
    function FinishedBy(batch: Batch, output: RunnerOutput): set<SchedReqId> {
      (set id | id in batch.scheduled && id in finished) + Ending(Verdicts(batch, output))
    }

    /** Which running requests the step scheduler may send back to the queue. */
    ghost predicate MayYield(yielded: seq<SchedReqId>) {
      && NoDuplicates(yielded)
      && (forall id :: id in yielded ==> id in running)
      && (kind.RequestKind? ==> yielded == [])
    }

    function Yield(yielded: seq<SchedReqId>): Scheduler {
      this.(states := map id | id in states ::
                        if id in yielded then states[id].(status := Preempted) else states[id],
            running := Without(running, set id | id in yielded),
            waiting := waiting + yielded)
    }

    function UpdateFromOutput(batch: Batch, output: RunnerOutput, yielded: seq<SchedReqId>): Scheduler {
      FinishRequests(Verdicts(batch, output)).Yield(yielded)
    }

    /** `pop_request_state` for every id of a set. */
    function PopAll(ids: set<SchedReqId>): Scheduler {
      this.(states := map id | id in states && id !in ids :: states[id],
            activeIds := map r | r in activeIds
                             && !(activeIds[r] in ids && activeIds[r] in states && r in states[activeIds[r]].requestIds)
                           :: activeIds[r])
    }
  }

  /** `_register_request_ids`: the table it leaves and whether it raised. */
  function Registered(table: map<RequestId, SchedReqId>, id: SchedReqId, requestIds: seq<RequestId>)
    : (map<RequestId, SchedReqId>, bool)
    decreases |requestIds|
  {
    if requestIds == [] then (table, false)
    else if requestIds[0] in table && table[requestIds[0]] != id then (table, true)
    else Registered(table[requestIds[0] := id], id, requestIds[1..])
  }

  lemma {:induction false} RegisteredExactly(table: map<RequestId, SchedReqId>, id: SchedReqId,
                                             requestIds: seq<RequestId>)
    ensures Registered(table, id, requestIds).1 <==> exists r :: r in requestIds && r in table && table[r] != id
    ensures !Registered(table, id, requestIds).1 ==>
              Registered(table, id, requestIds).0 == table + map r | r in requestIds :: id
    decreases |requestIds|
  {
    if requestIds != [] {
      var r0 := requestIds[0];
      assert requestIds == [r0] + requestIds[1..];
      if !(r0 in table && table[r0] != id) {
        RegisteredExactly(table[r0 := id], id, requestIds[1..]);
      }
    }
  }

  lemma {:induction false} RegisteredEntries(table: map<RequestId, SchedReqId>, id: SchedReqId,
                                             requestIds: seq<RequestId>)
    ensures var t := Registered(table, id, requestIds).0;
            forall r :: r in t ==> (r in table && t[r] == table[r]) || (t[r] == id && r in requestIds)
    decreases |requestIds|
  {
    if requestIds != [] {
      assert requestIds == [requestIds[0]] + requestIds[1..];
      if !(requestIds[0] in table && table[requestIds[0]] != id) {
        RegisteredEntries(table[requestIds[0] := id], id, requestIds[1..]);
      }
    }
  }

  /** The ids before the first one active for another request are registered either way, and
      nobody else's entry changes. */
  lemma {:induction false} RegisteredInOrder(table: map<RequestId, SchedReqId>, id: SchedReqId,
                                             requestIds: seq<RequestId>)
    ensures var t := Registered(table, id, requestIds).0;
            && (forall r :: r in table ==> r in t && t[r] == table[r])
            && (forall i :: 0 <= i < |requestIds| && FreeUpTo(table, id, requestIds, i) ==>
                  requestIds[i] in t && t[requestIds[i]] == id)
    decreases |requestIds|
  {
    if requestIds != [] && !(requestIds[0] in table && table[requestIds[0]] != id) {
      var next := table[requestIds[0] := id];
      RegisteredInOrder(next, id, requestIds[1..]);
      forall i | 0 <= i < |requestIds| && FreeUpTo(table, id, requestIds, i)
        ensures var t := Registered(table, id, requestIds).0; requestIds[i] in t && t[requestIds[i]] == id
      {
        if i > 0 {
          forall j | 0 <= j <= i - 1 ensures !(requestIds[1..][j] in next && next[requestIds[1..][j]] != id) {
            assert requestIds[1..][j] == requestIds[j + 1];
          }
          assert requestIds[1..][i - 1] == requestIds[i];
        }
      }
    }
  }

  /** None of the first ids is active for another request. */
  ghost predicate FreeUpTo(table: map<RequestId, SchedReqId>, id: SchedReqId, requestIds: seq<RequestId>, i: nat)
    requires i < |requestIds|
  {
    forall j :: 0 <= j <= i ==> !(requestIds[j] in table && table[requestIds[j]] != id)
  }

  /** What a submission leaves: a waiting state, all its public ids registered and the request
      at the end of the queue; if it raised, no place in the queue and only the ids registered
      that come before the first active one.  No other entry changes. */
  lemma SubmitEnters(s: Scheduler, id: SchedReqId, requestIds: seq<RequestId>)
    requires s.Valid() && id !in s.states
    ensures var (n, raised) := s.Submit(id, requestIds);
            && n.states == s.states[id := RequestState(requestIds, Waiting)]
            && n.running == s.running && n.finished == s.finished
            && n.waiting == (if raised then s.waiting else s.waiting + [id])
            && (forall r :: r in s.activeIds ==> r in n.activeIds && n.activeIds[r] == s.activeIds[r])
            && (forall r :: r in n.activeIds ==> r in s.activeIds || (r in requestIds && n.activeIds[r] == id))
            && (forall i :: 0 <= i < |requestIds| && FreeUpTo(s.activeIds, id, requestIds, i) ==>
                  requestIds[i] in n.activeIds && n.activeIds[requestIds[i]] == id)
  {
    SubmitIsCleanExactly(s, id, requestIds);
    RegisteredExactly(s.activeIds, id, requestIds);
    RegisteredEntries(s.activeIds, id, requestIds);
    RegisteredInOrder(s.activeIds, id, requestIds);
    hide Registered, Scheduler.Valid;
  }

  /** A submission raises exactly if one of its public ids is active.  If it does not, the
      request is queued; if it does, a state is left behind that waits but is in no queue.
      Either way the queues and tables stay consistent. */
  lemma SubmitIsCleanExactly(s: Scheduler, id: SchedReqId, requestIds: seq<RequestId>)
    requires s.Valid() && id !in s.states
    ensures s.Submit(id, requestIds).0.Valid()
    ensures s.Submit(id, requestIds).1 <==> exists r :: r in requestIds && r in s.activeIds
    ensures !s.Submit(id, requestIds).1 ==> s.Submit(id, requestIds).0 == s.AddRequest(id, requestIds)
    ensures s.AllQueued() ==> (s.Submit(id, requestIds).0.AllQueued() <==> !s.Submit(id, requestIds).1)
  {
    RegisteredExactly(s.activeIds, id, requestIds);
    assert forall r :: r in s.activeIds ==> s.activeIds[r] != id;
    var (t, raised) := s.Submit(id, requestIds);
    if raised {
      RegisteredEntries(s.activeIds, id, requestIds);
      assert id in t.states && id !in t.waiting && id !in t.running;
    } else {
      AddRequestKeepsValid(s, id, requestIds);
    }
  }

  lemma AddRequestKeepsValid(s: Scheduler, id: SchedReqId, requestIds: seq<RequestId>)
    requires s.Valid() && id !in s.states
    requires forall r :: r in requestIds ==> r !in s.activeIds
    ensures s.AddRequest(id, requestIds).Valid()
    ensures s.AllQueued() ==> s.AddRequest(id, requestIds).AllQueued()
  {
    var t := s.AddRequest(id, requestIds);
    assert forall x :: x in t.waiting <==> x in s.waiting || x == id;
  }

  lemma FinishRequestsKeepsValid(s: Scheduler, statuses: map<SchedReqId, Status>)
    requires s.Valid()
    requires forall id :: id in statuses ==> statuses[id].IsFinished()
    ensures s.FinishRequests(statuses).Valid()
    ensures s.AllQueued() ==> s.FinishRequests(statuses).AllQueued()
  {
  }

  lemma ScheduleKeepsValid(s: Scheduler, selected: seq<SchedReqId>)
    requires s.Valid() && s.MaySelect(selected)
    ensures s.Schedule(selected).0.Valid()
    ensures s.AllQueued() ==> s.Schedule(selected).0.AllQueued()
    ensures forall id :: id in s.Schedule(selected).1.scheduled <==> id in s.Schedule(selected).0.running
    ensures s.HasRequests() ==> s.Schedule(selected).1.scheduled != []
    ensures s.Schedule(selected).0.states.Keys == s.states.Keys && s.Schedule(selected).0.finished == {}
  {
    var (t, batch) := s.Schedule(selected);
    assert forall x :: x in t.running <==> x in s.running || x in selected;
    NoDuplicatesConcat(s.running, selected);
    assert forall x :: x in batch.scheduled <==> x in s.running || x in selected;
    if s.HasRequests() {
      if s.running != [] {
        assert s.running[0] in batch.scheduled;
      } else {
        assert selected[0] in batch.scheduled;
      }
    }
  }

  lemma YieldKeepsValid(s: Scheduler, yielded: seq<SchedReqId>)
    requires s.Valid() && s.MayYield(yielded)
    ensures s.Yield(yielded).Valid()
    ensures s.AllQueued() ==> s.Yield(yielded).AllQueued()
  {
    var t := s.Yield(yielded);
    NoDuplicatesConcat(s.waiting, yielded);
    assert forall x :: x in t.waiting <==> x in s.waiting || x in yielded;
  }

  lemma PopAllKeepsValid(s: Scheduler, ids: set<SchedReqId>)
    requires s.Valid()
    requires forall id :: id in ids ==> id !in s.waiting && id !in s.running
    ensures s.PopAll(ids).Valid()
    ensures s.AllQueued() ==> s.PopAll(ids).AllQueued()
  {
  }

  /** Over one update, the ids reported as finished are scheduled ones, and none of
      them is left in a queue. */
  lemma UpdateEndsWhatItReports(s: Scheduler, batch: Batch, output: RunnerOutput, yielded: seq<SchedReqId>)
    requires s.Valid()
    requires forall id :: id in batch.scheduled ==> id in s.states
    requires forall id :: id in batch.scheduled && s.HasFinished(id) ==> id in s.finished
    requires forall id :: id in batch.scheduled && id in s.finished ==> s.HasFinished(id)
    requires s.FinishRequests(s.Verdicts(batch, output)).MayYield(yielded)
    ensures s.UpdateFromOutput(batch, output, yielded).Valid()
    ensures s.AllQueued() ==> s.UpdateFromOutput(batch, output, yielded).AllQueued()
    ensures forall id :: id in s.FinishedBy(batch, output) <==>
                         id in batch.scheduled && s.UpdateFromOutput(batch, output, yielded).HasFinished(id)
    ensures s.UpdateFromOutput(batch, output, yielded).states.Keys == s.states.Keys
    ensures forall id :: s.HasFinished(id) ==>
                         s.UpdateFromOutput(batch, output, yielded).states[id] == s.states[id]
  {
    var verdicts := s.Verdicts(batch, output);
    var t := s.FinishRequests(verdicts);
    FinishRequestsKeepsValid(s, verdicts);
    YieldKeepsValid(t, yielded);
    YieldKeepsTerminal(t, yielded);
    FinishRequestsEnds(s, verdicts);
  }

  lemma FinishRequestsEnds(s: Scheduler, statuses: map<SchedReqId, Status>)
    requires forall id :: id in statuses ==> statuses[id].IsFinished()
    ensures s.FinishRequests(statuses).states.Keys == s.states.Keys
    ensures forall id :: s.FinishRequests(statuses).HasFinished(id) <==>
                         s.HasFinished(id) || id in s.Ending(statuses)
    ensures forall id :: s.HasFinished(id) ==> s.FinishRequests(statuses).states[id] == s.states[id]
  {
  }

  lemma YieldKeepsTerminal(s: Scheduler, yielded: seq<SchedReqId>)
    requires s.Valid() && s.MayYield(yielded)
    ensures s.Yield(yielded).states.Keys == s.states.Keys
    ensures forall id :: s.Yield(yielded).HasFinished(id) <==> s.HasFinished(id)
    ensures forall id :: s.HasFinished(id) ==> s.Yield(yielded).states[id] == s.states[id]
  {
  }

  // ---- What an output says of one request, read off its fields ----

  /** The result an output has for a request: its own entry, or else the common result. */
  ghost predicate ResultIs(output: RunnerOutput, id: SchedReqId, result: Option<DiffusionOutput>) {
    if output.perRequestResults.Some? && id in output.perRequestResults.value
    then result == Some(output.perRequestResults.value[id])
    else result == output.result
  }

  /** Its own flag, or else the common one. */
  ghost predicate SaysFinished(output: RunnerOutput, id: SchedReqId) {
    (id in output.perRequestFinished && output.perRequestFinished[id])
    || (id !in output.perRequestFinished && output.finished)
  }

  ghost predicate HasStepIndex(output: RunnerOutput, id: SchedReqId) {
    id in output.perRequestStepIndices || output.stepIndex.Some?
  }

  /** A scheduled request that has not ended, in an update about its batch. */
  ghost predicate Reported(s: Scheduler, batch: Batch, id: SchedReqId, output: RunnerOutput, yielded: seq<SchedReqId>) {
    && s.Valid() && id in batch.scheduled && id in s.states && !s.HasFinished(id) && id !in s.finished
    && s.FinishRequests(s.Verdicts(batch, output)).MayYield(yielded)
  }

  /** After the update the request has ended with this status and is reported. */
  ghost predicate EndsAs(s: Scheduler, batch: Batch, output: RunnerOutput, yielded: seq<SchedReqId>, id: SchedReqId,
                         status: Status) {
    var n := s.UpdateFromOutput(batch, output, yielded);
    id in n.states && n.states[id].status == status && id in s.FinishedBy(batch, output)
    && id !in n.running && id !in n.waiting
  }

  /** After the update the request goes on as it was, or was sent back to the queue. */
  ghost predicate GoesOn(s: Scheduler, batch: Batch, output: RunnerOutput, yielded: seq<SchedReqId>, id: SchedReqId) {
    var n := s.UpdateFromOutput(batch, output, yielded);
    && id in n.states && id !in s.FinishedBy(batch, output)
    && n.states[id] == (if id in yielded then s.states[id].(status := Preempted) else s.states[id])
    && (id in n.running <==> id in s.running && id !in yielded)
    && (id in n.waiting <==> id in s.waiting || id in yielded)
  }

  /** The step scheduler ends a scheduled request with an error exactly if its result has one
      or no step index came for it, and as completed exactly if else it is flagged finished;
      otherwise the request goes on. */
  lemma StepUpdateEndsExactly(s: Scheduler, batch: Batch, output: RunnerOutput, yielded: seq<SchedReqId>,
                              id: SchedReqId, result: Option<DiffusionOutput>)
    requires Reported(s, batch, id, output, yielded) && ResultIs(output, id, result) && s.kind.StepKind?
    ensures var failed := (result.Some? && result.value.error.Some?) || !HasStepIndex(output, id);
            && (failed ==> EndsAs(s, batch, output, yielded, id, Errored))
            && (!failed && SaysFinished(output, id) ==> EndsAs(s, batch, output, yielded, id, Completed))
            && (!failed && !SaysFinished(output, id) ==> GoesOn(s, batch, output, yielded, id))
  {
    UpdateFollowsVerdict(s, batch, output, yielded, id);
    hide EndsAs, GoesOn;
  }

  /** The request scheduler ends every scheduled request: with an error exactly if it has no
      result or one with a non-empty error. */
  lemma RequestUpdateEndsExactly(s: Scheduler, batch: Batch, output: RunnerOutput, yielded: seq<SchedReqId>,
                                 id: SchedReqId, result: Option<DiffusionOutput>)
    requires Reported(s, batch, id, output, yielded) && ResultIs(output, id, result) && s.kind.RequestKind?
    ensures var failed := result.None? || (result.value.error.Some? && result.value.error.value != "");
            EndsAs(s, batch, output, yielded, id, if failed then Errored else Completed)
  {
    UpdateFollowsVerdict(s, batch, output, yielded, id);
    hide EndsAs, GoesOn;
  }

  lemma UpdateFollowsVerdict(s: Scheduler, batch: Batch, output: RunnerOutput, yielded: seq<SchedReqId>, id: SchedReqId)
    requires Reported(s, batch, id, output, yielded)
    ensures match s.Verdict(output, id)
            case Some(status) => EndsAs(s, batch, output, yielded, id, status)
            case None => GoesOn(s, batch, output, yielded, id)
  {
    var verdicts := s.Verdicts(batch, output);
    assert if s.Verdict(output, id).Some? then id in verdicts && verdicts[id] == s.Verdict(output, id).value
           else id !in verdicts;
    var t := s.FinishRequests(verdicts);
    FinishRequestsKeepsValid(s, verdicts);
    FinishedOne(s, verdicts, id);
    YieldedOne(t, yielded, id);
    hide Scheduler.Verdict, Scheduler.Verdicts, Scheduler.FinishRequests, Scheduler.Yield, Scheduler.Valid;
  }

  lemma FinishedOne(s: Scheduler, statuses: map<SchedReqId, Status>, id: SchedReqId)
    requires id in s.states && !s.HasFinished(id)
    ensures var t := s.FinishRequests(statuses);
            && id in t.states && (id in s.Ending(statuses) <==> id in statuses)
            && t.states[id] == (if id in statuses then s.states[id].(status := statuses[id]) else s.states[id])
            && (id in t.running <==> id in s.running && id !in statuses)
            && (id in t.waiting <==> id in s.waiting && id !in statuses)
  {
  }

  lemma YieldedOne(s: Scheduler, yielded: seq<SchedReqId>, id: SchedReqId)
    requires s.MayYield(yielded) && id in s.states
    ensures var t := s.Yield(yielded);
            && id in t.states && (id in yielded ==> id in s.running)
            && t.states[id] == (if id in yielded then s.states[id].(status := Preempted) else s.states[id])
            && (id in t.running <==> id in s.running && id !in yielded)
            && (id in t.waiting <==> id in s.waiting || id in yielded)
  {
  }
}
