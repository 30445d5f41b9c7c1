/**
 The orchestrator of vllm_omni/engine/orchestrator.py as a class over its companion
 tracker.  Every handler is proved to have the effect OrchestratorState gives it.
 */
module OrchestratorHandlers {
  import opened Common
  import opened CfgCompanionTracking
  import opened OrchestratorState
  import opened OrchestratorSafety

  /** One raw stage output with a KV-ready signal, and whether forwarding it would find no
      valid diffusion inputs. */
  datatype RawOutput = RawOutput(req: Id, kvReady: bool, outputs: EngineOutputs, noInputs: bool)

  class OrchestratorLoop {
    const config: Config
    const cfgTracker: CfgCompanionTracker
    var requestStates: map<Id, RequestState>
    var messages: seq<Message>
    ghost var handed: seq<Handover>
    ghost var used: set<Id>

    constructor (config: Config)
      ensures this.config == config && fresh(cfgTracker)
      ensures Initial(State())
    {
      this.config := config;
      cfgTracker := new CfgCompanionTracker();
      requestStates, messages, handed, used := map[], [], [], {};
    }

    ghost function State(): Orchestrator
      reads this, cfgTracker
    {
      Orchestrator(requestStates, cfgTracker.State(), messages, handed, used)
    }

    method Put(message: Message)
      modifies this`messages
      ensures State() == old(State()).Send(message)
    {
      messages := messages + [message];
    }

    method CloseRequest(req: Id)
      modifies this`requestStates, cfgTracker
      ensures State() == old(State()).Close(req)
    {
      var _ := cfgTracker.Cleanup(req);
      requestStates := requestStates - {req};
    }

    method ForwardToNextStage(req: Id, stage: nat, noInputs: bool)
      requires req in requestStates
      modifies this`requestStates, this`messages, this`handed, cfgTracker
      ensures State() == Forward(old(State()), req, stage, noInputs)
    {
      if noInputs {
        Put(Output(req, stage + 1, true));
        CloseRequest(req);
      } else {
        handed := handed + [Handover(req, stage + 1)];
        var state := requestStates[req];
        requestStates := requestStates[req := state.(submitted := state.submitted + {stage + 1})];
      }
    }

    method HandleCfgCompanionReady(req: Id, noInputs: bool)
      requires cfgTracker.State().Valid()
      modifies this`requestStates, this`messages, this`handed, cfgTracker
      ensures State() == CompanionReady(old(State()), req, noInputs)
    {
      hide Tracker.Valid, Tracker.MarkDone;
      var released := cfgTracker.OnCompanionCompleted(req);
      if released.None? { return; }
      var parent := released.value;
      var deferred := cfgTracker.PopPendingParent(parent);
      if deferred.None? { return; }
      var stage := deferred.value.stage;
      if parent in requestStates && stage + 1 !in requestStates[parent].submitted {
        ForwardToNextStage(parent, stage, noInputs);
      }
    }

    method DeferOrForwardRequest(req: Id, stage: nat, outputs: EngineOutputs, noInputs: bool)
      requires req in requestStates
      modifies this`requestStates, this`messages, this`handed, cfgTracker
      ensures State() == DeferOrForward(old(State()), req, stage, outputs, noInputs)
    {
      if req in cfgTracker.companionMap && !cfgTracker.State().AllDone(req) {
        cfgTracker.DeferParent(req, outputs, stage);
      } else {
        ForwardToNextStage(req, stage, noInputs);
      }
    }

    /** The loop over one poll's raw outputs is the fold of its single steps. */
    method HandleKvReadyRawOutputs(stage: nat, raws: seq<RawOutput>)
      requires config.WellFormed() && Inv(config, State())
      requires forall i :: 0 <= i < |raws| ==> Handover(raws[i].req, stage) in handed
      modifies this`requestStates, this`messages, this`handed, cfgTracker
      ensures State() == KvReadyAll(config, old(State()), stage, raws)
      ensures Inv(config, State())
    {
      hide Inv;
      ghost var before := State();
      for i := 0 to |raws|
        invariant Inv(config, State())
        invariant before.handed <= handed
        invariant KvReadyAll(config, before, stage, raws) == KvReadyAll(config, State(), stage, raws[i..])
      {
        var raw := raws[i];
        assert raws[i..][0] == raw && raws[i..][1..] == raws[i + 1..];
        if raw.kvReady {
          KvStep(config, State(), stage, raw);
          HandleKvReady(stage, raw);
        }
      }
    }

    method HandleKvReady(stage: nat, raw: RawOutput)
      requires cfgTracker.State().Valid()
      modifies this`requestStates, this`messages, this`handed, cfgTracker
      ensures State() == KvReady(config, old(State()), stage, raw.req, raw.outputs, raw.noInputs)
    {
      if config.asyncChunk || raw.req !in requestStates { return; }
      if raw.req in cfgTracker.companionIds {
        HandleCfgCompanionReady(raw.req, raw.noInputs);
        return;
      }
      if stage >= requestStates[raw.req].finalStage { return; }
      if stage + 1 in requestStates[raw.req].submitted { return; }
      DeferOrForwardRequest(raw.req, stage, raw.outputs, raw.noInputs);
    }

    method RouteOutput(stage: nat, req: Id, finished: bool, outputs: EngineOutputs, noInputs: bool)
      requires config.WellFormed() && stage < config.NumStages()
      requires cfgTracker.State().Valid() && req in requestStates
      modifies this`requestStates, this`messages, this`handed, cfgTracker
      ensures State() == Route(config, old(State()), stage, req, finished, outputs, noInputs)
    {
      if finished && req in cfgTracker.companionIds {
        HandleCfgCompanionReady(req, noInputs);
        requestStates := requestStates - {req};
        return;
      }
      var state := requestStates[req];
      if config.finalOutput[stage] {
        Put(Output(req, stage, finished && stage == state.finalStage));
      } else if finished || config.isDiffusion[stage] {
        Put(StageMetrics(req, stage));
      }
      if finished && stage < state.finalStage && !config.asyncChunk && stage + 1 !in state.submitted {
        DeferOrForwardRequest(req, stage, outputs, noInputs);
      }
      if finished && stage == state.finalStage {
        CloseRequest(req);
      }
    }

    method HandleAddRequest(req: Id, finalStage: nat, hasPromptTokens: bool)
      modifies this`requestStates, this`handed, this`used
      ensures State() == AddRequest(config, old(State()), req, finalStage, hasPromptTokens)
    {
      used := used + {req};
      handed := handed + [Handover(req, 0)];
      requestStates := requestStates[req := RequestState(finalStage, {0})];
      if config.asyncChunk && finalStage > 0 && hasPromptTokens {
        PrewarmAsyncChunkStages(req, finalStage);
      }
    }

    method PrewarmAsyncChunkStages(req: Id, finalStage: nat)
      requires req in requestStates && requestStates[req] == RequestState(finalStage, {0})
      modifies this`requestStates, this`handed
      ensures requestStates == old(requestStates)[req := RequestState(finalStage, UpTo(finalStage))]
      ensures handed == old(handed) + Prewarmed(req, finalStage, 1)
    {
      for next := 1 to finalStage + 1
        invariant requestStates == old(requestStates)[req := RequestState(finalStage, UpTo(next - 1))]
        invariant old(handed) + Prewarmed(req, finalStage, 1) == handed + Prewarmed(req, finalStage, next)
      {
        handed := handed + [Handover(req, next)];
        var state := requestStates[req];
        requestStates := requestStates[req := state.(submitted := state.submitted + {next})];
      }
    }

    method HandleAddCompanion(parent: Id, role: Role, companion: Id)
      modifies this`requestStates, this`handed, this`used, cfgTracker
      ensures State() == AddCompanion(old(State()), parent, role, companion)
    {
      cfgTracker.RegisterCompanionRequest(parent, role, companion);
      requestStates := requestStates[companion := RequestState(0, {0})];
      handed := handed + [Handover(companion, 0)];
      used := used + {companion};
    }

    method HandleAbort(requestIds: seq<Id>)
      requires cfgTracker.State().Valid()
      modifies this`requestStates, cfgTracker
      ensures State() == Abort(old(State()), requestIds)
    {
      ghost var before := State();
      var all := cfgTracker.AbortParents(requestIds);
      PopRequests(all);
      ghost var parents := before.tracker.ParentsAmong(requestIds);
      forall id ensures id in all <==> id in requestIds || id in before.tracker.CompanionsOfAll(parents) {
        assert all == requestIds + all[|requestIds|..];
      }
      assert requestStates == before.requests - (set id | id in requestIds) - before.tracker.CompanionsOfAll(parents);
    }

    method PopRequests(ids: seq<Id>)
      modifies this`requestStates
      ensures requestStates == old(requestStates) - (set id | id in ids)
    {
      for i := 0 to |ids|
        invariant requestStates == old(requestStates) - (set id | id in ids[..i])
      {
        requestStates := requestStates - {ids[i]};
        assert ids[..i + 1] == ids[..i] + [ids[i]];
      }
      assert ids[..|ids|] == ids;
    }

    /** The `EngineDeadError` branch of the polling loop. */
    method NotifyDeadStage(stage: nat) returns (ghost sent: seq<Message>)
      modifies this`requestStates, this`messages
      ensures LoopNotifies(old(State()), State(), stage, sent)
    {
      ghost var requests, log := requestStates, messages;
      ghost var targets := SubmittedTo(State(), stage);
      sent := [];
      ghost var told: set<Id> := {};
      var todo := requestStates.Keys;
      while todo != {}
        invariant todo <= requests.Keys && told == targets - todo
        invariant requestStates == requests - told
        invariant messages == log + sent
        invariant OneErrorEach(sent, told, stage)
        decreases |todo|
      {
        hide OneErrorEach;
        var req :| req in todo;
        todo := todo - {req};
        if stage in requestStates[req].submitted {
          assert req in targets;
          hide SubmittedTo;
          OneErrorMore(sent, told, stage, req);
          ConcatAssociates(log, sent, [FatalError(req, stage)]);
          MinusTwice(requests, told, req);
          sent := sent + [FatalError(req, stage)];
          messages := messages + [FatalError(req, stage)];
          told := told + {req};
          requestStates := requestStates - {req};
        }
      }
      assert told == targets;
    }

    /** `_drain_pending_requests_on_fatal` over the ids of the add_request messages queued. */
    method DrainPendingRequestsOnFatal(queued: seq<Id>, stage: nat) returns (ghost rest: seq<Message>)
      modifies this`requestStates, this`messages
      ensures DrainNotifies(old(State()), State(), queued, stage, rest)
    {
      var notified := DrainQueue(queued, stage);
      rest := NotifyRemaining(notified, stage);
    }

    method DrainQueue(queued: seq<Id>, stage: nat) returns (notified: set<Id>)
      modifies this`messages
      ensures notified == set r | r in queued
      ensures messages == old(messages) + QueuedErrors(queued, stage)
    {
      notified := {};
      for i := 0 to |queued|
        invariant notified == set r | r in queued[..i]
        invariant messages + QueuedErrors(queued[i..], stage) == old(messages) + QueuedErrors(queued, stage)
      {
        assert queued[i..][0] == queued[i] && queued[i..][1..] == queued[i + 1..];
        assert queued[..i + 1] == queued[..i] + [queued[i]];
        messages := messages + [FatalError(queued[i], stage)];
        notified := notified + {queued[i]};
      }
      assert queued[..|queued|] == queued;
    }

    method NotifyRemaining(notified: set<Id>, stage: nat) returns (ghost rest: seq<Message>)
      modifies this`requestStates, this`messages
      ensures requestStates == map[] && messages == old(messages) + rest
      ensures OneErrorEach(rest, old(requestStates).Keys - notified, stage)
    {
      ghost var log, targets := messages, requestStates.Keys - notified;
      rest := [];
      ghost var told: set<Id> := {};
      while requestStates.Keys != {}
        invariant told == targets - requestStates.Keys && requestStates.Keys - notified <= targets
        invariant messages == log + rest
        invariant OneErrorEach(rest, told, stage)
        decreases |requestStates.Keys|
      {
        hide OneErrorEach;
        var req :| req in requestStates.Keys;
        if req !in notified {
          OneErrorMore(rest, told, stage, req);
          ConcatAssociates(log, rest, [FatalError(req, stage)]);
          rest := rest + [FatalError(req, stage)];
          told := told + {req};
          messages := messages + [FatalError(req, stage)];
        }
        PopShrinks(requestStates, req);
        requestStates := requestStates - {req};
      }
      assert told == targets;
    }
  }

  lemma PopShrinks(requests: map<Id, RequestState>, req: Id)
    requires req in requests
    ensures |(requests - {req}).Keys| < |requests.Keys|
  {
    assert (requests - {req}).Keys == requests.Keys - {req};
  }

  lemma MinusTwice<K, V>(m: map<K, V>, gone: set<K>, k: K)
    ensures m - gone - {k} == m - (gone + {k})
  {
  }

  function KvReadyAll(c: Config, o: Orchestrator, stage: nat, raws: seq<RawOutput>): Orchestrator
    decreases |raws|
  {
    if raws == [] then o
    else
      var raw := raws[0];
      KvReadyAll(c, if raw.kvReady then KvReady(c, o, stage, raw.req, raw.outputs, raw.noInputs) else o,
                 stage, raws[1..])
  }

  lemma KvStep(c: Config, o: Orchestrator, stage: nat, raw: RawOutput)
    requires c.WellFormed() && Inv(c, o) && Handover(raw.req, stage) in o.handed
    ensures o.tracker.Valid()
    ensures var n := KvReady(c, o, stage, raw.req, raw.outputs, raw.noInputs);
            Inv(c, n) && o.handed <= n.handed
  {
    StepKeepsInv(c, o, DoKvReady(stage, raw.req, raw.outputs, raw.noInputs));
  }

  /** The steps of one poll: one for each raw output that carries a KV-ready signal. */
  ghost function Signals(stage: nat, raws: seq<RawOutput>): seq<Step> {
    if raws == [] then []
    else
      var raw := raws[0];
      (if raw.kvReady then [DoKvReady(stage, raw.req, raw.outputs, raw.noInputs)] else []) + Signals(stage, raws[1..])
  }

  /** The outputs of one poll are taken one after the other, those without a signal left out. */
  lemma {:induction false} PollIsRun(c: Config, o: Orchestrator, stage: nat, raws: seq<RawOutput>)
    requires c.WellFormed() && Inv(c, o) && forall i :: 0 <= i < |raws| ==> Handover(raws[i].req, stage) in o.handed
    ensures Runs(c, o, Signals(stage, raws), KvReadyAll(c, o, stage, raws))
    decreases |raws|
  {
    if raws != [] {
      var raw := raws[0];
      if raw.kvReady {
        KvStep(c, o, stage, raw);
        var step := DoKvReady(stage, raw.req, raw.outputs, raw.noInputs);
        assert ([step] + Signals(stage, raws[1..]))[1..] == Signals(stage, raws[1..]);
        hide Inv;
        PollIsRun(c, Next(c, o, step), stage, raws[1..]);
      } else {
        assert [] + Signals(stage, raws[1..]) == Signals(stage, raws[1..]);
        PollIsRun(c, o, stage, raws[1..]);
      }
    }
  }

  lemma OneErrorMore(sent: seq<Message>, told: set<Id>, stage: nat, req: Id)
    requires OneErrorEach(sent, told, stage) && req !in told
    ensures OneErrorEach(sent + [FatalError(req, stage)], told + {req}, stage)
  {
    NoDuplicatesConcat(sent, [FatalError(req, stage)]);
  }
}
