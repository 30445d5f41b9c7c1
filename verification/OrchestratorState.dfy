/**
 The request bookkeeping of vllm_omni/engine/orchestrator.py for non-streaming
 requests, and what each handler does to it.  A handler runs between two awaits of the
 event loop; its effect on the stages is recorded in `handed`, its messages to the main
 thread in `messages`.
 */
module OrchestratorState {
  import opened Common
  import opened CfgCompanionTracking

  datatype Config = Config(asyncChunk: bool, finalOutput: seq<bool>, isDiffusion: seq<bool>) {
    predicate WellFormed() {
      |finalOutput| == |isDiffusion|
    }

    function NumStages(): nat {
      |finalOutput|
    }
  }

  /** `submitted` holds the keys of `stage_submit_ts`. */
  datatype RequestState = RequestState(finalStage: nat, submitted: set<nat>)

  datatype Message =
    | Output(req: Id, stage: nat, finished: bool)
    | StageMetrics(req: Id, stage: nat)
    | FatalError(req: Id, stage: nat)

  datatype Handover = Handover(req: Id, stage: nat)

  datatype Orchestrator = Orchestrator(
    requests: map<Id, RequestState>,
    tracker: Tracker,
    messages: seq<Message>,
    handed: seq<Handover>,
    used: set<Id>)
  {
    predicate NextSubmitted(req: Id, stage: nat)
      requires req in requests
    {
      stage + 1 in requests[req].submitted
    }

    /** Must the parent be held back for its companions? */
    predicate Gated(req: Id) {
      req in tracker.companions && !tracker.AllDone(req)
    }

    function Drop(req: Id): Orchestrator {
      this.(requests := requests - {req})
    }

    function Close(req: Id): Orchestrator {
      this.(requests := requests - {req}, tracker := tracker.CleanupParent(req))
    }

    function Send(message: Message): Orchestrator {
      this.(messages := messages + [message])
    }
  }

  /** The stages prewarmed at once in async-chunk mode. */
  function Prewarmed(req: Id, finalStage: nat, stage: nat): seq<Handover>
    decreases finalStage + 1 - stage
  {
    if stage > finalStage then [] else [Handover(req, stage)] + Prewarmed(req, finalStage, stage + 1)
  }

  function UpTo(n: nat): (r: set<nat>)
    ensures forall s: nat :: s in r <==> s <= n
  {
    if n == 0 then {0} else UpTo(n - 1) + {n}
  }

  function AddRequest(c: Config, o: Orchestrator, req: Id, finalStage: nat, hasPromptTokens: bool): Orchestrator {
    var prewarm := c.asyncChunk && finalStage > 0 && hasPromptTokens;
    o.(requests := o.requests[req := RequestState(finalStage,
                     if prewarm then UpTo(finalStage) else {0})],
       handed := o.handed + [Handover(req, 0)] + if prewarm then Prewarmed(req, finalStage, 1) else [],
       used := o.used + {req})
  }

  function AddCompanion(o: Orchestrator, parent: Id, role: Role, companion: Id): Orchestrator {
    o.(tracker := o.tracker.RegisterCompanion(parent, role, companion),
       requests := o.requests[companion := RequestState(0, {0})],
       handed := o.handed + [Handover(companion, 0)],
       used := o.used + {companion})
  }

  function Abort(o: Orchestrator, requestIds: seq<Id>): Orchestrator {
    var parents := o.tracker.ParentsAmong(requestIds);
    o.(tracker := o.tracker.CleanupAll(parents),
       requests := o.requests - (set id | id in requestIds) - o.tracker.CompanionsOfAll(parents))
  }

  /** `_forward_to_next_stage`: hands the request on, or, when the diffusion stage gets no
      valid inputs, closes it with a terminal error output. */
  function Forward(o: Orchestrator, req: Id, stage: nat, noInputs: bool): Orchestrator
    requires req in o.requests
  {
    if noInputs then
      o.Send(Output(req, stage + 1, true)).Close(req)
    else
      o.(handed := o.handed + [Handover(req, stage + 1)],
         requests := o.requests[req := o.requests[req].(submitted := o.requests[req].submitted + {stage + 1})])
  }

  /** `_handle_cfg_companion_ready` */
  function CompanionReady(o: Orchestrator, companion: Id, noInputs: bool): Orchestrator {
    var marked := o.(tracker := o.tracker.MarkDone(companion));
    match o.tracker.Released(companion)
    case None => marked
    case Some(parent) =>
      var deferred := o.tracker.pending[parent];
      var popped := marked.(tracker := marked.tracker.PopPending(parent));
      if parent in o.requests && !o.NextSubmitted(parent, deferred.stage)
      then Forward(popped, parent, deferred.stage, noInputs) else popped
  }

  /** The deferral or the hand-over of a request whose stage is through with it. */
  function DeferOrForward(o: Orchestrator, req: Id, stage: nat, outputs: EngineOutputs, noInputs: bool): Orchestrator
    requires req in o.requests
  {
    if o.Gated(req) then o.(tracker := o.tracker.Defer(req, outputs, stage))
    else Forward(o, req, stage, noInputs)
  }

  /** One raw output carrying a KV-ready signal. */
  function KvReady(c: Config, o: Orchestrator, stage: nat, req: Id, outputs: EngineOutputs,
                   noInputs: bool): Orchestrator {
    if c.asyncChunk || req !in o.requests then o
    else if o.tracker.IsCompanion(req) then CompanionReady(o, req, noInputs)
    else if stage >= o.requests[req].finalStage || o.NextSubmitted(req, stage) then o
    else DeferOrForward(o, req, stage, outputs, noInputs)
  }

  function Report(c: Config, o: Orchestrator, stage: nat, req: Id, finished: bool): Orchestrator
    requires req in o.requests && stage < c.NumStages() && c.WellFormed()
  {
    if c.finalOutput[stage] then o.Send(Output(req, stage, finished && stage == o.requests[req].finalStage))
    else if finished || c.isDiffusion[stage] then o.Send(StageMetrics(req, stage))
    else o
  }

  /** `_route_output` */
  function Route(c: Config, o: Orchestrator, stage: nat, req: Id, finished: bool, outputs: EngineOutputs,
                 noInputs: bool): Orchestrator
    requires req in o.requests && stage < c.NumStages() && c.WellFormed()
  {
    if finished && o.tracker.IsCompanion(req) then CompanionReady(o, req, noInputs).Drop(req)
    else
      var finalStage := o.requests[req].finalStage;
      var reported := Report(c, o, stage, req, finished);
      var moved := if finished && stage < finalStage && !c.asyncChunk && !o.NextSubmitted(req, stage)
                   then DeferOrForward(reported, req, stage, outputs, noInputs) else reported;
      if finished && stage == finalStage then moved.Close(req) else moved
  }

  /** The error branch for a diffusion stage: reported whether or not the request is known. */
  function DiffusionError(o: Orchestrator, stage: nat, req: Id): Orchestrator {
    o.Send(Output(req, stage, true)).Drop(req)
  }

  datatype Step =
    | DoAddRequest(req: Id, finalStage: nat, hasPromptTokens: bool)
    | DoAddCompanion(parent: Id, role: Role, companion: Id)
    | DoAbort(requestIds: seq<Id>)
    | DoKvReady(stage: nat, req: Id, outputs: EngineOutputs, noInputs: bool)
    | DoRoute(stage: nat, req: Id, finished: bool, outputs: EngineOutputs, noInputs: bool)
    | DoDiffusionError(stage: nat, req: Id)

  /** What the handlers may be called with: request and companion ids are new, a companion's
      role is new for its parent, and a stage only answers requests handed to it.  Only
      diffusion stages report errors this way. */
  ghost predicate Enabled(c: Config, o: Orchestrator, step: Step)
    requires c.WellFormed()
  {
    match step
    case DoAddRequest(req, finalStage, _) => req !in o.used && finalStage < c.NumStages()
    case DoAddCompanion(parent, role, companion) =>
      && companion !in o.used && companion != parent && 0 < c.NumStages()
      && (parent in o.tracker.companions ==> role !in o.tracker.companions[parent])
    case DoAbort(_) => true
    case DoKvReady(stage, req, _, _) => Handover(req, stage) in o.handed
    case DoRoute(stage, req, _, _, _) =>
      req in o.requests && stage < c.NumStages() && Handover(req, stage) in o.handed
    case DoDiffusionError(stage, req) =>
      stage < c.NumStages() && c.isDiffusion[stage] && Handover(req, stage) in o.handed
  }

  function Next(c: Config, o: Orchestrator, step: Step): Orchestrator
    requires c.WellFormed() && Enabled(c, o, step)
  {
    match step
    case DoAddRequest(req, finalStage, hasPromptTokens) => AddRequest(c, o, req, finalStage, hasPromptTokens)
    case DoAddCompanion(parent, role, companion) => AddCompanion(o, parent, role, companion)
    case DoAbort(requestIds) => Abort(o, requestIds)
    case DoKvReady(stage, req, outputs, noInputs) => KvReady(c, o, stage, req, outputs, noInputs)
    case DoRoute(stage, req, finished, outputs, noInputs) => Route(c, o, stage, req, finished, outputs, noInputs)
    case DoDiffusionError(stage, req) => DiffusionError(o, stage, req)
  }
}
