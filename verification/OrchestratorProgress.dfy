/**
 That requests get on: what each handler does for the request it is called for, and that over
 every run a request moves through its pipeline or is held back, and never just disappears.
 */
module OrchestratorProgress {
  import opened Common
  import opened CfgCompanionTracking
  import opened OrchestratorState
  import opened OrchestratorSafety
  import opened OrchestratorRelease

  /** Some companion of the request has not finished. */
  ghost predicate Waits(o: Orchestrator, req: Id) {
    exists companion :: companion in o.tracker.CompanionsOf(req) && companion !in o.tracker.DoneOf(req)
  }

  lemma WaitsIsGated(c: Config, o: Orchestrator, req: Id)
    requires Inv(c, o)
    ensures Waits(o, req) <==> o.Gated(req)
  {
  }

  /** What the main thread is sent when a stage finishes a request: its output if the stage has
      one for the user, finished for the last stage, or else the metrics. */
  ghost function Notice(c: Config, o: Orchestrator, req: Id, stage: nat): Message
    requires req in o.requests && stage < c.NumStages()
  {
    if c.finalOutput[stage] then Output(req, stage, stage == o.requests[req].finalStage) else StageMetrics(req, stage)
  }

  // ---- A stage is through with a request ----

  /** What becomes of a request whose stage is through with it and whose next stage does not
      have it yet: held back with the outputs of that stage as long as a companion has not
      finished; told finished and forgotten if there are no valid inputs for the next stage;
      and else handed to exactly the next stage. */
  ghost predicate MovesOn(o: Orchestrator, n: Orchestrator, req: Id, stage: nat, outputs: EngineOutputs, noInputs: bool)
    requires req in o.requests
  {
    var state := o.requests[req];
    if Waits(o, req) then
      n == o.(tracker := o.tracker.(pending := o.tracker.pending[req := Deferred(outputs, stage)]))
    else if noInputs then
      && n.messages == o.messages + [Output(req, stage + 1, true)] && n.handed == o.handed
      && n.requests == o.requests - {req} && req !in n.tracker.pending
    else
      n == o.(handed := o.handed + [Handover(req, stage + 1)],
              requests := o.requests[req := state.(submitted := state.submitted + {stage + 1})])
  }

  lemma DeferOrForwardMovesOn(c: Config, o: Orchestrator, req: Id, stage: nat, outputs: EngineOutputs, noInputs: bool)
    requires Inv(c, o) && req in o.requests
    ensures MovesOn(o, DeferOrForward(o, req, stage, outputs, noInputs), req, stage, outputs, noInputs)
  {
    WaitsIsGated(c, o, req);
    hide Inv, Waits;
  }

  lemma MessagesAreNoMatter(c: Config, o: Orchestrator, m: Message)
    requires Inv(c, o)
    ensures Inv(c, o.Send(m))
  {
  }

  /** A finished output of a stage before the last one: the request moves on. */
  lemma FinishedStageMovesOn(c: Config, o: Orchestrator, stage: nat, req: Id, outputs: EngineOutputs, noInputs: bool)
    requires c.WellFormed() && Inv(c, o) && Enabled(c, o, DoRoute(stage, req, true, outputs, noInputs))
    requires !c.asyncChunk && req !in o.tracker.ids
    requires stage < o.requests[req].finalStage && stage + 1 !in o.requests[req].submitted
    ensures MovesOn(o.Send(Notice(c, o, req, stage)), Next(c, o, DoRoute(stage, req, true, outputs, noInputs)),
                    req, stage, outputs, noInputs)
  {
    MessagesAreNoMatter(c, o, Notice(c, o, req, stage));
    hide Inv;
    DeferOrForwardMovesOn(c, o.Send(Notice(c, o, req, stage)), req, stage, outputs, noInputs);
    hide MovesOn, DeferOrForward;
  }

  /** The same for a KV-ready signal, which comes before the stage has finished. */
  lemma KvReadyMovesOn(c: Config, o: Orchestrator, stage: nat, req: Id, outputs: EngineOutputs, noInputs: bool)
    requires c.WellFormed() && Inv(c, o) && Enabled(c, o, DoKvReady(stage, req, outputs, noInputs))
    requires !c.asyncChunk && req in o.requests && req !in o.tracker.ids
    requires stage < o.requests[req].finalStage && stage + 1 !in o.requests[req].submitted
    ensures MovesOn(o, Next(c, o, DoKvReady(stage, req, outputs, noInputs)), req, stage, outputs, noInputs)
  {
    hide Inv;
    DeferOrForwardMovesOn(c, o, req, stage, outputs, noInputs);
    hide MovesOn, DeferOrForward;
  }

  /** A finished output of the last stage ends the request. */
  lemma LastStageEnds(c: Config, o: Orchestrator, req: Id, outputs: EngineOutputs, noInputs: bool)
    requires c.WellFormed() && Inv(c, o) && req in o.requests && req !in o.tracker.ids
    requires Enabled(c, o, DoRoute(o.requests[req].finalStage, req, true, outputs, noInputs))
    ensures var stage := o.requests[req].finalStage;
            var n := Next(c, o, DoRoute(stage, req, true, outputs, noInputs));
            && n.messages == o.messages + [if c.finalOutput[stage] then Output(req, stage, true)
                                           else StageMetrics(req, stage)]
            && n.requests == o.requests - {req} && n.handed == o.handed
            && req !in n.tracker.companions && req !in n.tracker.pending
  {
  }

  /** An output that is not finished is passed on and changes nothing else. */
  lemma UnfinishedIsPassedOn(c: Config, o: Orchestrator, stage: nat, req: Id, outputs: EngineOutputs, noInputs: bool)
    requires c.WellFormed() && Enabled(c, o, DoRoute(stage, req, false, outputs, noInputs))
    ensures Next(c, o, DoRoute(stage, req, false, outputs, noInputs))
            == if c.finalOutput[stage] then o.(messages := o.messages + [Output(req, stage, false)])
               else if c.isDiffusion[stage] then o.(messages := o.messages + [StageMetrics(req, stage)])
               else o
  {
  }

  /** A finished companion is forgotten without a message of its own. */
  lemma FinishedCompanionIsSilent(c: Config, o: Orchestrator, stage: nat, req: Id, outputs: EngineOutputs)
    requires c.WellFormed() && Inv(c, o) && Enabled(c, o, DoRoute(stage, req, true, outputs, false))
    requires req in o.tracker.ids
    ensures var n := Next(c, o, DoRoute(stage, req, true, outputs, false));
            && req !in n.requests && n.messages == o.messages
            && req in n.tracker.parentOf && req in n.tracker.DoneOf(n.tracker.parentOf[req])
  {
  }

  /** A KV-ready signal of a companion counts like its end, but the companion stays tracked. */
  lemma KvReadyCompanionIsDone(c: Config, o: Orchestrator, stage: nat, req: Id, outputs: EngineOutputs)
    requires c.WellFormed() && Inv(c, o) && Enabled(c, o, DoKvReady(stage, req, outputs, false))
    requires !c.asyncChunk && req in o.requests && req in o.tracker.ids
    ensures var n := Next(c, o, DoKvReady(stage, req, outputs, false));
            && req in n.requests && n.messages == o.messages
            && req in n.tracker.parentOf && req in n.tracker.DoneOf(n.tracker.parentOf[req])
  {
  }

  /** Either report of the last companion hands a held-back request on in that very step. */
  lemma LastReportHandsOn(c: Config, o: Orchestrator, step: Step, parent: Id)
    requires c.WellFormed() && Inv(c, o) && Enabled(c, o, step) && parent in o.tracker.pending && parent in o.requests
    requires (step.DoRoute? && step.finished) || (step.DoKvReady? && step.req in o.requests)
    requires !step.noInputs && step.req in o.tracker.ids && !o.NextSubmitted(parent, o.tracker.pending[parent].stage)
    requires o.tracker.CompanionsOf(parent) - o.tracker.DoneOf(parent) == {step.req}
    ensures var n, stage := Next(c, o, step), o.tracker.pending[parent].stage;
            parent !in n.tracker.pending && Handover(parent, stage + 1) in n.handed
  {
    LastCompanionReleases(c, o, step.req, parent);
    hide CompanionReady;
  }

  // ---- Requests come and go ----

  /** A new request is tracked and handed to its first stage; with async chunks, if its prompt
      has tokens, to all stages up to its last one. */
  lemma AddedRequestStarts(c: Config, o: Orchestrator, req: Id, finalStage: nat, hasPromptTokens: bool)
    requires c.WellFormed() && Inv(c, o) && Enabled(c, o, DoAddRequest(req, finalStage, hasPromptTokens))
    ensures var n := Next(c, o, DoAddRequest(req, finalStage, hasPromptTokens));
            && req in n.requests && n.requests[req].finalStage == finalStage
            && (forall s: nat :: Handover(req, s) in n.handed <==>
                  s == 0 || (c.asyncChunk && hasPromptTokens && s <= finalStage))
            && n.messages == o.messages && n.tracker == o.tracker && n.used == o.used + {req}
            && n.requests - {req} == o.requests
  {
    StepKeepsInv(c, o, DoAddRequest(req, finalStage, hasPromptTokens));
    var n := Next(c, o, DoAddRequest(req, finalStage, hasPromptTokens));
    assert forall s :: Handover(req, s) in n.handed <==> s in n.requests[req].submitted;
    assert req !in o.requests;
  }

  /** A new companion is tracked and handed to the first stage, and its parent waits for it. */
  lemma AddedCompanionStarts(c: Config, o: Orchestrator, parent: Id, role: Role, companion: Id)
    requires c.WellFormed() && Inv(c, o) && Enabled(c, o, DoAddCompanion(parent, role, companion))
    ensures var n := Next(c, o, DoAddCompanion(parent, role, companion));
            && companion in n.requests && n.handed == o.handed + [Handover(companion, 0)]
            && n.tracker.CompanionsOf(parent) == o.tracker.CompanionsOf(parent) + {companion}
            && n.tracker.parentOf == o.tracker.parentOf[companion := parent] && Waits(n, parent)
            && n.messages == o.messages && n.requests - {companion} == o.requests
  {
    var n := Next(c, o, DoAddCompanion(parent, role, companion));
    assert companion !in o.requests && companion !in o.tracker.ids;
    NewCompanionIsNobodys(o.tracker, parent, companion);
    CompanionsAfterRegister(o.tracker, parent, role, companion);
    assert companion !in o.tracker.DoneOf(parent);
    assert companion in n.tracker.CompanionsOf(parent) && companion !in n.tracker.DoneOf(parent);
  }

  /** An abort forgets exactly the requests it names and the companions of those it names that
      are not companions themselves; nothing is sent. */
  lemma AbortForgetsExactly(c: Config, o: Orchestrator, requestIds: seq<Id>, req: Id)
    requires c.WellFormed() && Inv(c, o)
    ensures var n := Next(c, o, DoAbort(requestIds));
            var ofNamed := req in o.tracker.parentOf && o.tracker.parentOf[req] in requestIds
                           && o.tracker.parentOf[req] !in o.tracker.ids;
            && (req in n.requests <==> req in o.requests && req !in requestIds && !ofNamed)
            && (req in n.requests ==> n.requests[req] == o.requests[req])
            && n.messages == o.messages && n.handed == o.handed
            && (req in n.tracker.ids <==> req in o.tracker.ids && !ofNamed)
            && (req in n.tracker.pending <==>
                  req in o.tracker.pending && !(req in requestIds && req !in o.tracker.ids))
  {
    var parents := o.tracker.ParentsAmong(requestIds);
    assert req in o.tracker.CompanionsOfAll(parents) <==>
             req in o.tracker.parentOf && o.tracker.parentOf[req] in parents by {
      CompanionIff(o.tracker, parents, req);
    }
    hide Tracker.CompanionsOfAll, Tracker.Valid;
    assert o.tracker.ids == o.tracker.parentOf.Keys by { IdsAreKeys(o.tracker); }
  }

  lemma IdsAreKeys(t: Tracker)
    requires t.Valid()
    ensures t.ids == t.parentOf.Keys
  {
  }

  lemma CompanionIff(t: Tracker, parents: set<Id>, req: Id)
    requires t.Valid()
    ensures req in t.CompanionsOfAll(parents) <==> req in t.parentOf && t.parentOf[req] in parents
  {
    hide ValuesAt;
    if req in t.parentOf { assert req in t.CompanionsOf(t.parentOf[req]); }
    forall p | p in parents && req in t.CompanionsOf(p) ensures req in t.parentOf && t.parentOf[req] == p {
      OwnerOf(t, p, req);
    }
  }

  /** A diffusion error is sent on as the finished output of its request, which is forgotten. */
  lemma ErrorEnds(c: Config, o: Orchestrator, stage: nat, req: Id)
    requires c.WellFormed() && Enabled(c, o, DoDiffusionError(stage, req))
    ensures Next(c, o, DoDiffusionError(stage, req))
            == o.(messages := o.messages + [Output(req, stage, true)], requests := o.requests - {req})
  {
  }

  // ---- Over runs ----

  /** If its stage k is not the last one, a tracked request was handed to the next stage or is
      held back after k. */
  ghost predicate Moved(o: Orchestrator, req: Id, k: nat) {
    req in o.requests && k < o.requests[req].finalStage ==>
      Handover(req, k + 1) in o.handed || (req in o.tracker.pending && o.tracker.pending[req].stage == k)
  }

  lemma {:induction false} PrefixClosed(state: RequestState, a: nat, b: nat)
    requires Prefix(state) && b in state.submitted && a <= b
    ensures a in state.submitted
    decreases b
  {
    if a < b { PrefixClosed(state, a, b - 1); }
  }

  /** Only one stage can be through with a request that its next stage does not have. */
  lemma OneStageIsThrough(c: Config, o: Orchestrator, req: Id, a: nat, b: nat)
    requires Inv(c, o) && req in o.requests && a in o.requests[req].submitted && b in o.requests[req].submitted
    requires a + 1 !in o.requests[req].submitted && b + 1 !in o.requests[req].submitted
    ensures a == b
  {
    if a < b { PrefixClosed(o.requests[req], a + 1, b); } else if b < a { PrefixClosed(o.requests[req], b + 1, a); }
  }

  lemma DeferOrForwardKeepsMoved(c: Config, o: Orchestrator, other: Id, stage: nat, outputs: EngineOutputs,
                                 noInputs: bool, req: Id, k: nat)
    requires Inv(c, o) && Moved(o, req, k)
    requires other in o.requests && stage in o.requests[other].submitted && !o.NextSubmitted(other, stage)
    ensures Moved(DeferOrForward(o, other, stage, outputs, noInputs), req, k)
  {
    if req == other && req in o.tracker.pending && Handover(req, k + 1) !in o.handed
       && o.tracker.pending[req].stage == k {
      assert k in o.requests[req].submitted && k + 1 !in o.requests[req].submitted;
      OneStageIsThrough(c, o, req, k, stage);
    }
    hide Inv;
  }

  lemma CompanionReadyKeepsMoved(c: Config, o: Orchestrator, companion: Id, noInputs: bool, req: Id, k: nat)
    requires Inv(c, o) && Moved(o, req, k)
    ensures Moved(CompanionReady(o, companion, noInputs), req, k)
  {
    CompletionKeepsTables(o.tracker, companion);
    assert req in o.requests && o.NextSubmitted(req, k) ==> Handover(req, k + 1) in o.handed;
    ReleasedIsHeldBack(o.tracker, companion);
    hide Inv, Tracker.MarkDone, Tracker.Released, Forward;
    if o.tracker.Released(companion).Some? {
      var parent := o.tracker.Released(companion).value;
      var stage := o.tracker.pending[parent].stage;
      var popped := o.(tracker := o.tracker.MarkDone(companion).PopPending(parent));
      assert req != parent ==> Moved(popped, req, k);
      if parent in o.requests && !o.NextSubmitted(parent, stage) {
        ForwardKeepsMoved(popped, parent, stage, noInputs, req, k);
      }
    }
  }

  /** Handing another request on is no matter, and handing this one on moves it. */
  lemma ForwardKeepsMoved(o: Orchestrator, other: Id, stage: nat, noInputs: bool, req: Id, k: nat)
    requires other in o.requests && (Moved(o, req, k) || (req == other && k == stage))
    ensures Moved(Forward(o, other, stage, noInputs), req, k)
  {
    if !noInputs && req == other && k == stage {
      assert Forward(o, other, stage, noInputs).handed[|o.handed|] == Handover(req, k + 1);
    }
  }

  lemma ReportKeepsMoved(c: Config, o: Orchestrator, stage: nat, other: Id, finished: bool, req: Id, k: nat)
    requires c.WellFormed() && stage < c.NumStages() && other in o.requests && Inv(c, o) && Moved(o, req, k)
    ensures var n := Report(c, o, stage, other, finished); Inv(c, n) && Moved(n, req, k) && n.requests == o.requests
  {
    hide Tracker.Valid, Tracker.RolesDistinct;
  }

  lemma GoneIsMoved(o: Orchestrator, n: Orchestrator, req: Id, k: nat)
    requires Moved(o, req, k) && n.handed == o.handed
    requires req in n.requests ==> req in o.requests && n.requests[req].finalStage == o.requests[req].finalStage
    requires req in n.requests && req in o.tracker.pending ==>
               req in n.tracker.pending && n.tracker.pending[req] == o.tracker.pending[req]
    ensures Moved(n, req, k)
  {
  }

  lemma RouteKeepsMoved(c: Config, o: Orchestrator, step: Step, req: Id, k: nat)
    requires c.WellFormed() && Inv(c, o) && Enabled(c, o, step) && step.DoRoute? && Moved(o, req, k)
    ensures Moved(Next(c, o, step), req, k)
  {
    var DoRoute(stage, other, finished, outputs, noInputs) := step;
    var n := Next(c, o, step);
    if finished && o.tracker.IsCompanion(other) {
      CompanionReadyKeepsMoved(c, o, other, noInputs, req, k);
      hide Inv, CompanionReady;
      GoneIsMoved(CompanionReady(o, other, noInputs), n, req, k);
    } else {
      var reported := Report(c, o, stage, other, finished);
      ReportKeepsMoved(c, o, stage, other, finished, req, k);
      assert stage in o.requests[other].submitted;
      hide Inv, Report, Moved;
      if finished && stage < o.requests[other].finalStage && !c.asyncChunk && !o.NextSubmitted(other, stage) {
        DeferOrForwardKeepsMoved(c, reported, other, stage, outputs, noInputs, req, k);
      } else if finished && stage == o.requests[other].finalStage {
        GoneIsMoved(reported, n, req, k);
      }
    }
  }

  lemma StepKeepsMoved(c: Config, o: Orchestrator, step: Step, req: Id, k: nat)
    requires c.WellFormed() && Inv(c, o) && Enabled(c, o, step) && req in o.used && Moved(o, req, k)
    ensures req in Next(c, o, step).used && Moved(Next(c, o, step), req, k)
  {
    var n := Next(c, o, step);
    StepKeepsUsed(c, o, step);
    match step
    case DoRoute(_, _, _, _, _) =>
      hide Next, Inv, Moved;
      RouteKeepsMoved(c, o, step, req, k);
    case DoKvReady(stage, other, outputs, noInputs) =>
      if !c.asyncChunk && other in o.requests {
        if o.tracker.IsCompanion(other) {
          CompanionReadyKeepsMoved(c, o, other, noInputs, req, k);
        } else if stage < o.requests[other].finalStage && !o.NextSubmitted(other, stage) {
          DeferOrForwardKeepsMoved(c, o, other, stage, outputs, noInputs, req, k);
        }
      }
      hide Inv, Moved, DeferOrForward, CompanionReady;
    case DoAddRequest(other, _, _) => hide Inv;
    case DoAddCompanion(_, _, _) => hide Inv;
    case DoAbort(requestIds) =>
      AbortForgetsExactly(c, o, requestIds, req);
      hide Inv, Next;
    case DoDiffusionError(stage, other) => hide Inv;
  }

  lemma {:induction false} RunKeepsMoved(c: Config, first: Orchestrator, steps: seq<Step>, last: Orchestrator, req: Id,
                                         k: nat)
    requires c.WellFormed() && Inv(c, first) && Runs(c, first, steps, last) && req in first.used && Moved(first, req, k)
    ensures Inv(c, last) && Moved(last, req, k)
    decreases |steps|
  {
    if steps != [] {
      StepKeepsInv(c, first, steps[0]);
      StepKeepsMoved(c, first, steps[0], req, k);
      hide Inv, Moved, Next, Enabled;
      RunKeepsMoved(c, Next(c, first, steps[0]), steps[1..], last, req, k);
    }
  }

  /** A stage that finishes a request has it moved on at once. */
  lemma FinishMoves(c: Config, o: Orchestrator, stage: nat, req: Id, outputs: EngineOutputs, noInputs: bool)
    requires c.WellFormed() && Inv(c, o) && Enabled(c, o, DoRoute(stage, req, true, outputs, noInputs)) && !c.asyncChunk
    ensures Moved(Next(c, o, DoRoute(stage, req, true, outputs, noInputs)), req, stage)
  {
    var n := Next(c, o, DoRoute(stage, req, true, outputs, noInputs));
    if req in o.tracker.ids {
      assert req !in n.requests;
    } else if stage < o.requests[req].finalStage {
      if stage + 1 in o.requests[req].submitted {
        assert Handover(req, stage + 1) in o.handed;
        assert n == Report(c, o, stage, req, true);
      } else {
        FinishedStageMovesOn(c, o, stage, req, outputs, noInputs);
        hide Next;
        assert !noInputs && !Waits(o.Send(Notice(c, o, req, stage)), req) ==>
                 n.handed[|o.handed|] == Handover(req, stage + 1);
      }
    } else if stage == o.requests[req].finalStage {
      LastStageEnds(c, o, req, outputs, noInputs);
    }
  }

  lemma TrackedIsUsed(c: Config, o: Orchestrator, req: Id)
    requires Inv(c, o) && req in o.requests
    ensures req in o.used
  {
  }

  /** No finished stage is forgotten: over every run, whatever comes in between, a request that
      is still tracked after its stage k finished was handed to the next stage, or is held back
      with the outputs of stage k because a companion has not finished. */
  lemma {:induction false} FinishedStagesMoveOn(c: Config, first: Orchestrator, steps: seq<Step>, last: Orchestrator,
                                                i: nat)
    requires c.WellFormed() && Inv(c, first) && Runs(c, first, steps, last) && !c.asyncChunk
    requires i < |steps| && steps[i].DoRoute? && steps[i].finished
    ensures var req, k := steps[i].req, steps[i].stage;
            req in last.requests && k < last.requests[req].finalStage ==>
              || Handover(req, k + 1) in last.handed
              || (req in last.tracker.pending && last.tracker.pending[req].stage == k && Waits(last, req))
    decreases i
  {
    var n := Next(c, first, steps[0]);
    StepKeepsInv(c, first, steps[0]);
    if i > 0 {
      FinishedStagesMoveOn(c, n, steps[1..], last, i - 1);
    } else {
      var DoRoute(k, req, finished, outputs, noInputs) := steps[0];
      TrackedIsUsed(c, first, req);
      StepKeepsUsed(c, first, steps[0]);
      FinishMoves(c, first, k, req, outputs, noInputs);
      hide Moved, Next, Enabled;
      RunKeepsMoved(c, n, steps[1..], last, req, k);
      WaitsIsGated(c, last, req);
      HeldBackIsGated(c, last, req);
      if req in last.requests && k < last.requests[req].finalStage { MovedIs(last, req, k); }
    }
  }

  lemma MovedIs(o: Orchestrator, req: Id, k: nat)
    requires Moved(o, req, k) && req in o.requests && k < o.requests[req].finalStage
    ensures Handover(req, k + 1) in o.handed || (req in o.tracker.pending && o.tracker.pending[req].stage == k)
  {
  }

  lemma HeldBackIsGated(c: Config, o: Orchestrator, req: Id)
    requires Inv(c, o)
    ensures req in o.tracker.pending ==> o.Gated(req)
  {
  }

  /** So once every stage before the last one has finished it, a request that is tracked and not
      held back has been handed to all of its stages. */
  lemma AllStagesReached(c: Config, first: Orchestrator, steps: seq<Step>, last: Orchestrator, req: Id)
    requires c.WellFormed() && Initial(first) && Runs(c, first, steps, last) && !c.asyncChunk
    requires req in last.requests && !Waits(last, req)
    requires forall k: nat :: k < last.requests[req].finalStage ==> FinishedBy(steps, req, k)
    ensures forall s: nat :: s <= last.requests[req].finalStage ==> Handover(req, s) in last.handed
  {
    InitialInv(c, first);
    RunKeepsInv(c, first, steps, last);
    forall s: nat | s <= last.requests[req].finalStage ensures Handover(req, s) in last.handed {
      if s == 0 {
        assert 0 in last.requests[req].submitted;
      } else {
        assert FinishedBy(steps, req, s - 1);
        var i :| 0 <= i < |steps| && steps[i].DoRoute? && steps[i].finished && steps[i].req == req
                 && steps[i].stage == s - 1;
        hide Waits;
        FinishedStagesMoveOn(c, first, steps, last, i);
      }
    }
  }

  /** Some step of the run is a finished output of stage k for the request. */
  ghost predicate FinishedBy(steps: seq<Step>, req: Id, k: nat) {
    exists i :: 0 <= i < |steps| && steps[i].DoRoute? && steps[i].finished && steps[i].req == req && steps[i].stage == k
  }

  // ---- A request that is simply served ----

  /** Not a companion, without unfinished companions, through with exactly the stages before k. */
  ghost predicate At(c: Config, o: Orchestrator, req: Id, k: nat) {
    && Inv(c, o) && req in o.requests && req !in o.tracker.ids && !Waits(o, req)
    && k <= o.requests[req].finalStage < c.NumStages()
    && k in o.requests[req].submitted && k + 1 !in o.requests[req].submitted
  }

  lemma OneStageOn(c: Config, o: Orchestrator, req: Id, k: nat, outputs: EngineOutputs)
    requires c.WellFormed() && !c.asyncChunk && At(c, o, req, k) && k < o.requests[req].finalStage
    ensures Enabled(c, o, DoRoute(k, req, true, outputs, false))
    ensures var n := Next(c, o, DoRoute(k, req, true, outputs, false));
            && At(c, n, req, k + 1) && n.requests[req].finalStage == o.requests[req].finalStage
            && n.handed == o.handed + [Handover(req, k + 1)] && n.tracker == o.tracker
            && n.messages == o.messages + [Notice(c, o, req, k)]
  {
    assert Handover(req, k) in o.handed;
    StepKeepsInv(c, o, DoRoute(k, req, true, outputs, false));
    FinishedStageMovesOn(c, o, k, req, outputs, false);
    var n := Next(c, o, DoRoute(k, req, true, outputs, false));
    hide Next, Enabled, Inv;
    assert Waits(n, req) <==> Waits(o, req);
  }

  ghost function Served(req: Id, k: nat, finalStage: nat, outputs: EngineOutputs): seq<Step>
    decreases finalStage + 1 - k
  {
    if k > finalStage then [] else [DoRoute(k, req, true, outputs, false)] + Served(req, k + 1, finalStage, outputs)
  }

  ghost function HandedFrom(req: Id, k: nat, finalStage: nat): seq<Handover>
    decreases finalStage - k
  {
    if k >= finalStage then [] else [Handover(req, k + 1)] + HandedFrom(req, k + 1, finalStage)
  }

  /** If one stage after the other finishes it, the request is handed to every stage in turn,
      and with the last one it is through: its last message is its finished output, if that
      stage has one for the user. */
  lemma {:induction false} OneAfterTheOther(c: Config, o: Orchestrator, req: Id, k: nat, outputs: EngineOutputs)
    returns (last: Orchestrator)
    requires c.WellFormed() && !c.asyncChunk && At(c, o, req, k)
    ensures var final := o.requests[req].finalStage;
            && Runs(c, o, Served(req, k, final, outputs), last)
            && last.handed == o.handed + HandedFrom(req, k, final) && req !in last.requests
            && last.messages != []
            && last.messages[|last.messages| - 1]
               == (if c.finalOutput[final] then Output(req, final, true) else StageMetrics(req, final))
    decreases o.requests[req].finalStage - k
  {
    var final := o.requests[req].finalStage;
    var step := DoRoute(k, req, true, outputs, false);
    assert Handover(req, k) in o.handed;
    var n := Next(c, o, step);
    assert ([step] + Served(req, k + 1, final, outputs))[1..] == Served(req, k + 1, final, outputs);
    if k < final {
      OneStageOn(c, o, req, k, outputs);
      hide Next, Enabled, At, Waits;
      last := OneAfterTheOther(c, n, req, k + 1, outputs);
      ConcatAssociates(o.handed, [Handover(req, k + 1)], HandedFrom(req, k + 1, final));
    } else {
      LastStageEnds(c, o, req, outputs, false);
      last := n;
      assert Served(req, k + 1, final, outputs) == [];
      assert o.handed + [] == o.handed;
    }
  }

  // ---- Nobody just disappears ----

  /** Why a request that is no companion may be gone: it was aborted, it was told finished, or
      its last stage finished it and has no output for the user. */
  ghost predicate Accounted(c: Config, steps: seq<Step>, messages: seq<Message>, req: Id, finalStage: nat)
    requires c.WellFormed()
  {
    || (exists i :: 0 <= i < |steps| && steps[i].DoAbort? && req in steps[i].requestIds)
    || (exists m :: m in messages && FinishedFor(m, req))
    || (finalStage < c.NumStages() && !c.finalOutput[finalStage] && FinishedBy(steps, req, finalStage))
  }

  ghost predicate StillHere(o: Orchestrator, req: Id, finalStage: nat) {
    req in o.requests && o.requests[req].finalStage == finalStage && req in o.used && req !in o.tracker.ids
  }

  lemma ForwardAccounts(o: Orchestrator, other: Id, stage: nat, noInputs: bool, req: Id, finalStage: nat)
    requires other in o.requests && StillHere(o, req, finalStage)
    ensures var n := Forward(o, other, stage, noInputs);
            StillHere(n, req, finalStage) || (n.messages != [] && FinishedFor(n.messages[|n.messages| - 1], req))
  {
  }

  lemma CompanionReadyAccounts(o: Orchestrator, companion: Id, noInputs: bool, req: Id, finalStage: nat)
    requires StillHere(o, req, finalStage)
    ensures var n := CompanionReady(o, companion, noInputs);
            StillHere(n, req, finalStage) || (n.messages != [] && FinishedFor(n.messages[|n.messages| - 1], req))
  {
    hide Tracker.Released;
    var marked := o.(tracker := o.tracker.MarkDone(companion));
    if o.tracker.Released(companion).Some? {
      var parent := o.tracker.Released(companion).value;
      assert parent in o.tracker.pending by { ReleasedIsHeldBack(o.tracker, companion); }
      var stage := o.tracker.pending[parent].stage;
      var popped := marked.(tracker := marked.tracker.PopPending(parent));
      assert StillHere(popped, req, finalStage);
      hide Forward, StillHere, FinishedFor;
      if parent in o.requests && !o.NextSubmitted(parent, stage) {
        ForwardAccounts(popped, parent, stage, noInputs, req, finalStage);
      }
    }
  }

  lemma ReleasedIsHeldBack(t: Tracker, companion: Id)
    ensures t.Released(companion).Some? ==> t.Released(companion).value in t.pending
  {
  }

  lemma DeferOrForwardAccounts(o: Orchestrator, other: Id, stage: nat, outputs: EngineOutputs, noInputs: bool, req: Id,
                               finalStage: nat)
    requires other in o.requests && StillHere(o, req, finalStage)
    ensures var n := DeferOrForward(o, other, stage, outputs, noInputs);
            StillHere(n, req, finalStage) || (n.messages != [] && FinishedFor(n.messages[|n.messages| - 1], req))
  {
    if !o.Gated(other) { ForwardAccounts(o, other, stage, noInputs, req, finalStage); }
  }

  lemma RouteAccounts(c: Config, o: Orchestrator, step: Step, req: Id, finalStage: nat)
    requires c.WellFormed() && Enabled(c, o, step) && step.DoRoute? && StillHere(o, req, finalStage)
    ensures var n := Next(c, o, step);
            StillHere(n, req, finalStage) || Accounted(c, [step], n.messages, req, finalStage)
  {
    var DoRoute(stage, other, finished, outputs, noInputs) := step;
    var n := Next(c, o, step);
    assert [step][0] == step;
    if finished && o.tracker.IsCompanion(other) {
      CompanionReadyAccounts(o, other, noInputs, req, finalStage);
      hide CompanionReady;
    } else {
      var reported := Report(c, o, stage, other, finished);
      assert StillHere(reported, req, finalStage);
      if finished && stage < o.requests[other].finalStage && !c.asyncChunk && !o.NextSubmitted(other, stage) {
        DeferOrForwardAccounts(reported, other, stage, outputs, noInputs, req, finalStage);
        hide DeferOrForward, Report;
      } else if finished && stage == finalStage && other == req {
        if c.finalOutput[stage] {
          assert FinishedFor(Output(req, stage, true), req) && n.messages[|o.messages|] == Output(req, stage, true);
        } else {
          assert FinishedBy([step], req, finalStage);
        }
      }
    }
  }

  lemma StepAccounts(c: Config, o: Orchestrator, step: Step, req: Id, finalStage: nat)
    requires c.WellFormed() && Inv(c, o) && Enabled(c, o, step) && StillHere(o, req, finalStage)
    ensures var n := Next(c, o, step);
            StillHere(n, req, finalStage) || Accounted(c, [step], n.messages, req, finalStage)
  {
    var n := Next(c, o, step);
    assert [step][0] == step;
    match step
    case DoRoute(_, _, _, _, _) => RouteAccounts(c, o, step, req, finalStage);
    case DoKvReady(stage, other, outputs, noInputs) =>
      if other in o.requests {
        CompanionReadyAccounts(o, other, noInputs, req, finalStage);
        DeferOrForwardAccounts(o, other, stage, outputs, noInputs, req, finalStage);
      }
      hide CompanionReady, DeferOrForward, Inv;
    case DoAddRequest(_, _, _) => hide Inv;
    case DoAddCompanion(_, _, _) => hide Inv;
    case DoAbort(requestIds) =>
      AbortForgetsExactly(c, o, requestIds, req);
      IdsAreKeys(o.tracker);
      StepKeepsUsed(c, o, step);
      hide Inv, Next;
    case DoDiffusionError(stage, other) =>
      hide Inv;
      if other == req {
        assert FinishedFor(Output(req, stage, true), req) && n.messages[|o.messages|] == Output(req, stage, true);
      }
  }

  lemma LaterAccounts(c: Config, step: Step, steps: seq<Step>, before: seq<Message>, after: seq<Message>, req: Id,
                      finalStage: nat)
    requires c.WellFormed() && steps != [] && step == steps[0] && before <= after
    requires Accounted(c, [step], before, req, finalStage) || Accounted(c, steps[1..], after, req, finalStage)
    ensures Accounted(c, steps, after, req, finalStage)
  {
    assert forall m :: m in before ==> m in after;
    assert forall i :: 0 <= i < |steps[1..]| ==> steps[1..][i] == steps[i + 1];
    if FinishedBy(steps[1..], req, finalStage) {
      var i :| 0 <= i < |steps[1..]| && steps[1..][i].DoRoute? && steps[1..][i].finished && steps[1..][i].req == req
               && steps[1..][i].stage == finalStage;
      assert steps[i + 1].DoRoute?;
    }
  }

  /** Over every run: a request that is no companion and is tracked no more was aborted, or was
      told finished, or went through a last stage that has no output for the user. */
  lemma {:induction false} GoneIsAccountedFor(c: Config, first: Orchestrator, steps: seq<Step>, last: Orchestrator,
                                              req: Id, finalStage: nat)
    requires c.WellFormed() && Inv(c, first) && Runs(c, first, steps, last) && StillHere(first, req, finalStage)
    ensures StillHere(last, req, finalStage) || Accounted(c, steps, last.messages, req, finalStage)
    decreases |steps|
  {
    if steps != [] {
      var n := Next(c, first, steps[0]);
      StepKeepsInv(c, first, steps[0]);
      StepAccounts(c, first, steps[0], req, finalStage);
      hide Inv, Next, Enabled, StillHere, Accounted;
      RunGrowsMessages(c, n, steps[1..], last);
      if StillHere(n, req, finalStage) { GoneIsAccountedFor(c, n, steps[1..], last, req, finalStage); }
      if !StillHere(last, req, finalStage) {
        LaterAccounts(c, steps[0], steps, n.messages, last.messages, req, finalStage);
      }
    }
  }
}
