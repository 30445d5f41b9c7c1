/**
 What holds between any two handler calls of the orchestrator, over every run.
 */
module OrchestratorSafety {
  import opened Common
  import opened CfgCompanionTracking
  import opened OrchestratorState

  ghost predicate TrackerConsistent(o: Orchestrator) {
    && o.tracker.Valid() && o.tracker.RolesDistinct()
    && o.tracker.ids <= o.used && o.tracker.pending.Keys <= o.used
  }

  /** No stage is handed a request twice, and the submit timestamps are exactly the stages
      a live request was handed to. */
  ghost predicate HandedOnce(o: Orchestrator) {
    && NoDuplicates(o.handed)
    && (forall h :: h in o.handed ==> h.req in o.used)
    && o.requests.Keys <= o.used
    && (forall r, s :: r in o.requests ==> (s in o.requests[r].submitted <==> Handover(r, s) in o.handed))
  }

  /** The submitted stages are 0..k for some k up to the final stage. */
  ghost predicate Prefix(state: RequestState) {
    && 0 in state.submitted
    && forall s :: s in state.submitted ==> s <= state.finalStage && (s > 0 ==> s - 1 in state.submitted)
  }

  ghost predicate Pipelined(o: Orchestrator) {
    && (forall r :: r in o.requests ==> Prefix(o.requests[r]))
    && (forall p :: p in o.tracker.pending && p in o.requests ==>
          && o.tracker.pending[p].stage in o.requests[p].submitted
          && o.tracker.pending[p].stage < o.requests[p].finalStage)
  }

  ghost predicate Inv(c: Config, o: Orchestrator) {
    && TrackerConsistent(o)
    && HandedOnce(o)
    && Pipelined(o)
    && (c.asyncChunk ==> o.tracker.pending == map[])
  }

  ghost predicate Initial(o: Orchestrator) {
    o.requests == map[] && o.tracker == EMPTY_TRACKER && o.messages == [] && o.handed == [] && o.used == {}
  }

  // ---- Handing on ----

  lemma HandOnKeepsHandedOnce(o: Orchestrator, req: Id, stage: nat)
    requires HandedOnce(o) && req in o.requests && !o.NextSubmitted(req, stage)
    ensures HandedOnce(Forward(o, req, stage, false))
  {
    var n := Forward(o, req, stage, false);
    assert Handover(req, stage + 1) !in o.handed;
    NoDuplicatesConcat(o.handed, [Handover(req, stage + 1)]);
    forall r, s
      ensures Handover(r, s) in n.handed <==> Handover(r, s) in o.handed || Handover(r, s) == Handover(req, stage + 1)
    {
    }
  }

  lemma HandOnKeepsInv(c: Config, o: Orchestrator, req: Id, stage: nat)
    requires Inv(c, o) && req in o.requests && !o.NextSubmitted(req, stage)
    requires stage in o.requests[req].submitted && stage < o.requests[req].finalStage
    ensures Inv(c, Forward(o, req, stage, false))
  {
    HandOnKeepsHandedOnce(o, req, stage);
    hide Tracker.Valid, Tracker.RolesDistinct, HandedOnce;
  }

  lemma NoInputsKeepsInv(c: Config, o: Orchestrator, req: Id, stage: nat)
    requires Inv(c, o) && req in o.requests && !o.NextSubmitted(req, stage)
    ensures Inv(c, Forward(o, req, stage, true))
  {
    CleanupKeepsInv(c, o, {req});
    DropKeepsInv(c, o.(tracker := o.tracker.CleanupParent(req)), {req});
    hide Inv;
  }

  lemma ForwardKeepsInv(c: Config, o: Orchestrator, req: Id, stage: nat, noInputs: bool)
    requires Inv(c, o) && req in o.requests && !o.NextSubmitted(req, stage)
    requires stage in o.requests[req].submitted && stage < o.requests[req].finalStage
    ensures Inv(c, Forward(o, req, stage, noInputs))
  {
    hide Inv;
    if noInputs { NoInputsKeepsInv(c, o, req, stage); } else { HandOnKeepsInv(c, o, req, stage); }
  }

  lemma DropKeepsInv(c: Config, o: Orchestrator, gone: set<Id>)
    requires Inv(c, o)
    ensures Inv(c, o.(requests := o.requests - gone))
  {
  }

  lemma CleanupKeepsInv(c: Config, o: Orchestrator, parents: set<Id>)
    requires Inv(c, o)
    ensures Inv(c, o.(tracker := o.tracker.CleanupAll(parents)))
  {
    CleanupKeepsValid(o.tracker, parents);
    CleanupKeepsRolesDistinct(o.tracker, parents);
    hide Tracker.Valid, Tracker.RolesDistinct;
  }

  lemma TrackerStepKeepsInv(c: Config, o: Orchestrator, t: Tracker)
    requires Inv(c, o) && t.Valid() && t.RolesDistinct() && t.ids == o.tracker.ids
    requires t.pending.Keys <= o.tracker.pending.Keys
    requires forall p :: p in t.pending ==> t.pending[p] == o.tracker.pending[p]
    ensures Inv(c, o.(tracker := t))
  {
    hide Tracker.Valid, Tracker.RolesDistinct;
  }

  lemma CompanionReadyKeepsInv(c: Config, o: Orchestrator, companion: Id, noInputs: bool)
    requires Inv(c, o)
    ensures Inv(c, CompanionReady(o, companion, noInputs))
  {
    var marked := o.tracker.MarkDone(companion);
    CompletionKeepsValid(o.tracker, companion);
    CompletionKeepsTables(o.tracker, companion);
    if o.tracker.Released(companion).None? {
      TrackerStepKeepsInv(c, o, marked);
    } else {
      var parent := o.tracker.Released(companion).value;
      var stage := o.tracker.pending[parent].stage;
      TrackerStepKeepsInv(c, o, marked.PopPending(parent));
      if parent in o.requests && !o.NextSubmitted(parent, stage) {
        ForwardKeepsInv(c, o.(tracker := marked.PopPending(parent)), parent, stage, noInputs);
      }
    }
  }

  lemma DeferKeepsInv(c: Config, o: Orchestrator, req: Id, stage: nat, outputs: EngineOutputs)
    requires Inv(c, o) && req in o.requests && o.Gated(req) && !c.asyncChunk
    requires stage in o.requests[req].submitted && stage < o.requests[req].finalStage
    ensures Inv(c, o.(tracker := o.tracker.Defer(req, outputs, stage)))
  {
    DeferKeepsValid(o.tracker, req, outputs, stage);
    HandedLooksAtRequests(o);
    TrackedAreUsed(o, req);
    hide Tracker.Valid, Tracker.RolesDistinct, Tracker.AllDone, HandedOnce, Prefix;
  }

  lemma TrackedAreUsed(o: Orchestrator, req: Id)
    requires HandedOnce(o) && req in o.requests
    ensures req in o.used
  {
  }

  lemma HandedLooksAtRequests(o: Orchestrator)
    requires HandedOnce(o)
    ensures forall t: Tracker :: HandedOnce(o.(tracker := t))
  {
  }

  lemma DeferOrForwardKeepsInv(c: Config, o: Orchestrator, req: Id, stage: nat, outputs: EngineOutputs, noInputs: bool)
    requires Inv(c, o) && req in o.requests && !o.NextSubmitted(req, stage) && !c.asyncChunk
    requires stage in o.requests[req].submitted && stage < o.requests[req].finalStage
    ensures Inv(c, DeferOrForward(o, req, stage, outputs, noInputs))
  {
    if o.Gated(req) {
      DeferKeepsInv(c, o, req, stage, outputs);
    } else {
      hide Inv;
      ForwardKeepsInv(c, o, req, stage, noInputs);
    }
  }

  lemma KvReadyKeepsInv(c: Config, o: Orchestrator, step: Step)
    requires c.WellFormed() && Inv(c, o) && Enabled(c, o, step) && step.DoKvReady?
    ensures Inv(c, Next(c, o, step))
  {
    var DoKvReady(stage, req, outputs, noInputs) := step;
    if !c.asyncChunk && req in o.requests {
      if o.tracker.IsCompanion(req) {
        CompanionReadyKeepsInv(c, o, req, noInputs);
      } else if stage < o.requests[req].finalStage && !o.NextSubmitted(req, stage) {
        DeferOrForwardKeepsInv(c, o, req, stage, outputs, noInputs);
      }
    }
  }

  lemma RouteKeepsInv(c: Config, o: Orchestrator, step: Step)
    requires c.WellFormed() && Inv(c, o) && Enabled(c, o, step) && step.DoRoute?
    ensures Inv(c, Next(c, o, step))
  {
    var DoRoute(stage, req, finished, outputs, noInputs) := step;
    if finished && o.tracker.IsCompanion(req) {
      CompanionReadyKeepsInv(c, o, req, noInputs);
      DropKeepsInv(c, CompanionReady(o, req, noInputs), {req});
    } else {
      var reported := Report(c, o, stage, req, finished);
      assert Inv(c, reported);
      var finalStage := o.requests[req].finalStage;
      if finished && stage < finalStage && !c.asyncChunk && !o.NextSubmitted(req, stage) {
        DeferOrForwardKeepsInv(c, reported, req, stage, outputs, noInputs);
      } else if finished && stage == finalStage {
        CleanupKeepsInv(c, reported, {req});
        DropKeepsInv(c, reported.(tracker := reported.tracker.CleanupParent(req)), {req});
      }
    }
  }

  // ---- Arrivals and departures ----

  lemma {:induction false} PrewarmedOnce(req: Id, finalStage: nat, stage: nat)
    ensures NoDuplicates(Prewarmed(req, finalStage, stage))
    ensures forall h :: h in Prewarmed(req, finalStage, stage) <==> h.req == req && stage <= h.stage <= finalStage
    decreases finalStage + 1 - stage
  {
    if stage <= finalStage {
      var rest := Prewarmed(req, finalStage, stage + 1);
      PrewarmedOnce(req, finalStage, stage + 1);
      NoDuplicatesConcat([Handover(req, stage)], rest);
      forall h ensures h in [Handover(req, stage)] + rest <==> h == Handover(req, stage) || h in rest {}
    }
  }

  lemma AddedHandovers(c: Config, o: Orchestrator, req: Id, finalStage: nat, hasPromptTokens: bool)
    requires HandedOnce(o) && req !in o.used
    ensures HandedOnce(AddRequest(c, o, req, finalStage, hasPromptTokens))
  {
    var n := AddRequest(c, o, req, finalStage, hasPromptTokens);
    var prewarm := c.asyncChunk && finalStage > 0 && hasPromptTokens;
    var more := if prewarm then Prewarmed(req, finalStage, 1) else [];
    PrewarmedOnce(req, finalStage, 1);
    NoDuplicatesConcat(o.handed, [Handover(req, 0)]);
    NoDuplicatesConcat(o.handed + [Handover(req, 0)], more);
    assert n.handed == o.handed + [Handover(req, 0)] + more;
    forall r, s | r in n.requests ensures s in n.requests[r].submitted <==> Handover(r, s) in n.handed {
      assert Handover(r, s) in n.handed <==>
             Handover(r, s) in o.handed || Handover(r, s) == Handover(req, 0) || Handover(r, s) in more;
    }
  }

  lemma AddRequestKeepsInv(c: Config, o: Orchestrator, step: Step)
    requires c.WellFormed() && Inv(c, o) && Enabled(c, o, step) && step.DoAddRequest?
    ensures Inv(c, Next(c, o, step))
  {
    AddedHandovers(c, o, step.req, step.finalStage, step.hasPromptTokens);
    hide Tracker.Valid, Tracker.RolesDistinct, HandedOnce;
  }

  lemma AddCompanionKeepsHandedOnce(o: Orchestrator, parent: Id, role: Role, companion: Id)
    requires HandedOnce(o) && companion !in o.used
    ensures HandedOnce(AddCompanion(o, parent, role, companion))
  {
    var n := AddCompanion(o, parent, role, companion);
    NoDuplicatesConcat(o.handed, [Handover(companion, 0)]);
    forall r, s
      ensures Handover(r, s) in n.handed <==> Handover(r, s) in o.handed || Handover(r, s) == Handover(companion, 0)
    {
    }
  }

  lemma AddCompanionKeepsPipelined(o: Orchestrator, parent: Id, role: Role, companion: Id)
    requires Pipelined(o) && o.tracker.pending.Keys <= o.used && companion !in o.used
    ensures Pipelined(AddCompanion(o, parent, role, companion))
  {
    assert o.tracker.RegisterCompanion(parent, role, companion).pending == o.tracker.pending;
  }

  lemma AddCompanionKeepsTracker(o: Orchestrator, parent: Id, role: Role, companion: Id)
    requires TrackerConsistent(o) && companion !in o.used
    requires parent in o.tracker.companions ==> role !in o.tracker.companions[parent]
    ensures TrackerConsistent(AddCompanion(o, parent, role, companion))
  {
    RegisterCompanionKeepsValid(o.tracker, parent, role, companion);
    RegisterKeepsRolesDistinct(o.tracker, parent, role, companion);
    hide Tracker.Valid, Tracker.RolesDistinct;
  }

  lemma AddCompanionKeepsInv(c: Config, o: Orchestrator, step: Step)
    requires c.WellFormed() && Inv(c, o) && Enabled(c, o, step) && step.DoAddCompanion?
    ensures Inv(c, Next(c, o, step))
  {
    var DoAddCompanion(parent, role, companion) := step;
    AddCompanionKeepsTracker(o, parent, role, companion);
    AddCompanionKeepsHandedOnce(o, parent, role, companion);
    AddCompanionKeepsPipelined(o, parent, role, companion);
  }

  lemma UsedRequests(o: Orchestrator)
    requires HandedOnce(o)
    ensures o.requests.Keys <= o.used
  {
  }

  lemma AbortKeepsInv(c: Config, o: Orchestrator, requestIds: seq<Id>)
    requires Inv(c, o)
    ensures Inv(c, Abort(o, requestIds))
  {
    var parents := o.tracker.ParentsAmong(requestIds);
    var given := set id | id in requestIds;
    CleanupKeepsInv(c, o, parents);
    DropKeepsInv(c, o.(tracker := o.tracker.CleanupAll(parents)), given + o.tracker.CompanionsOfAll(parents));
    assert o.requests - (given + o.tracker.CompanionsOfAll(parents))
        == o.requests - given - o.tracker.CompanionsOfAll(parents);
  }

  lemma StepKeepsInv(c: Config, o: Orchestrator, step: Step)
    requires c.WellFormed() && Inv(c, o) && Enabled(c, o, step)
    ensures Inv(c, Next(c, o, step))
  {
    match step
    case DoAddRequest(_, _, _) => AddRequestKeepsInv(c, o, step);
    case DoAddCompanion(_, _, _) => AddCompanionKeepsInv(c, o, step);
    case DoAbort(requestIds) => AbortKeepsInv(c, o, requestIds);
    case DoKvReady(_, _, _, _) => KvReadyKeepsInv(c, o, step);
    case DoRoute(_, _, _, _, _) => RouteKeepsInv(c, o, step);
    case DoDiffusionError(stage, req) => DropKeepsInv(c, o.Send(Output(req, stage, true)), {req});
  }

  /** `last` is what a run of `steps` from `first` ends in. */
  ghost predicate Runs(c: Config, first: Orchestrator, steps: seq<Step>, last: Orchestrator)
    requires c.WellFormed()
    decreases |steps|
  {
    if steps == [] then last == first
    else Enabled(c, first, steps[0]) && Runs(c, Next(c, first, steps[0]), steps[1..], last)
  }

  lemma {:induction false} RunKeepsInv(c: Config, first: Orchestrator, steps: seq<Step>, last: Orchestrator)
    requires c.WellFormed() && Inv(c, first) && Runs(c, first, steps, last)
    ensures Inv(c, last)
    decreases |steps|
  {
    if steps != [] {
      StepKeepsInv(c, first, steps[0]);
      RunKeepsInv(c, Next(c, first, steps[0]), steps[1..], last);
    }
  }

  // ---- Main results ----

  /** Over every run: each stage is handed a request at most once, the stages handed to a
      live request are an initial part of its pipeline, no held-back parent could already be
      released, and with async chunks nobody is ever held back. */
  lemma EveryReachableStateIsSafe(c: Config, first: Orchestrator, steps: seq<Step>, last: Orchestrator)
    requires c.WellFormed() && Initial(first) && Runs(c, first, steps, last)
    ensures NoDuplicates(last.handed)
    ensures forall r :: r in last.requests ==> Prefix(last.requests[r])
    ensures forall p :: p in last.tracker.pending ==> last.Gated(p)
    ensures last.tracker.Inverse()
    ensures c.asyncChunk ==> last.tracker.pending == map[]
  {
    InitialInv(c, first);
    RunKeepsInv(c, first, steps, last);
  }

  // ---- Gating ----

  /** Whatever a routed output or a KV-ready signal hands on, all companions registered for
      that request are done. */
  lemma HandOversAreGated(c: Config, o: Orchestrator, step: Step, h: Handover)
    requires c.WellFormed() && Inv(c, o) && Enabled(c, o, step) && (step.DoRoute? || step.DoKvReady?)
    requires h in Next(c, o, step).handed && h !in o.handed
    ensures Next(c, o, step).tracker.AllDone(h.req)
  {
    if step.DoRoute? {
      if step.finished && o.tracker.IsCompanion(step.req) {
        CompanionHandOversAreGated(o, step.req, step.noInputs, h);
      }
    } else if step.req in o.requests && o.tracker.IsCompanion(step.req) {
      CompanionHandOversAreGated(o, step.req, step.noInputs, h);
    }
  }

  lemma CompanionHandOversAreGated(o: Orchestrator, companion: Id, noInputs: bool, h: Handover)
    requires o.tracker.Valid()
    requires h in CompanionReady(o, companion, noInputs).handed && h !in o.handed
    ensures CompanionReady(o, companion, noInputs).tracker.AllDone(h.req)
  {
    var marked := o.tracker.MarkDone(companion);
    assert o.tracker.Released(companion).Some?;
    var parent := o.tracker.Released(companion).value;
    assert marked.AllDone(parent);
    assert marked.PopPending(parent).AllDone(parent);
  }

  /** When the last companion of a held-back request reports, the request is handed on in
      that very step, unless it is gone, already handed on, or has no valid inputs. */
  lemma LastCompanionReleases(c: Config, o: Orchestrator, companion: Id, parent: Id)
    requires Inv(c, o) && parent in o.tracker.pending
    requires o.tracker.CompanionsOf(parent) - o.tracker.DoneOf(parent) == {companion}
    ensures var n := CompanionReady(o, companion, false);
            && parent !in n.tracker.pending
            && (parent in o.requests && !o.NextSubmitted(parent, o.tracker.pending[parent].stage) ==>
                  Handover(parent, o.tracker.pending[parent].stage + 1) in n.handed)
  {
    ReleasedWhenLast(o.tracker, companion, parent);
    hide Tracker.Valid, Tracker.RolesDistinct;
    var n := CompanionReady(o, companion, false);
    if parent in o.requests && !o.NextSubmitted(parent, o.tracker.pending[parent].stage) {
      assert n.handed[|o.handed|] == Handover(parent, o.tracker.pending[parent].stage + 1);
    }
  }

  /** With async chunks every stage was prewarmed with the request: nothing is handed on
      later. */
  lemma AsyncChunkHandsNothingOn(c: Config, o: Orchestrator, step: Step)
    requires c.WellFormed() && Inv(c, o) && Enabled(c, o, step) && (step.DoRoute? || step.DoKvReady?)
    requires c.asyncChunk
    ensures Next(c, o, step).handed == o.handed && Next(c, o, step).tracker.pending == map[]
  {
    hide Tracker.Valid, Tracker.RolesDistinct;
  }

  // ---- Messages ----

  ghost predicate FinishedFor(m: Message, req: Id) {
    m.Output? && m.finished && m.req == req
  }

  /** Nothing is sent for a request after its `finished` message. */
  ghost predicate NothingAfterFinished(messages: seq<Message>) {
    forall i, j :: 0 <= i < j < |messages| ==> !FinishedFor(messages[i], messages[j].req)
  }

  ghost predicate Unfinished(messages: seq<Message>, req: Id) {
    forall i :: 0 <= i < |messages| ==> !FinishedFor(messages[i], req)
  }

  ghost predicate MessagesInv(o: Orchestrator) {
    && NothingAfterFinished(o.messages)
    && (forall r :: r in o.requests ==> Unfinished(o.messages, r))
    && (forall i :: 0 <= i < |o.messages| ==> o.messages[i].req in o.used)
  }

  lemma SendKeepsMessages(o: Orchestrator, m: Message)
    requires MessagesInv(o) && m.req in o.requests && m.req in o.used
    ensures NothingAfterFinished(o.Send(m).messages)
    ensures !FinishedFor(m, m.req) ==> MessagesInv(o.Send(m))
    ensures MessagesInv(o.Send(m).Drop(m.req))
  {
  }

  lemma ForwardKeepsMessages(o: Orchestrator, req: Id, stage: nat, noInputs: bool)
    requires MessagesInv(o) && req in o.requests && req in o.used
    ensures MessagesInv(Forward(o, req, stage, noInputs))
  {
    if noInputs {
      SendKeepsMessages(o, Output(req, stage + 1, true));
    }
  }

  lemma CompanionReadyKeepsMessages(c: Config, o: Orchestrator, companion: Id, noInputs: bool)
    requires Inv(c, o) && MessagesInv(o)
    ensures MessagesInv(CompanionReady(o, companion, noInputs))
  {
    if o.tracker.Released(companion).Some? {
      var parent := o.tracker.Released(companion).value;
      var popped := o.(tracker := o.tracker.MarkDone(companion).PopPending(parent));
      if parent in o.requests {
        ForwardKeepsMessages(popped, parent, o.tracker.pending[parent].stage, noInputs);
      }
    }
  }

  lemma ReportKeepsMessages(c: Config, o: Orchestrator, stage: nat, req: Id, finished: bool)
    requires c.WellFormed() && stage < c.NumStages() && MessagesInv(o) && req in o.requests && req in o.used
    ensures finished && stage == o.requests[req].finalStage ==>
              MessagesInv(Report(c, o, stage, req, finished).Drop(req))
    ensures !(finished && stage == o.requests[req].finalStage) ==> MessagesInv(Report(c, o, stage, req, finished))
    ensures var r := Report(c, o, stage, req, finished); r == o.(messages := r.messages)
  {
    SendKeepsMessages(o, Output(req, stage, finished && stage == o.requests[req].finalStage));
    SendKeepsMessages(o, StageMetrics(req, stage));
    hide MessagesInv;
    assert FinishedFor(Output(req, stage, false), req) == false && FinishedFor(StageMetrics(req, stage), req) == false;
    DropKeepsMessages(o, req);
  }

  lemma DropKeepsMessages(o: Orchestrator, req: Id)
    requires MessagesInv(o)
    ensures MessagesInv(o.Drop(req))
  {
  }

  /** The order of the messages is no matter of the tracker. */
  lemma TrackerIsNoMessageMatter(o: Orchestrator, n: Orchestrator)
    requires MessagesInv(o) && n == o.(tracker := n.tracker)
    ensures MessagesInv(n)
  {
  }

  lemma DeferOrForwardKeepsMessages(o: Orchestrator, req: Id, stage: nat, outputs: EngineOutputs, noInputs: bool)
    requires MessagesInv(o) && req in o.requests && req in o.used
    ensures MessagesInv(DeferOrForward(o, req, stage, outputs, noInputs))
  {
    ForwardKeepsMessages(o, req, stage, noInputs);
    TrackerIsNoMessageMatter(o, o.(tracker := o.tracker.Defer(req, outputs, stage)));
  }

  lemma RouteKeepsMessages(c: Config, o: Orchestrator, step: Step)
    requires c.WellFormed() && Inv(c, o) && MessagesInv(o) && Enabled(c, o, step) && step.DoRoute?
    ensures MessagesInv(Next(c, o, step))
  {
    var DoRoute(stage, req, finished, outputs, noInputs) := step;
    UsedRequests(o);
    if finished && o.tracker.IsCompanion(req) {
      CompanionReadyKeepsMessages(c, o, req, noInputs);
      DropKeepsMessages(CompanionReady(o, req, noInputs), req);
    } else {
      assert Next(c, o, step) == Route(c, o, stage, req, finished, outputs, noInputs);
      var reported := Report(c, o, stage, req, finished);
      ReportKeepsMessages(c, o, stage, req, finished);
      hide MessagesInv, Inv, Next, Report, DeferOrForward;
      if finished && stage == o.requests[req].finalStage {
        TrackerIsNoMessageMatter(reported.Drop(req), reported.Close(req));
      } else {
        DeferOrForwardKeepsMessages(reported, req, stage, outputs, noInputs);
      }
    }
  }

  /** A diffusion error is the one terminal message sent without looking the request up:
      the order is kept exactly if no `finished` message went out for it before. */
  lemma DiffusionErrorKeepsMessages(o: Orchestrator, stage: nat, req: Id)
    requires MessagesInv(o) && req in o.used
    ensures NothingAfterFinished(DiffusionError(o, stage, req).messages) <==> Unfinished(o.messages, req)
    ensures MessagesInv(DiffusionError(o, stage, req)) <==> Unfinished(o.messages, req)
  {
    var n := DiffusionError(o, stage, req);
    if !Unfinished(o.messages, req) {
      var i :| 0 <= i < |o.messages| && FinishedFor(o.messages[i], req);
      assert FinishedFor(n.messages[i], n.messages[|o.messages|].req);
    }
  }

  /** An error of a diffusion stage comes before anything finished its request. */
  ghost predicate ErrorComesFirst(o: Orchestrator, step: Step) {
    step.DoDiffusionError? ==> Unfinished(o.messages, step.req)
  }

  lemma KvReadyKeepsMessages(c: Config, o: Orchestrator, stage: nat, req: Id, outputs: EngineOutputs, noInputs: bool)
    requires Inv(c, o) && MessagesInv(o)
    ensures MessagesInv(KvReady(c, o, stage, req, outputs, noInputs))
  {
    UsedRequests(o);
    if req in o.requests {
      CompanionReadyKeepsMessages(c, o, req, noInputs);
      DeferOrForwardKeepsMessages(o, req, stage, outputs, noInputs);
    }
  }

  /** Every handler keeps the order of messages, except exactly a diffusion error for a
      request that was finished before. */
  lemma StepKeepsMessages(c: Config, o: Orchestrator, step: Step)
    requires c.WellFormed() && Inv(c, o) && MessagesInv(o) && Enabled(c, o, step)
    ensures ErrorComesFirst(o, step) ==> MessagesInv(Next(c, o, step))
    ensures !ErrorComesFirst(o, step) ==> !NothingAfterFinished(Next(c, o, step).messages)
  {
    match step
    case DoRoute(_, _, _, _, _) => RouteKeepsMessages(c, o, step);
    case DoKvReady(stage, req, outputs, noInputs) => KvReadyKeepsMessages(c, o, stage, req, outputs, noInputs);
    case DoDiffusionError(stage, req) => DiffusionErrorKeepsMessages(o, stage, req);
    case DoAddRequest(_, _, _) =>
    case DoAddCompanion(_, _, _) =>
    case DoAbort(_) =>
  }

  ghost predicate ErrorsComeFirst(c: Config, first: Orchestrator, steps: seq<Step>)
    requires c.WellFormed()
    decreases |steps|
  {
    steps != [] && Enabled(c, first, steps[0]) ==>
      ErrorComesFirst(first, steps[0]) && ErrorsComeFirst(c, Next(c, first, steps[0]), steps[1..])
  }

  lemma MessagesGrow(c: Config, o: Orchestrator, step: Step)
    requires c.WellFormed() && Enabled(c, o, step)
    ensures o.messages <= Next(c, o, step).messages
  {
  }

  lemma {:induction false} RunGrowsMessages(c: Config, first: Orchestrator, steps: seq<Step>, last: Orchestrator)
    requires c.WellFormed() && Runs(c, first, steps, last)
    ensures first.messages <= last.messages
    decreases |steps|
  {
    if steps != [] {
      MessagesGrow(c, first, steps[0]);
      RunGrowsMessages(c, Next(c, first, steps[0]), steps[1..], last);
    }
  }

  lemma PrefixOrdered(a: seq<Message>, b: seq<Message>)
    requires a <= b && NothingAfterFinished(b)
    ensures NothingAfterFinished(a)
  {
    assert forall i :: 0 <= i < |a| ==> a[i] == b[i];
  }

  /** Over every run: each request gets at most one `finished` message and nothing after it,
      exactly if no diffusion stage reports an error for a request already finished. */
  lemma {:induction false} RunKeepsMessagesExactly(c: Config, first: Orchestrator, steps: seq<Step>, last: Orchestrator)
    requires c.WellFormed() && Inv(c, first) && MessagesInv(first) && Runs(c, first, steps, last)
    ensures NothingAfterFinished(last.messages) <==> ErrorsComeFirst(c, first, steps)
    decreases |steps|
  {
    if steps != [] {
      var n := Next(c, first, steps[0]);
      StepKeepsInv(c, first, steps[0]);
      StepKeepsMessages(c, first, steps[0]);
      hide Inv, MessagesInv, Next, Enabled, NothingAfterFinished;
      if ErrorComesFirst(first, steps[0]) {
        RunKeepsMessagesExactly(c, n, steps[1..], last);
      } else {
        RunGrowsMessages(c, n, steps[1..], last);
        if NothingAfterFinished(last.messages) { PrefixOrdered(n.messages, last.messages); }
      }
    }
  }

  lemma InitialInv(c: Config, o: Orchestrator)
    requires Initial(o)
    ensures Inv(c, o) && MessagesInv(o)
  {
    assert o.tracker.Valid() && o.tracker.RolesDistinct();
  }

  /** A run of three steps that finishes a request twice: with async chunks it is handed to
      all stages at once, and two diffusion stages each report an error for it. */
  lemma RunThatFinishesTwice(c: Config, first: Orchestrator, req: Id, finalStage: nat, i: nat, j: nat)
    requires c.WellFormed() && Initial(first) && c.asyncChunk && 1 <= i < j <= finalStage < c.NumStages()
    requires c.isDiffusion[i] && c.isDiffusion[j]
    ensures exists last ::
              && Runs(c, first, [DoAddRequest(req, finalStage, true), DoDiffusionError(i, req),
                                 DoDiffusionError(j, req)], last)
              && !NothingAfterFinished(last.messages)
  {
    var a, d, e := DoAddRequest(req, finalStage, true), DoDiffusionError(i, req), DoDiffusionError(j, req);
    InitialInv(c, first);
    PrewarmedEverywhere(c, first, req, finalStage);
    var o1 := Next(c, first, a);
    TwoErrors(c, o1, req, i, j);
    var o2 := Next(c, o1, d);
    var o3 := Next(c, o2, e);
    hide Next, Enabled, Inv, NothingAfterFinished;
    assert [a, d, e][1..] == [d, e] && [d, e][1..] == [e] && [e][1..] == [];
    assert Runs(c, o3, [], o3);
    assert Runs(c, o2, [e], o3);
    assert Runs(c, o1, [d, e], o3);
    assert Runs(c, first, [a, d, e], o3);
  }

  lemma PrewarmedEverywhere(c: Config, o: Orchestrator, req: Id, finalStage: nat)
    requires c.WellFormed() && Inv(c, o) && c.asyncChunk && 0 < finalStage < c.NumStages() && req !in o.used
    ensures Enabled(c, o, DoAddRequest(req, finalStage, true))
    ensures var n := Next(c, o, DoAddRequest(req, finalStage, true));
            n.messages == o.messages && forall s: nat :: s <= finalStage ==> Handover(req, s) in n.handed
  {
    StepKeepsInv(c, o, DoAddRequest(req, finalStage, true));
    var n := Next(c, o, DoAddRequest(req, finalStage, true));
    assert n.requests[req].submitted == UpTo(finalStage);
  }

  lemma TwoErrors(c: Config, o: Orchestrator, req: Id, i: nat, j: nat)
    requires c.WellFormed() && o.messages == [] && i < c.NumStages() && j < c.NumStages()
    requires c.isDiffusion[i] && c.isDiffusion[j] && Handover(req, i) in o.handed && Handover(req, j) in o.handed
    ensures Enabled(c, o, DoDiffusionError(i, req))
    ensures var n := Next(c, o, DoDiffusionError(i, req));
            && Enabled(c, n, DoDiffusionError(j, req))
            && !NothingAfterFinished(Next(c, n, DoDiffusionError(j, req)).messages)
  {
    var o3 := Next(c, Next(c, o, DoDiffusionError(i, req)), DoDiffusionError(j, req));
    assert o3.messages == [Output(req, i, true), Output(req, j, true)];
    assert FinishedFor(o3.messages[0], o3.messages[1].req);
  }

  // ---- Death of a stage ----

  /** The requests the polling loop tells that a stage died. */
  function SubmittedTo(o: Orchestrator, stage: nat): set<Id> {
    set r | r in o.requests && stage in o.requests[r].submitted
  }

  /** One fatal message for each member of a set, in some order. */
  ghost predicate OneErrorEach(sent: seq<Message>, ids: set<Id>, stage: nat) {
    && NoDuplicates(sent)
    && forall m :: m in sent <==> m.FatalError? && m.stage == stage && m.req in ids
  }

  /** How the polling loop ends when a stage is dead. */
  ghost predicate LoopNotifies(before: Orchestrator, after: Orchestrator, stage: nat, sent: seq<Message>) {
    && after == before.(messages := before.messages + sent, requests := before.requests - SubmittedTo(before, stage))
    && OneErrorEach(sent, SubmittedTo(before, stage), stage)
  }

  function QueuedErrors(queued: seq<Id>, stage: nat): seq<Message> {
    if queued == [] then [] else [FatalError(queued[0], stage)] + QueuedErrors(queued[1..], stage)
  }

  /** What `_drain_pending_requests_on_fatal` does with the add_request messages still
      queued and the requests still tracked. */
  ghost predicate DrainNotifies(before: Orchestrator, after: Orchestrator, queued: seq<Id>, stage: nat,
                                rest: seq<Message>) {
    && after == before.(messages := before.messages + QueuedErrors(queued, stage) + rest, requests := map[])
    && OneErrorEach(rest, before.requests.Keys - (set r | r in queued), stage)
  }

  lemma {:induction false} QueuedErrorCount(queued: seq<Id>, stage: nat, req: Id)
    ensures multiset(QueuedErrors(queued, stage))[FatalError(req, stage)] == multiset(queued)[req]
  {
    if queued != [] {
      QueuedErrorCount(queued[1..], stage, req);
      assert queued == [queued[0]] + queued[1..];
    }
  }

  lemma {:induction false} CountWithoutDuplicates<T>(s: seq<T>, x: T)
    requires NoDuplicates(s)
    ensures multiset(s)[x] == if x in s then 1 else 0
  {
    if s != [] {
      CountWithoutDuplicates(s[1..], x);
      assert s == [s[0]] + s[1..];
    }
  }

  lemma CountInTwo<T>(a: seq<T>, b: seq<T>, x: T)
    ensures multiset(a + b)[x] == multiset(a)[x] + multiset(b)[x]
  {
  }

  // ---- From the death of a stage to the drain ----

  /** The notifying loop awaits between its messages, and the request handler lives on until
      the drain: requests and companions may be added, and requests aborted, at any point. */
  datatype DyingStep = Told(req: Id) | Handled(step: Step)

  predicate OfRequestHandler(step: Step) {
    step.DoAddRequest? || step.DoAddCompanion? || step.DoAbort?
  }

  function Tell(o: Orchestrator, req: Id, stage: nat): Orchestrator {
    o.Send(FatalError(req, stage)).Drop(req)
  }

  /** `left` are the requests the loop still has to tell; it tells each of them once. */
  ghost predicate Dies(c: Config, o: Orchestrator, steps: seq<DyingStep>, stage: nat, left: set<Id>, last: Orchestrator)
    requires c.WellFormed()
    decreases |steps|
  {
    if steps == [] then left == {} && last == o
    else match steps[0]
      case Told(req) => req in left && Dies(c, Tell(o, req, stage), steps[1..], stage, left - {req}, last)
      case Handled(step) =>
        OfRequestHandler(step) && Enabled(c, o, step) && Dies(c, Next(c, o, step), steps[1..], stage, left, last)
  }

  /** No abort of the run takes the request away. */
  ghost predicate Spared(c: Config, o: Orchestrator, steps: seq<DyingStep>, stage: nat, req: Id)
    requires c.WellFormed()
    decreases |steps|
  {
    steps == [] ||
    match steps[0]
    case Told(told) => Spared(c, Tell(o, told, stage), steps[1..], stage, req)
    case Handled(step) =>
      Enabled(c, o, step) ==>
        && (step.DoAbort? && req in o.requests ==> req in Next(c, o, step).requests)
        && Spared(c, Next(c, o, step), steps[1..], stage, req)
  }

  lemma HandlerSendsNothing(c: Config, o: Orchestrator, step: Step)
    requires c.WellFormed() && Enabled(c, o, step) && OfRequestHandler(step)
    ensures Next(c, o, step).messages == o.messages && o.used <= Next(c, o, step).used
    ensures forall r :: r in Next(c, o, step).requests ==> r in o.requests || r !in o.used
    ensures forall r :: r in o.requests && !step.DoAbort? ==> r in Next(c, o, step).requests
  {
  }

  lemma ErrorThenErrors(sent: seq<Message>, left: set<Id>, stage: nat, req: Id)
    requires req in left && OneErrorEach(sent, left - {req}, stage)
    ensures OneErrorEach([FatalError(req, stage)] + sent, left, stage)
  {
    var m := FatalError(req, stage);
    NoDuplicatesConcat([m], sent);
    assert forall x :: x in [m] + sent <==> x == m || x in sent;
  }

  /** Whatever the request handler does meanwhile, the loop sends one error to each request
      it found submitted to the dead stage, and none of them is tracked at the drain. */
  lemma {:induction false} DyingTells(c: Config, o: Orchestrator, steps: seq<DyingStep>, stage: nat, left: set<Id>,
                                      last: Orchestrator)
    returns (sent: seq<Message>)
    requires c.WellFormed() && Dies(c, o, steps, stage, left, last)
    requires left <= o.used && o.requests.Keys <= o.used
    ensures last.messages == o.messages + sent && OneErrorEach(sent, left, stage)
    ensures forall r :: r in left ==> r !in last.requests
    decreases |steps|
  {
    if steps == [] {
      sent := [];
      assert o.messages + [] == o.messages;
    } else {
      match steps[0] {
        case Told(req) =>
          var n := Tell(o, req, stage);
          var rest := DyingTells(c, n, steps[1..], stage, left - {req}, last);
          sent := [FatalError(req, stage)] + rest;
          assert n.messages + rest == o.messages + sent;
          hide OneErrorEach;
          ErrorThenErrors(rest, left, stage, req);
          GoneStaysGone(c, n, steps[1..], stage, left - {req}, last, req);
        case Handled(step) =>
          HandlerSendsNothing(c, o, step);
          StillUsed(c, o, step);
          hide Next, Enabled, OneErrorEach;
          sent := DyingTells(c, Next(c, o, step), steps[1..], stage, left, last);
      }
    }
  }

  lemma StillUsed(c: Config, o: Orchestrator, step: Step)
    requires c.WellFormed() && Enabled(c, o, step) && OfRequestHandler(step) && o.requests.Keys <= o.used
    ensures Next(c, o, step).requests.Keys <= Next(c, o, step).used
  {
  }

  lemma {:induction false} GoneStaysGone(c: Config, o: Orchestrator, steps: seq<DyingStep>, stage: nat, left: set<Id>,
                                         last: Orchestrator, req: Id)
    requires c.WellFormed() && Dies(c, o, steps, stage, left, last) && req in o.used && req !in o.requests
    ensures req !in last.requests
    decreases |steps|
  {
    if steps != [] {
      match steps[0]
      case Told(told) => GoneStaysGone(c, Tell(o, told, stage), steps[1..], stage, left - {told}, last, req);
      case Handled(step) =>
        HandlerSendsNothing(c, o, step);
        hide Next, Enabled;
        GoneStaysGone(c, Next(c, o, step), steps[1..], stage, left, last, req);
    }
  }

  lemma {:induction false} SparedStaysTracked(c: Config, o: Orchestrator, steps: seq<DyingStep>, stage: nat,
                                              left: set<Id>,
                                              last: Orchestrator, req: Id)
    requires c.WellFormed() && Dies(c, o, steps, stage, left, last)
    requires req in o.requests && req !in left && Spared(c, o, steps, stage, req)
    ensures req in last.requests
    decreases |steps|
  {
    if steps != [] {
      match steps[0]
      case Told(told) => SparedStaysTracked(c, Tell(o, told, stage), steps[1..], stage, left - {told}, last, req);
      case Handled(step) =>
        HandlerSendsNothing(c, o, step);
        hide Next, Enabled;
        SparedStaysTracked(c, Next(c, o, step), steps[1..], stage, left, last, req);
    }
  }

  /** The fatal messages from the death of a stage to the end of the drain, counted exactly:
      one for a request the loop found submitted to the stage, one for each time it is still
      queued at the drain, else one if it is tracked then.  Nothing stays tracked, and nobody
      who was tracked or queued is left out, unless an abort took the request away. */
  lemma FatalReachesEveryone(c: Config, o: Orchestrator, steps: seq<DyingStep>, stage: nat, d: Orchestrator,
                             last: Orchestrator, queued: seq<Id>, rest: seq<Message>, req: Id)
    returns (fatal: seq<Message>)
    requires c.WellFormed() && Inv(c, o) && Dies(c, o, steps, stage, SubmittedTo(o, stage), d)
    requires DrainNotifies(d, last, queued, stage, rest)
    ensures last.requests == map[] && last.messages == o.messages + fatal
    ensures multiset(fatal)[FatalError(req, stage)]
            == (if req in SubmittedTo(o, stage) then 1 else 0)
             + (if req in queued then multiset(queued)[req] else if req in d.requests then 1 else 0)
    ensures req in queued || (req in o.requests && Spared(c, o, steps, stage, req)) ==>
              multiset(fatal)[FatalError(req, stage)] >= 1
  {
    var m := FatalError(req, stage);
    var errors := QueuedErrors(queued, stage);
    UsedRequests(o);
    var sent := DyingTells(c, o, steps, stage, SubmittedTo(o, stage), d);
    fatal := sent + (errors + rest);
    MessagesOfDrain(o.messages, sent, errors, rest);
    CountInTwo(sent, errors + rest, m);
    CountInTwo(errors, rest, m);
    QueuedErrorCount(queued, stage, req);
    CountWithoutDuplicates(sent, m);
    CountWithoutDuplicates(rest, m);
    if req in o.requests && req !in SubmittedTo(o, stage) && Spared(c, o, steps, stage, req) {
      SparedStaysTracked(c, o, steps, stage, SubmittedTo(o, stage), d, req);
    }
    hide Dies, QueuedErrors, SubmittedTo, Inv;
    assert m in rest <==> req in d.requests.Keys - (set r | r in queued);
    assert req in queued <==> multiset(queued)[req] > 0;
  }

  lemma MessagesOfDrain(before: seq<Message>, sent: seq<Message>, errors: seq<Message>, rest: seq<Message>)
    ensures (before + sent) + errors + rest == before + (sent + (errors + rest))
  {
  }

  /** The loop alone, without the handler in between, is one way to die. */
  lemma {:induction false} LoopIsDying(c: Config, o: Orchestrator, looped: Orchestrator, stage: nat, left: set<Id>,
                                       sent: seq<Message>)
    requires c.WellFormed() && OneErrorEach(sent, left, stage)
    requires looped == o.(messages := o.messages + sent, requests := o.requests - left)
    ensures exists steps :: Dies(c, o, steps, stage, left, looped)
    decreases |sent|
  {
    if sent == [] {
      assert forall r :: r in left ==> FatalError(r, stage) in sent;
      assert left == {};
      assert o.requests - left == o.requests && o.messages + sent == o.messages;
      assert Dies(c, o, [], stage, left, looped);
    } else {
      var req := sent[0].req;
      assert sent[0] in sent;
      ErrorsAfterFirst(sent, left, stage);
      var n := Tell(o, req, stage);
      assert n.messages + sent[1..] == o.messages + sent;
      assert n.requests - (left - {req}) == o.requests - left;
      LoopIsDying(c, n, looped, stage, left - {req}, sent[1..]);
      var steps :| Dies(c, n, steps, stage, left - {req}, looped);
      assert ([Told(req)] + steps)[1..] == steps;
      assert Dies(c, o, [Told(req)] + steps, stage, left, looped);
    }
  }

  lemma ErrorsAfterFirst(sent: seq<Message>, left: set<Id>, stage: nat)
    requires sent != [] && OneErrorEach(sent, left, stage)
    ensures sent[0] == FatalError(sent[0].req, stage) && sent[0].req in left
    ensures OneErrorEach(sent[1..], left - {sent[0].req}, stage)
  {
    assert sent[0] in sent && sent == [sent[0]] + sent[1..];
    forall m ensures m in sent[1..] <==> m.FatalError? && m.stage == stage && m.req in left - {sent[0].req} {
      assert m in sent <==> m == sent[0] || m in sent[1..];
    }
  }
}
