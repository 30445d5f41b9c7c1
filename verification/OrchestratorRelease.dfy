/**
 When a request that is held back for its companions can still be handed on: exactly as long
 as the orchestrator still tracks every companion it waits for.
 */
module OrchestratorRelease {
  import opened Common
  import opened CfgCompanionTracking
  import opened OrchestratorState
  import opened OrchestratorSafety

  /** The companions a request still waits for. */
  function Missing(o: Orchestrator, parent: Id): set<Id> {
    o.tracker.CompanionsOf(parent) - o.tracker.DoneOf(parent)
  }

  // ---- A companion that is gone ----

  /** Held back for a companion nobody tracks any more. */
  ghost predicate Stuck(o: Orchestrator, parent: Id, companion: Id) {
    companion in Missing(o, parent) && companion !in o.requests && companion in o.used
  }

  /** Stuck, or gone itself. */
  ghost predicate NeverAgain(o: Orchestrator, parent: Id, companion: Id) {
    parent in o.used && (Stuck(o, parent, companion) || parent !in o.requests)
  }

  ghost predicate HandsOn(before: Orchestrator, after: Orchestrator, req: Id) {
    exists s :: Handover(req, s) in after.handed && Handover(req, s) !in before.handed
  }

  /** Marking another companion done, or handing another request on, keeps it stuck. */
  lemma MarkOtherKeepsMissing(o: Orchestrator, parent: Id, companion: Id, other: Id)
    requires o.tracker.Valid() && companion in Missing(o, parent) && other != companion
    ensures companion in Missing(o.(tracker := o.tracker.MarkDone(other)), parent)
  {
  }

  lemma ForwardKeepsStuck(o: Orchestrator, req: Id, stage: nat, noInputs: bool, parent: Id, companion: Id)
    requires o.tracker.Valid() && Stuck(o, parent, companion) && req in o.requests && req != parent
    ensures Stuck(Forward(o, req, stage, noInputs), parent, companion)
    ensures !HandsOn(o, Forward(o, req, stage, noInputs), parent)
  {
    if noInputs { CleanupLeavesNoTrace(o.tracker, {req}, req); }
  }

  lemma CompanionReadyKeepsStuck(o: Orchestrator, other: Id, noInputs: bool, parent: Id, companion: Id)
    requires o.tracker.Valid() && Stuck(o, parent, companion) && other in o.requests
    ensures Stuck(CompanionReady(o, other, noInputs), parent, companion)
    ensures !HandsOn(o, CompanionReady(o, other, noInputs), parent)
    ensures CompanionReady(o, other, noInputs).tracker.Valid()
  {
    CompletionKeepsValid(o.tracker, other);
    MarkOtherKeepsMissing(o, parent, companion, other);
    var marked := o.(tracker := o.tracker.MarkDone(other));
    if o.tracker.Released(other).Some? {
      var released := o.tracker.Released(other).value;
      ReleasedWhenLast(o.tracker, other, released);
      var popped := marked.(tracker := marked.tracker.PopPending(released));
      assert Stuck(popped, parent, companion);
      if released in o.requests && !o.NextSubmitted(released, o.tracker.pending[released].stage) {
        ForwardKeepsStuck(popped, released, o.tracker.pending[released].stage, noInputs, parent, companion);
        CleanupKeepsValid(popped.tracker, {released});
      }
    }
  }

  lemma CleanupKeepsMissing(o: Orchestrator, parents: set<Id>, parent: Id)
    requires o.tracker.Valid() && parent !in parents
    ensures Missing(o.(tracker := o.tracker.CleanupAll(parents)), parent) == Missing(o, parent)
  {
    CompanionsAfterCleanup(o.tracker, parents, parent);
  }

  lemma MissingLooksAtTracker(o: Orchestrator, n: Orchestrator, parent: Id)
    requires n.tracker.companions == o.tracker.companions && n.tracker.done == o.tracker.done
    ensures Missing(n, parent) == Missing(o, parent)
  {
  }

  lemma StuckIsGated(o: Orchestrator, parent: Id, companion: Id)
    requires Stuck(o, parent, companion)
    ensures o.Gated(parent)
  {
  }

  /** Deferring or handing on, whoever's turn it is. */
  lemma DeferOrForwardKeepsStuck(o: Orchestrator, req: Id, stage: nat, outputs: EngineOutputs, noInputs: bool,
                                 parent: Id, companion: Id)
    requires o.tracker.Valid() && Stuck(o, parent, companion) && req in o.requests
    ensures Stuck(DeferOrForward(o, req, stage, outputs, noInputs), parent, companion)
    ensures !HandsOn(o, DeferOrForward(o, req, stage, outputs, noInputs), parent)
  {
    if o.Gated(req) {
      MissingLooksAtTracker(o, o.(tracker := o.tracker.Defer(req, outputs, stage)), parent);
    } else {
      StuckIsGated(o, parent, companion);
      ForwardKeepsStuck(o, req, stage, noInputs, parent, companion);
    }
  }

  lemma DropKeepsNeverAgain(o: Orchestrator, req: Id, parent: Id, companion: Id)
    requires NeverAgain(o, parent, companion)
    ensures NeverAgain(o.Drop(req), parent, companion)
  {
    MissingLooksAtTracker(o, o.Drop(req), parent);
  }

  lemma CloseKeepsNeverAgain(o: Orchestrator, req: Id, parent: Id, companion: Id)
    requires o.tracker.Valid() && NeverAgain(o, parent, companion)
    ensures NeverAgain(o.Close(req), parent, companion)
  {
    if req != parent && Stuck(o, parent, companion) { CleanupKeepsMissing(o, {req}, parent); }
  }

  lemma KvReadyNeverAgain(c: Config, o: Orchestrator, stage: nat, req: Id, outputs: EngineOutputs, noInputs: bool,
                          parent: Id, companion: Id)
    requires o.tracker.Valid() && Stuck(o, parent, companion)
    ensures Stuck(KvReady(c, o, stage, req, outputs, noInputs), parent, companion)
    ensures !HandsOn(o, KvReady(c, o, stage, req, outputs, noInputs), parent)
  {
    if req in o.requests {
      if o.tracker.IsCompanion(req) {
        CompanionReadyKeepsStuck(o, req, noInputs, parent, companion);
      } else {
        DeferOrForwardKeepsStuck(o, req, stage, outputs, noInputs, parent, companion);
      }
    }
  }

  lemma ReportLeavesTables(c: Config, o: Orchestrator, stage: nat, req: Id, finished: bool)
    requires c.WellFormed() && stage < c.NumStages() && req in o.requests
    ensures var r := Report(c, o, stage, req, finished); r == o.(messages := r.messages)
  {
  }

  lemma RouteNeverAgain(c: Config, o: Orchestrator, step: Step, parent: Id, companion: Id)
    requires c.WellFormed() && Inv(c, o) && Enabled(c, o, step) && step.DoRoute?
    requires Stuck(o, parent, companion) && parent in o.used
    ensures NeverAgain(Next(c, o, step), parent, companion) && !HandsOn(o, Next(c, o, step), parent)
  {
    var DoRoute(stage, req, finished, outputs, noInputs) := step;
    assert o.tracker.Valid();
    if finished && o.tracker.IsCompanion(req) {
      CompanionReadyKeepsStuck(o, req, noInputs, parent, companion);
      UsedGrows(o, req, noInputs);
      DropKeepsNeverAgain(CompanionReady(o, req, noInputs), req, parent, companion);
    } else {
      var reported := Report(c, o, stage, req, finished);
      ReportLeavesTables(c, o, stage, req, finished);
      MissingLooksAtTracker(o, reported, parent);
      assert Stuck(reported, parent, companion);
      hide Inv, Report;
      DeferOrForwardKeepsStuck(reported, req, stage, outputs, noInputs, parent, companion);
      CloseKeepsNeverAgain(reported, req, parent, companion);
    }
  }

  lemma UsedGrows(o: Orchestrator, other: Id, noInputs: bool)
    ensures CompanionReady(o, other, noInputs).used == o.used
  {
  }

  lemma AbortNeverAgain(c: Config, o: Orchestrator, requestIds: seq<Id>, parent: Id, companion: Id)
    requires o.tracker.Valid() && Stuck(o, parent, companion) && parent in o.used
    ensures NeverAgain(Abort(o, requestIds), parent, companion) && !HandsOn(o, Abort(o, requestIds), parent)
  {
    var parents := o.tracker.ParentsAmong(requestIds);
    if parent !in requestIds { CleanupKeepsMissing(o, parents, parent); }
  }

  lemma AddNeverAgain(c: Config, o: Orchestrator, step: Step, parent: Id, companion: Id)
    requires c.WellFormed() && Inv(c, o) && Enabled(c, o, step) && (step.DoAddRequest? || step.DoAddCompanion?)
    requires Stuck(o, parent, companion) && parent in o.used
    ensures NeverAgain(Next(c, o, step), parent, companion) && !HandsOn(o, Next(c, o, step), parent)
  {
    if step.DoAddRequest? {
      MissingLooksAtTracker(o, Next(c, o, step), parent);
      PrewarmedOnce(step.req, step.finalStage, 1);
    } else {
      CompanionsAfterRegister(o.tracker, step.parent, step.role, step.companion);
    }
  }

  /** A request held back for a companion that is gone is never handed on, as long as it is
      there. */
  lemma StepNeverAgain(c: Config, o: Orchestrator, step: Step, parent: Id, companion: Id)
    requires c.WellFormed() && Inv(c, o) && Enabled(c, o, step) && NeverAgain(o, parent, companion)
    ensures NeverAgain(Next(c, o, step), parent, companion) && !HandsOn(o, Next(c, o, step), parent)
  {
    if parent !in o.requests {
      StepLeavesGone(c, o, step, parent);
    } else {
      match step
      case DoAddRequest(_, _, _) => AddNeverAgain(c, o, step, parent, companion);
      case DoAddCompanion(_, _, _) => AddNeverAgain(c, o, step, parent, companion);
      case DoAbort(requestIds) => AbortNeverAgain(c, o, requestIds, parent, companion);
      case DoKvReady(stage, req, outputs, noInputs) =>
        KvReadyNeverAgain(c, o, stage, req, outputs, noInputs, parent, companion);
        StepKeepsUsed(c, o, step);
      case DoRoute(_, _, _, _, _) => RouteNeverAgain(c, o, step, parent, companion);
      case DoDiffusionError(stage, req) =>
        var sent := o.Send(Output(req, stage, true));
        MissingLooksAtTracker(o, sent, parent);
        DropKeepsNeverAgain(sent, req, parent, companion);
    }
  }

  lemma StepKeepsUsed(c: Config, o: Orchestrator, step: Step)
    requires c.WellFormed() && Enabled(c, o, step)
    ensures o.used <= Next(c, o, step).used
  {
  }

  lemma StepLeavesGone(c: Config, o: Orchestrator, step: Step, parent: Id)
    requires c.WellFormed() && Enabled(c, o, step) && parent !in o.requests && parent in o.used
    ensures var n := Next(c, o, step); parent !in n.requests && parent in n.used && !HandsOn(o, n, parent)
  {
    if step.DoAddRequest? { PrewarmedOnce(step.req, step.finalStage, 1); }
  }

  lemma HandsOnSplits(a: Orchestrator, b: Orchestrator, c: Orchestrator, req: Id)
    ensures HandsOn(a, c, req) ==> HandsOn(a, b, req) || HandsOn(b, c, req)
  {
  }

  lemma {:induction false} RunNeverAgain(c: Config, first: Orchestrator, steps: seq<Step>, last: Orchestrator,
                                         parent: Id, companion: Id)
    requires c.WellFormed() && Inv(c, first) && Runs(c, first, steps, last) && NeverAgain(first, parent, companion)
    ensures !HandsOn(first, last, parent)
    decreases |steps|
  {
    if steps != [] {
      var n := Next(c, first, steps[0]);
      StepKeepsInv(c, first, steps[0]);
      StepNeverAgain(c, first, steps[0], parent, companion);
      hide Next, Enabled, NeverAgain, Inv;
      RunNeverAgain(c, n, steps[1..], last, parent, companion);
      HandsOnSplits(first, n, last, parent);
    }
  }

  // ---- As long as all are there ----

  /** Nobody is its own companion. */
  ghost predicate NobodysOwn(t: Tracker) {
    forall p :: p !in t.CompanionsOf(p)
  }

  /** No companion table gains a member but by registration. */
  ghost predicate NoNewCompanions(before: Tracker, after: Tracker) {
    forall p :: after.CompanionsOf(p) <= before.CompanionsOf(p)
  }

  lemma CleanupAddsNone(t: Tracker, parents: set<Id>)
    ensures NoNewCompanions(t, t.CleanupAll(parents))
  {
    forall p ensures t.CleanupAll(parents).CompanionsOf(p) <= t.CompanionsOf(p) {
      CompanionsAfterCleanup(t, parents, p);
    }
  }

  lemma CompanionReadyAddsNone(o: Orchestrator, req: Id, noInputs: bool)
    ensures NoNewCompanions(o.tracker, CompanionReady(o, req, noInputs).tracker)
  {
    TrackerSteps(o.tracker, req);
    hide Tracker.MarkDone, Tracker.CleanupAll, NoNewCompanions;
  }

  lemma DeferOrForwardAddsNone(o: Orchestrator, req: Id, stage: nat, outputs: EngineOutputs, noInputs: bool)
    requires req in o.requests
    ensures NoNewCompanions(o.tracker, DeferOrForward(o, req, stage, outputs, noInputs).tracker)
  {
    CleanupAddsNone(o.tracker, {req});
    assert NoNewCompanions(o.tracker, o.tracker);
    assert NoNewCompanions(o.tracker, o.tracker.Defer(req, outputs, stage));
    hide Tracker.CleanupAll, NoNewCompanions, Tracker.Defer;
  }

  lemma RouteAddsNone(c: Config, o: Orchestrator, stage: nat, req: Id, finished: bool, outputs: EngineOutputs,
                      noInputs: bool)
    requires c.WellFormed() && req in o.requests && stage < c.NumStages()
    ensures NoNewCompanions(o.tracker, Route(c, o, stage, req, finished, outputs, noInputs).tracker)
  {
    CompanionReadyAddsNone(o, req, noInputs);
    ReportLeavesTables(c, o, stage, req, finished);
    DeferOrForwardAddsNone(Report(c, o, stage, req, finished), req, stage, outputs, noInputs);
    CleanupAddsNone(o.tracker, {req});
    assert NoNewCompanions(o.tracker, o.tracker);
    hide Tracker.CleanupAll, NoNewCompanions, CompanionReady, DeferOrForward, Report;
  }

  lemma StepAddsNone(c: Config, o: Orchestrator, step: Step)
    requires c.WellFormed() && Enabled(c, o, step) && !step.DoAddCompanion?
    ensures NoNewCompanions(o.tracker, Next(c, o, step).tracker)
  {
    assert NoNewCompanions(o.tracker, o.tracker);
    match step
    case DoAbort(requestIds) => CleanupAddsNone(o.tracker, o.tracker.ParentsAmong(requestIds));
    case DoRoute(stage, req, finished, outputs, noInputs) =>
      RouteAddsNone(c, o, stage, req, finished, outputs, noInputs);
    case DoKvReady(stage, req, outputs, noInputs) =>
      if req in o.requests {
        CompanionReadyAddsNone(o, req, noInputs);
        DeferOrForwardAddsNone(o, req, stage, outputs, noInputs);
      }
      hide NoNewCompanions, CompanionReady, DeferOrForward;
    case DoAddRequest(_, _, _) =>
    case DoDiffusionError(_, _) =>
  }

  lemma TrackerSteps(t: Tracker, req: Id)
    ensures NoNewCompanions(t, t.MarkDone(req)) && NoNewCompanions(t, t.CleanupParent(req))
    ensures forall p :: NoNewCompanions(t, t.MarkDone(req).PopPending(p))
    ensures forall p :: NoNewCompanions(t, t.MarkDone(req).PopPending(p).CleanupParent(p))
  {
    CleanupAddsNone(t, {req});
    forall p ensures NoNewCompanions(t, t.MarkDone(req).PopPending(p).CleanupParent(p)) {
      CleanupAddsNone(t.MarkDone(req).PopPending(p), {p});
      assert forall q :: t.MarkDone(req).PopPending(p).CompanionsOf(q) == t.CompanionsOf(q);
    }
  }

  lemma RegisterKeepsNobodysOwn(t: Tracker, parent: Id, role: Role, companion: Id)
    requires t.Inverse() && t.RolesDistinct() && NobodysOwn(t) && companion !in t.ids && companion != parent
    ensures NobodysOwn(t.RegisterCompanion(parent, role, companion))
  {
    if companion in t.CompanionsOf(parent) { OwnerOf(t, parent, companion); }
    hide Tracker.Inverse;
    CompanionsAfterRegister(t, parent, role, companion);
    var n := t.RegisterCompanion(parent, role, companion);
    hide Tracker.RegisterCompanion, ValuesAt, Tracker.RolesDistinct;
    forall p ensures p !in n.CompanionsOf(p) { assert p !in t.CompanionsOf(p); }
  }

  lemma StepKeepsNobodysOwn(c: Config, o: Orchestrator, step: Step)
    requires c.WellFormed() && Inv(c, o) && Enabled(c, o, step) && NobodysOwn(o.tracker)
    ensures NobodysOwn(Next(c, o, step).tracker)
  {
    if step.DoAddCompanion? {
      RegisterKeepsNobodysOwn(o.tracker, step.parent, step.role, step.companion);
    } else {
      StepAddsNone(c, o, step);
    }
  }

  lemma {:induction false} RunKeepsNobodysOwn(c: Config, first: Orchestrator, steps: seq<Step>, last: Orchestrator)
    requires c.WellFormed() && Inv(c, first) && Runs(c, first, steps, last) && NobodysOwn(first.tracker)
    ensures NobodysOwn(last.tracker)
    decreases |steps|
  {
    if steps != [] {
      StepKeepsInv(c, first, steps[0]);
      StepKeepsNobodysOwn(c, first, steps[0]);
      RunKeepsNobodysOwn(c, Next(c, first, steps[0]), steps[1..], last);
    }
  }

  lemma MissingIsTracked(c: Config, o: Orchestrator, parent: Id, companion: Id)
    requires Inv(c, o) && NobodysOwn(o.tracker) && companion in Missing(o, parent)
    ensures companion in o.tracker.ids && companion in o.used && companion != parent
    ensures o.tracker.IsCompanion(companion)
    ensures companion in o.requests ==> Handover(companion, 0) in o.handed
  {
    OwnerOf(o.tracker, parent, companion);
  }

  function Finishing(companion: Id, outputs: EngineOutputs): Step {
    DoRoute(0, companion, true, outputs, false)
  }

  lemma CompanionFinishes(c: Config, o: Orchestrator, parent: Id, companion: Id, outputs: EngineOutputs)
    requires c.WellFormed() && 0 < c.NumStages() && Inv(c, o) && NobodysOwn(o.tracker)
    requires parent in o.tracker.pending && parent in o.requests
    requires companion in Missing(o, parent) && companion in o.requests && Missing(o, parent) != {companion}
    ensures Enabled(c, o, Finishing(companion, outputs))
    ensures var n := Next(c, o, Finishing(companion, outputs));
            && Inv(c, n) && NobodysOwn(n.tracker) && Missing(n, parent) == Missing(o, parent) - {companion}
            && n.requests == o.requests - {companion} && n.handed == o.handed
            && parent in n.tracker.pending && n.tracker.pending[parent] == o.tracker.pending[parent]
  {
    MissingIsTracked(c, o, parent, companion);
    NotYetReleased(o.tracker, parent, companion);
    FinishingIs(c, o, companion, outputs);
    hide Next, Enabled, Inv, NobodysOwn, Tracker.MarkDone, Tracker.IsCompanion;
    StepKeepsInv(c, o, Finishing(companion, outputs));
    StepKeepsNobodysOwn(c, o, Finishing(companion, outputs));
  }

  lemma NotYetReleased(t: Tracker, parent: Id, companion: Id)
    requires t.Valid() && companion in t.CompanionsOf(parent) - t.DoneOf(parent)
    requires t.CompanionsOf(parent) - t.DoneOf(parent) != {companion}
    ensures t.Released(companion).None? && t.MarkDone(companion).pending == t.pending
    ensures var n := t.MarkDone(companion);
            n.CompanionsOf(parent) - n.DoneOf(parent) == t.CompanionsOf(parent) - t.DoneOf(parent) - {companion}
  {
    OwnerOf(t, parent, companion);
    ReleasedWhenLast(t, companion, parent);
  }

  lemma FinishingIs(c: Config, o: Orchestrator, companion: Id, outputs: EngineOutputs)
    requires c.WellFormed() && 0 < c.NumStages() && companion in o.requests && Handover(companion, 0) in o.handed
    requires o.tracker.IsCompanion(companion) && o.tracker.Released(companion).None?
    ensures Enabled(c, o, Finishing(companion, outputs))
    ensures Next(c, o, Finishing(companion, outputs))
            == o.(tracker := o.tracker.MarkDone(companion), requests := o.requests - {companion})
  {
  }

  lemma LastCompanionFinishes(c: Config, o: Orchestrator, parent: Id, companion: Id, outputs: EngineOutputs)
    requires c.WellFormed() && 0 < c.NumStages() && Inv(c, o) && NobodysOwn(o.tracker)
    requires parent in o.tracker.pending && parent in o.requests
    requires !o.NextSubmitted(parent, o.tracker.pending[parent].stage)
    requires companion in o.requests && Missing(o, parent) == {companion}
    ensures Enabled(c, o, Finishing(companion, outputs))
    ensures HandsOn(o, Next(c, o, Finishing(companion, outputs)), parent)
  {
    MissingIsTracked(c, o, parent, companion);
    assert o.tracker.CompanionsOf(parent) - o.tracker.DoneOf(parent) == {companion};
    LastCompanionReleases(c, o, companion, parent);
    var h := Handover(parent, o.tracker.pending[parent].stage + 1);
    assert h !in o.handed;
    assert h in Next(c, o, Finishing(companion, outputs)).handed;
  }

  lemma OneStepRun(c: Config, o: Orchestrator, step: Step)
    requires c.WellFormed() && Enabled(c, o, step)
    ensures Runs(c, o, [step], Next(c, o, step))
  {
    assert [step][1..] == [];
    assert Runs(c, Next(c, o, step), [], Next(c, o, step));
  }

  lemma HandsOnLooksAtHanded(o: Orchestrator, n: Orchestrator, parent: Id)
    requires n.handed == o.handed
    ensures forall last :: HandsOn(n, last, parent) ==> HandsOn(o, last, parent)
  {
  }

  /** Held back, still tracked, and not handed on from there yet. */
  ghost predicate HeldBack(c: Config, o: Orchestrator, parent: Id) {
    && 0 < c.NumStages() && Inv(c, o) && NobodysOwn(o.tracker)
    && parent in o.tracker.pending && parent in o.requests && !o.NextSubmitted(parent, o.tracker.pending[parent].stage)
  }

  lemma StillHeldBack(c: Config, o: Orchestrator, parent: Id, companion: Id, outputs: EngineOutputs)
    requires c.WellFormed() && HeldBack(c, o, parent)
    requires companion in Missing(o, parent) && Missing(o, parent) <= o.requests.Keys
               && Missing(o, parent) != {companion}
    ensures Enabled(c, o, Finishing(companion, outputs))
    ensures var n := Next(c, o, Finishing(companion, outputs));
            && HeldBack(c, n, parent) && Missing(n, parent) == Missing(o, parent) - {companion}
            && Missing(n, parent) <= n.requests.Keys && n.handed == o.handed
  {
    CompanionFinishes(c, o, parent, companion, outputs);
    MissingIsTracked(c, o, parent, companion);
    hide Next, Enabled, Inv, NobodysOwn, Finishing;
  }

  lemma StepThenRun(c: Config, o: Orchestrator, step: Step, steps: seq<Step>, last: Orchestrator)
    requires c.WellFormed() && Enabled(c, o, step) && Runs(c, Next(c, o, step), steps, last)
    ensures Runs(c, o, [step] + steps, last)
  {
    assert ([step] + steps)[1..] == steps;
  }

  lemma SomeMissing(c: Config, o: Orchestrator, parent: Id)
    requires HeldBack(c, o, parent)
    ensures Missing(o, parent) != {}
  {
    var companion :| companion in o.tracker.CompanionsOf(parent) && companion !in o.tracker.DoneOf(parent);
    assert companion in Missing(o, parent);
  }

  lemma {:induction false} CompanionsRelease(c: Config, o: Orchestrator, parent: Id, outputs: EngineOutputs)
    returns (steps: seq<Step>, last: Orchestrator)
    requires c.WellFormed() && HeldBack(c, o, parent) && Missing(o, parent) <= o.requests.Keys
    ensures Runs(c, o, steps, last) && HandsOn(o, last, parent)
    decreases |Missing(o, parent)|
  {
    SomeMissing(c, o, parent);
    var companion :| companion in Missing(o, parent);
    var step := Finishing(companion, outputs);
    if Missing(o, parent) == {companion} {
      LastCompanionFinishes(c, o, parent, companion, outputs);
      OneStepRun(c, o, step);
      steps, last := [step], Next(c, o, step);
    } else {
      hide Next, Enabled, HeldBack, Missing, Finishing, HandsOn, Runs;
      StillHeldBack(c, o, parent, companion, outputs);
      var n := Next(c, o, step);
      HandsOnLooksAtHanded(o, n, parent);
      var rest;
      rest, last := CompanionsRelease(c, n, parent, outputs);
      StepThenRun(c, o, step, rest, last);
      steps := [step] + rest;
    }
  }

  /** A request held back for its companions can still be handed on, by whatever the stages
      and the main thread do next, exactly if every companion it waits for is still tracked. */
  lemma DeferredIsReleasableExactly(c: Config, o: Orchestrator, parent: Id)
    requires c.WellFormed() && HeldBack(c, o, parent)
    ensures (exists steps, last :: Runs(c, o, steps, last) && HandsOn(o, last, parent))
            <==> Missing(o, parent) <= o.requests.Keys
  {
    if Missing(o, parent) <= o.requests.Keys {
      var steps, last := CompanionsRelease(c, o, parent, o.tracker.pending[parent].outputs);
      assert Runs(c, o, steps, last) && HandsOn(o, last, parent);
    } else {
      var companion :| companion in Missing(o, parent) && companion !in o.requests;
      MissingIsTracked(c, o, parent, companion);
      assert NeverAgain(o, parent, companion);
      assert Inv(c, o);
      hide Inv, NeverAgain, HandsOn;
      forall steps, last | Runs(c, o, steps, last) ensures !HandsOn(o, last, parent) {
        RunNeverAgain(c, o, steps, last, parent, companion);
      }
    }
  }

  /** Aborting a companion by its own id leaves the tracker as it is, and the request that
      waits for it stuck. */
  lemma AbortedCompanionSticks(c: Config, o: Orchestrator, parent: Id, companion: Id)
    requires Inv(c, o) && NobodysOwn(o.tracker) && companion in Missing(o, parent)
    ensures var n := Abort(o, [companion]);
            && n.tracker == o.tracker && Stuck(n, parent, companion)
            && (parent in o.requests ==> parent in n.requests)
  {
    MissingIsTracked(c, o, parent, companion);
    assert o.tracker.ParentsAmong([companion]) == {};
    assert o.tracker.CompanionsOfAll({}) == {};
    CleanupNobody(o.tracker);
    hide Tracker.CleanupAll, Tracker.CompanionsOfAll, Tracker.ParentsAmong, Inv;
    MissingLooksAtTracker(o, Abort(o, [companion]), parent);
  }
}
