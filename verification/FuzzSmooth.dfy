/**
 A run in which nothing goes wrong sends exactly what was forecast: every planned probe in order, and every step of the
 workflows that may run.
 */
module FuzzSmooth {
  import opened Wrappers
  import opened FuzzModel
  import opened FuzzPlanner
  import opened FuzzPlans
  import opened FuzzRun
  import FuzzWorklist

  /** A reply that qualifies as a baseline, and gives no reason to slow down or to try again. */
  ghost predicate Fine(reply: Reply) {
    Qualifies(reply) && !RateLimited(reply) && !reply.originFailure && reply.decision.NoHint?
  }

  predicate StepFine(step: WorkflowStep, reply: Reply) {
    Verified(step, reply) && (step.captures ==> reply.captured.Some?)
  }

  predicate AllFine(cfg: Config, reply: Reply) {
    forall k, i :: 0 <= k < |cfg.workflows| && 0 <= i < |cfg.workflows[k].steps| ==>
      StepFine(cfg.workflows[k].steps[i], reply)
  }

  /** Whatever is asked, the answer is what was hoped for, and nobody cancels. */
  ghost predicate Smooth(cfg: Config, w: World) {
    forall n: nat :: Fine(w.server(n)) && AllFine(cfg, w.server(n)) && !w.canceled(n)
  }

  predicate Quiet(c: Circuit) {
    c.blockedOrigins == {} && !c.rateLimited && forall o :: o in c.transportErrors ==> c.transportErrors[o] == 0
  }

  lemma StaysQuiet(cfg: Config, w: World, c: Circuit, url: string, reply: Reply)
    requires Quiet(c) && !RateLimited(reply) && !reply.originFailure
    ensures Quiet(Observed(cfg, w, c, url, reply).0) && Observed(cfg, w, c, url, reply).1 == Proceed
  {
  }

  // ----- Baselines come first -----

  /** A probe before this one is looked at as its baseline. */
  predicate Founded(plans: seq<PlannedProbe>, v: nat)
    requires v < |plans|
  {
    plans[v].requiresBaseline ==>
      exists u :: 0 <= u < v && plans[u].qualifiesBaseline && plans[u].baselineKey == plans[v].baselineKey
  }

  /** In the probes of one operation, the operation's own request for each identity comes before its mutations. */
  lemma OperationFounded(op: Operation, mutations: seq<Mutation>, ids: seq<string>, v: nat)
    requires v < |OperationPlans(op, mutations, ids)|
    ensures Founded(OperationPlans(op, mutations, ids), v)
  {
    var plans := OperationPlans(op, mutations, ids);
    var c, i := Divided(v, |ids|, 1 + |mutations|);
    PlansAreTheProduct(op, mutations, ids, c, i);
    PlansAreTheProduct(op, mutations, ids, 0, i);
    if plans[v].requiresBaseline {
      assert IDORCategory(mutations[c - 1].category);
      assert c * |ids| >= |ids| by {
        Widest(c, 1, |ids|);
      }
      assert plans[i].qualifiesBaseline && plans[i].baselineKey == plans[v].baselineKey;
    }
  }

  lemma {:induction false} AllFounded(cfg: Config, w: World, ops: seq<Operation>, n: nat, v: nat)
    requires n <= |ops| && Plannable(cfg, w, ops, n) && v < |AllPlans(cfg, w, ops, n)|
    ensures Founded(AllPlans(cfg, w, ops, n), v)
  {
    var plans, before := AllPlans(cfg, w, ops, n), AllPlans(cfg, w, ops, n - 1);
    if v < |before| {
      AllFounded(cfg, w, ops, n - 1, v);
      assert plans[v] == before[v];
      if plans[v].requiresBaseline {
        var u :| 0 <= u < v && before[u].qualifiesBaseline && before[u].baselineKey == before[v].baselineKey;
        assert plans[u] == before[u];
      }
    } else {
      var mutations := Generated(w, ops[n - 1]).value;
      var own := OperationPlans(ops[n - 1], mutations, cfg.identities);
      OperationFounded(ops[n - 1], mutations, cfg.identities, v - |before|);
      if plans[v].requiresBaseline {
        var at := v - |before|;
        var u :| 0 <= u < at && own[u].qualifiesBaseline && own[u].baselineKey == own[at].baselineKey;
        assert plans[|before| + u] == own[u];
      }
    }
  }

  // ----- The probe phase -----

  /** The first `v` probes were sent, each in its turn, and every baseline among them qualified. */
  ghost predicate Going(s: State, plans: seq<PlannedProbe>, v: nat, refused: nat) {
    && v <= |plans| && s.list.plans == plans
    && Quiet(s.circuit) && s.skips == Skips(0, 0, refused)
    && |s.probes| == s.tally.requests == v
    && (forall u :: 0 <= u < v ==> s.probes[u].plan == plans[u])
    && (forall k :: k in s.gate.baselines ==> s.gate.baselines[k])
    && (forall u :: 0 <= u < v && plans[u].qualifiesBaseline ==> plans[u].baselineKey in s.gate.baselines)
  }

  lemma TurnGoing(cfg: Config, w: World, s: State, plans: seq<PlannedProbe>, v: nat, refused: nat)
    requires Smooth(cfg, w) && v < |plans| && Going(s, plans, v, refused) && Founded(plans, v)
    ensures Taken(cfg, w, s, plans[v]).1 == Next
    ensures Going(Taken(cfg, w, s, plans[v]).0, plans, v + 1, refused)
  {
    var reply := w.server(s.tally.requests);
    assert Fine(reply) && !w.canceled(s.tally.requests);
    StaysQuiet(cfg, w, s.circuit, plans[v].targetURL, reply);
  }

  lemma {:induction false} PhaseGoing(cfg: Config, w: World, s: State, plans: seq<PlannedProbe>, v: nat, refused: nat)
    requires Smooth(cfg, w) && |plans| <= cfg.maxRequests && Going(s, plans, v, refused)
    requires forall u :: 0 <= u < |plans| ==> Founded(plans, u)
    ensures
      var phase := ProbePhase(cfg, w, s, v);
      phase.exit == Finished && Going(phase.state, plans, |plans|, refused)
      && phase.state.list == s.list
    decreases |plans| - v
  {
    if v < |plans| {
      TurnGoing(cfg, w, s, plans, v, refused);
      PhaseGoing(cfg, w, Taken(cfg, w, s, plans[v]).0, plans, v + 1, refused);
    }
  }

  // ----- The workflow phase -----

  /** From one state to the next, so many steps were sent and so many were not permitted, and no others left out. */
  ghost predicate Steps(before: State, after: State, sent: int, refused: int) {
    && Quiet(after.circuit) && after.list == before.list
    && after.tally.requests == before.tally.requests + sent
    && after.skips == Skips(before.skips.isolated, before.skips.invalidIDOR, after.skips.notPermitted)
    && after.skips.notPermitted == before.skips.notPermitted + refused
  }

  lemma StepGoes(cfg: Config, w: World, s: State, workflow: Workflow, step: WorkflowStep, vars: Variables)
    requires cfg.identities != [] && cfg.StepAccepted(step) && Smooth(cfg, w)
    requires Quiet(s.circuit) && s.tally.requests < cfg.maxRequests
    requires StepFine(step, w.server(s.tally.requests))
    ensures StepTaken(cfg, w, s, workflow, step, vars).outcome == Continue
    ensures Steps(s, StepTaken(cfg, w, s, workflow, step, vars).state, 1, 0)
  {
    var reply := w.server(s.tally.requests);
    assert Fine(reply) && !w.canceled(s.tally.requests);
    StaysQuiet(cfg, w, s.circuit, w.substitute(step.url, vars), reply);
  }

  lemma {:induction false} StepsGo(cfg: Config, w: World, s: State, k: nat, i: nat, vars: Variables)
    requires cfg.Valid() && Smooth(cfg, w) && Quiet(s.circuit)
    requires k < |cfg.workflows| && i <= |cfg.workflows[k].steps|
    requires s.tally.requests + |cfg.workflows[k].steps| - i <= cfg.maxRequests
    ensures
      var (end, ending) := StepsTaken(cfg, w, s, cfg.workflows[k], i, vars);
      ending == Done && Steps(s, end, |cfg.workflows[k].steps| - i, 0)
    decreases |cfg.workflows[k].steps| - i
  {
    var workflow := cfg.workflows[k];
    if i < |workflow.steps| {
      assert cfg.Accepts(workflow) && cfg.StepAccepted(workflow.steps[i]);
      assert AllFine(cfg, w.server(s.tally.requests));
      StepGoes(cfg, w, s, workflow, workflow.steps[i], vars);
      var step := StepTaken(cfg, w, s, workflow, workflow.steps[i], vars);
      StepsGo(cfg, w, step.state, k, i + 1, step.variables);
    }
  }

  /** The unsafe steps of the workflows from number `k` on that may not run. */
  function RefusedLeft(cfg: Config, k: nat): int
    requires k <= |cfg.workflows|
  {
    SkippedStepCount(cfg, |cfg.workflows|) - SkippedStepCount(cfg, k)
  }

  lemma WorkflowGoes(cfg: Config, w: World, s: State, k: nat)
    requires cfg.Valid() && Smooth(cfg, w) && Quiet(s.circuit) && k < |cfg.workflows|
    requires s.tally.requests + FuzzWorklist.StepsLeft(cfg, k) <= cfg.maxRequests
    ensures
      var (end, ending) := WorkflowTaken(cfg, w, s, cfg.workflows[k]);
      && ending == Done
      && Steps(s, end, FuzzWorklist.StepsLeft(cfg, k) - FuzzWorklist.StepsLeft(cfg, k + 1),
               RefusedLeft(cfg, k) - RefusedLeft(cfg, k + 1))
  {
    if !Skipped(cfg, cfg.workflows[k]) {
      FuzzWorklist.StepCountGrows(cfg, k + 1, |cfg.workflows|);
      StepsGo(cfg, w, s, k, 0, map[]);
    }
  }

  lemma StepsOn(before: State, middle: State, after: State, sent: int, more: int, refused: int, further: int)
    requires Steps(before, middle, sent, refused) && Steps(middle, after, more, further)
    ensures Steps(before, after, sent + more, refused + further)
  {
  }

  lemma {:induction false} WorkflowsGo(cfg: Config, w: World, s: State, k: nat, end: State, error: Option<Error>)
    requires cfg.Valid() && Smooth(cfg, w) && Quiet(s.circuit) && k <= |cfg.workflows|
    requires s.tally.requests + FuzzWorklist.StepsLeft(cfg, k) <= cfg.maxRequests
    requires (end, error) == WorkflowPhase(cfg, w, s, k)
    ensures error == None && Steps(s, end, FuzzWorklist.StepsLeft(cfg, k), RefusedLeft(cfg, k))
    decreases |cfg.workflows| - k
  {
    if k < |cfg.workflows| {
      WorkflowGoes(cfg, w, s, k);
      var next := WorkflowTaken(cfg, w, s, cfg.workflows[k]).0;
      var all, sent := FuzzWorklist.StepsLeft(cfg, k), FuzzWorklist.StepsLeft(cfg, k + 1);
      var refused := RefusedLeft(cfg, k + 1);
      WorkflowsGo(cfg, w, next, k + 1, end, error);
      StepsOn(s, next, end, all - sent, sent, RefusedLeft(cfg, k) - refused, refused);
    }
  }

  // ----- The whole run -----

  /** The probe phase of a run in which nothing goes wrong sends the plans, one after the other. */
  lemma SmoothPhase(cfg: Config, w: World, ops: seq<Operation>)
    requires cfg.Valid() && Plannable(cfg, w, ops, |ops|) && Smooth(cfg, w)
    requires |AllPlans(cfg, w, ops, |ops|)| <= cfg.maxRequests
    ensures BuildFirst(cfg, w, ops, |ops|).Ok? && FirstPhase(cfg, w, ops).exit == Finished
    ensures
      var plans, s := AllPlans(cfg, w, ops, |ops|), FirstPhase(cfg, w, ops).state;
      Going(s, plans, |plans|, RefusedCount(cfg, ops, |ops|)) && !s.list.requestBudgetHit
  {
    BuildIsPrefix(cfg, w, ops, |ops|);
    var plans, built := AllPlans(cfg, w, ops, |ops|), BuildFirst(cfg, w, ops, |ops|).value;
    forall v | 0 <= v < |plans|
      ensures Founded(plans, v)
    {
      AllFounded(cfg, w, ops, |ops|, v);
    }
    PhaseGoing(cfg, w, Initial(built), plans, 0, built.refused);
  }

  /** And the workflows go on from there. */
  lemma SmoothWorkflows(cfg: Config, w: World, ops: seq<Operation>, s: State)
    requires cfg.Valid() && Smooth(cfg, w) && BuildFirst(cfg, w, ops, |ops|).Ok?
    requires FirstPhase(cfg, w, ops).exit == Finished && s == FirstPhase(cfg, w, ops).state && Quiet(s.circuit)
    requires s.tally.requests + FuzzWorklist.StepsLeft(cfg, 0) <= cfg.maxRequests
    ensures
      var run := RunAll(cfg, w, ops);
      && run.Reported? && run.error == None
      && Steps(s, run.state, FuzzWorklist.StepsLeft(cfg, 0), RefusedLeft(cfg, 0))
  {
    var (end, error) := WorkflowPhase(cfg, w, s, 0);
    WorkflowsGo(cfg, w, s, 0, end, error);
  }

  /**
   The forecast is tight.  Where it fits without the reserve for retries, a run in which nothing goes wrong sends every
   planned probe in order, and then as many workflow steps as were counted; it leaves out exactly what the forecast says
   is not permitted.
   */
  lemma SmoothRunSendsAll(cfg: Config, w: World, ops: seq<Operation>)
    requires cfg.Valid() && Plannable(cfg, w, ops, |ops|) && Smooth(cfg, w)
    requires Forecast(cfg, w, ops).deterministicRequests <= cfg.maxRequests
    ensures
      var forecast, run := Forecast(cfg, w, ops), RunAll(cfg, w, ops);
      var plans := AllPlans(cfg, w, ops, |ops|);
      && run.Reported? && run.error == None
      && run.state.tally.requests == forecast.deterministicRequests
      && run.state.skips == Skips(0, 0, forecast.skippedUnsafe)
      && run.state.list.plans == plans && !run.state.list.requestBudgetHit
      && FirstPhase(cfg, w, ops).exit == Finished && |FirstPhase(cfg, w, ops).state.probes| == |plans|
      && forall v :: 0 <= v < |plans| ==> FirstPhase(cfg, w, ops).state.probes[v].plan == plans[v]
  {
    SmoothPhase(cfg, w, ops);
    SmoothWorkflows(cfg, w, ops, FirstPhase(cfg, w, ops).state);
  }
}
