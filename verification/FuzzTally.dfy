/**
 The summary of a fuzz run agrees with its record.
 */
module FuzzTally {
  import opened FuzzModel
  import opened FuzzPlanner
  import opened FuzzRun

  /** The class of a reply. A status below 200 has none. */
  datatype Class = Failure | Success | Redirect | ClientError | ServerError | Unclassed

  function ClassOf(reply: Reply): Class {
    if reply.failed then Failure
    else if reply.status < 200 then Unclassed
    else if reply.status < 300 then Success
    else if reply.status < 400 then Redirect
    else if reply.status < 500 then ClientError
    else ServerError
  }

  /** How many replies of the record are in the class. */
  function InClass(h: seq<Exchange>, group: Class): nat {
    if h == [] then 0
    else InClass(h[..|h| - 1], group) + (if ClassOf(h[|h| - 1].reply) == group then 1 else 0)
  }

  predicate Agrees(tally: Tally, h: seq<Exchange>) {
    && tally.requests == |h|
    && tally.failures == InClass(h, Failure)
    && tally.responses2xx == InClass(h, Success)
    && tally.responses3xx == InClass(h, Redirect)
    && tally.responses4xx == InClass(h, ClientError)
    && tally.responses5xx == InClass(h, ServerError)
  }

  lemma OneMoreCounted(tally: Tally, h: seq<Exchange>, e: Exchange)
    requires Agrees(tally, h)
    ensures Agrees(Counted(tally, e.reply), h + [e])
  {
    assert (h + [e])[..|h|] == h;
  }

  lemma TurnKeepsTally(cfg: Config, w: World, s: State, plan: PlannedProbe)
    requires Agrees(s.tally, s.probes)
    ensures Agrees(Taken(cfg, w, s, plan).0.tally, Taken(cfg, w, s, plan).0.probes)
  {
    OneMoreCounted(s.tally, s.probes, Exchange(plan, w.server(s.tally.requests)));
  }

  lemma {:induction false} PhaseKeepsTally(cfg: Config, w: World, s: State, index: nat)
    requires index <= |s.list.plans| <= cfg.maxRequests && Agrees(s.tally, s.probes)
    ensures
      var end := ProbePhase(cfg, w, s, index).state;
      Agrees(end.tally, end.probes)
    decreases cfg.maxRequests - index
  {
    if index < |s.list.plans| {
      var plan := s.list.plans[index];
      TurnKeepsTally(cfg, w, s, plan);
      var (next, turn) := Taken(cfg, w, s, plan);
      if turn == Next {
        PhaseKeepsTally(cfg, w, next, index + 1);
      }
    }
  }

  lemma StepKeepsTally(cfg: Config, w: World, s: State, workflow: Workflow, step: WorkflowStep, vars: Variables)
    requires cfg.identities != [] && Agrees(s.tally, s.probes)
    ensures
      var next := StepTaken(cfg, w, s, workflow, step, vars).state;
      Agrees(next.tally, next.probes)
  {
    if StepIdentity(cfg, step).Ok? {
      var plan := StepPlan(w, workflow, step, vars, StepIdentity(cfg, step).value);
      OneMoreCounted(s.tally, s.probes, Exchange(plan, w.server(s.tally.requests)));
    }
  }

  lemma {:induction false} StepsKeepTally(cfg: Config, w: World, s: State, workflow: Workflow, i: nat, vars: Variables)
    requires cfg.identities != [] && i <= |workflow.steps| && Agrees(s.tally, s.probes)
    ensures
      var end := StepsTaken(cfg, w, s, workflow, i, vars).0;
      Agrees(end.tally, end.probes)
    decreases |workflow.steps| - i
  {
    if i < |workflow.steps| {
      StepKeepsTally(cfg, w, s, workflow, workflow.steps[i], vars);
      var step := StepTaken(cfg, w, s, workflow, workflow.steps[i], vars);
      if step.outcome == Continue {
        StepsKeepTally(cfg, w, step.state, workflow, i + 1, step.variables);
      }
    }
  }

  lemma {:induction false} WorkflowsKeepTally(cfg: Config, w: World, s: State, k: nat)
    requires cfg.identities != [] && k <= |cfg.workflows| && Agrees(s.tally, s.probes)
    ensures
      var end := WorkflowPhase(cfg, w, s, k).0;
      Agrees(end.tally, end.probes)
    decreases |cfg.workflows| - k
  {
    if k < |cfg.workflows| {
      var (next, ending) := WorkflowTaken(cfg, w, s, cfg.workflows[k]);
      if !Skipped(cfg, cfg.workflows[k]) {
        StepsKeepTally(cfg, w, s, cfg.workflows[k], 0, map[]);
      }
      if ending == Done {
        WorkflowsKeepTally(cfg, w, next, k + 1);
      }
    }
  }

  lemma {:induction false} EachInOneClass(h: seq<Exchange>)
    ensures InClass(h, Failure) + InClass(h, Success) + InClass(h, Redirect) + InClass(h, ClientError)
          + InClass(h, ServerError) + InClass(h, Unclassed) == |h|
  {
    if h == [] {
    } else {
      EachInOneClass(h[..|h| - 1]);
    }
  }

  /**
   In every run the summary counts each class as the record has it, and every request that was sent is a failure or in
   one class, except for replies with a status below 200, which are in none.
   */
  lemma SummaryConserves(cfg: Config, w: World, ops: seq<Operation>)
    requires cfg.Valid() && RunAll(cfg, w, ops).Reported?
    ensures
      var s := RunAll(cfg, w, ops).state;
      && Agrees(s.tally, s.probes)
      && s.tally.failures + s.tally.responses2xx + s.tally.responses3xx + s.tally.responses4xx + s.tally.responses5xx
         + InClass(s.probes, Unclassed) == s.tally.requests
  {
    var start := Initial(BuildFirst(cfg, w, ops, |ops|).value);
    PhaseKeepsTally(cfg, w, start, 0);
    WorkflowsKeepTally(cfg, w, FirstPhase(cfg, w, ops).state, 0);
    EachInOneClass(RunAll(cfg, w, ops).state.probes);
  }

  // ----- Guided retries -----

  /** The exchange is a guided retry; with `credited`, one of a failure that brought data. */
  ghost predicate IsRetry(e: Exchange, credited: bool) {
    e.plan.guidedDepth > 0 && (credited ==> e.plan.guidedFromFailure && SuccessfulData(e.reply))
  }

  ghost function Retries(h: seq<Exchange>, credited: bool): nat {
    if h == [] then 0
    else Retries(h[..|h| - 1], credited) + (if IsRetry(h[|h| - 1], credited) then 1 else 0)
  }

  ghost predicate Credits(guided: Guided, h: seq<Exchange>) {
    guided.retries == Retries(h, false) && guided.successes == Retries(h, true)
  }

  lemma OneMoreCredited(guided: Guided, h: seq<Exchange>, e: Exchange)
    requires Credits(guided, h)
    ensures Credits(Credited(guided, e.plan, e.reply), h + [e])
    ensures e.plan.guidedDepth == 0 ==> Credits(guided, h + [e])
  {
    assert (h + [e])[..|h|] == h;
  }

  lemma TurnKeepsCredits(cfg: Config, w: World, s: State, plan: PlannedProbe)
    requires Credits(s.guided, s.probes)
    ensures Credits(Taken(cfg, w, s, plan).0.guided, Taken(cfg, w, s, plan).0.probes)
  {
    OneMoreCredited(s.guided, s.probes, Exchange(plan, w.server(s.tally.requests)));
  }

  lemma {:induction false} PhaseKeepsCredits(cfg: Config, w: World, s: State, index: nat)
    requires index <= |s.list.plans| <= cfg.maxRequests && Credits(s.guided, s.probes)
    ensures
      var end := ProbePhase(cfg, w, s, index).state;
      Credits(end.guided, end.probes)
    decreases cfg.maxRequests - index
  {
    if index < |s.list.plans| {
      TurnKeepsCredits(cfg, w, s, s.list.plans[index]);
      var (next, turn) := Taken(cfg, w, s, s.list.plans[index]);
      if turn == Next {
        PhaseKeepsCredits(cfg, w, next, index + 1);
      }
    }
  }

  lemma StepKeepsCredits(cfg: Config, w: World, s: State, workflow: Workflow, step: WorkflowStep, vars: Variables)
    requires cfg.identities != [] && Credits(s.guided, s.probes)
    ensures
      var next := StepTaken(cfg, w, s, workflow, step, vars).state;
      Credits(next.guided, next.probes)
  {
    if StepIdentity(cfg, step).Ok? {
      var plan := StepPlan(w, workflow, step, vars, StepIdentity(cfg, step).value);
      OneMoreCredited(s.guided, s.probes, Exchange(plan, w.server(s.tally.requests)));
    }
  }

  lemma {:induction false} StepsKeepCredits(cfg: Config, w: World, s: State, workflow: Workflow, i: nat,
                                            vars: Variables)
    requires cfg.identities != [] && i <= |workflow.steps| && Credits(s.guided, s.probes)
    ensures
      var end := StepsTaken(cfg, w, s, workflow, i, vars).0;
      Credits(end.guided, end.probes)
    decreases |workflow.steps| - i
  {
    if i < |workflow.steps| {
      StepKeepsCredits(cfg, w, s, workflow, workflow.steps[i], vars);
      var step := StepTaken(cfg, w, s, workflow, workflow.steps[i], vars);
      if step.outcome == Continue {
        StepsKeepCredits(cfg, w, step.state, workflow, i + 1, step.variables);
      }
    }
  }

  lemma {:induction false} WorkflowsKeepCredits(cfg: Config, w: World, s: State, k: nat)
    requires cfg.identities != [] && k <= |cfg.workflows| && Credits(s.guided, s.probes)
    ensures
      var end := WorkflowPhase(cfg, w, s, k).0;
      Credits(end.guided, end.probes)
    decreases |cfg.workflows| - k
  {
    if k < |cfg.workflows| {
      var (next, ending) := WorkflowTaken(cfg, w, s, cfg.workflows[k]);
      if !Skipped(cfg, cfg.workflows[k]) {
        StepsKeepCredits(cfg, w, s, cfg.workflows[k], 0, map[]);
      }
      if ending == Done {
        WorkflowsKeepCredits(cfg, w, next, k + 1);
      }
    }
  }

  /** In every run the retries counted are those of the record, and the successes those that brought data after all. */
  lemma GuidedExactly(cfg: Config, w: World, ops: seq<Operation>)
    requires cfg.Valid() && RunAll(cfg, w, ops).Reported?
    ensures Credits(RunAll(cfg, w, ops).state.guided, RunAll(cfg, w, ops).state.probes)
  {
    var start := Initial(BuildFirst(cfg, w, ops, |ops|).value);
    PhaseKeepsCredits(cfg, w, start, 0);
    WorkflowsKeepCredits(cfg, w, FirstPhase(cfg, w, ops).state, 0);
  }
}
