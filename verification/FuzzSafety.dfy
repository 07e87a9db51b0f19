/**
 Without the caller's consent a run sends no state-changing request, whatever the server answers.
 */
module FuzzSafety {
  import opened Text
  import opened FuzzModel
  import opened FuzzPlanner
  import opened FuzzRun

  /** Nothing that changes state has been sent. */
  ghost predicate Harmless(h: seq<Exchange>) {
    forall j :: 0 <= j < |h| ==> !StateChanging(h[j].plan.verb)
  }

  ghost predicate HarmlessPlans(plans: seq<PlannedProbe>) {
    forall k :: 0 <= k < |plans| ==> !StateChanging(plans[k].verb)
  }

  lemma UpperOnce(s: string)
    ensures ToUpper(ToUpper(s)) == ToUpper(s)
  {
  }

  lemma UpperChanges(verb: string)
    ensures StateChanging(ToUpper(verb)) <==> StateChanging(verb)
  {
    UpperOnce(verb);
  }

  lemma {:induction false} RowsHarmless(op: Operation, cases: seq<Mutation>, ids: seq<string>, hasIDOR: bool, n: nat)
    requires n <= |cases| && !StateChanging(op.verb)
    ensures HarmlessPlans(Rows(op, cases, ids, hasIDOR, n))
  {
    UpperChanges(op.verb);
    if n > 0 {
      RowsHarmless(op, cases, ids, hasIDOR, n - 1);
    }
  }

  lemma {:induction false} BuiltHarmless(cfg: Config, w: World, ops: seq<Operation>, n: nat)
    requires n <= |ops| && !cfg.acceptRisk && BuildFirst(cfg, w, ops, n).Ok?
    ensures HarmlessPlans(BuildFirst(cfg, w, ops, n).value.plans)
  {
    if n > 0 {
      BuiltHarmless(cfg, w, ops, n - 1);
      if !cfg.Refuses(ops[n - 1].verb) && Generated(w, ops[n - 1]).Ok? {
        var cases := [Baseline(ops[n - 1])] + Generated(w, ops[n - 1]).value;
        RowsHarmless(ops[n - 1], cases, cfg.identities, HasIDOR(Generated(w, ops[n - 1]).value), |cases|);
      }
    }
  }

  lemma TurnHarmless(cfg: Config, w: World, s: State, plan: PlannedProbe)
    requires HarmlessPlans(s.list.plans) && Harmless(s.probes) && !StateChanging(plan.verb)
    ensures HarmlessPlans(Taken(cfg, w, s, plan).0.list.plans) && Harmless(Taken(cfg, w, s, plan).0.probes)
  {
  }

  lemma {:induction false} PhaseHarmless(cfg: Config, w: World, s: State, index: nat)
    requires index <= |s.list.plans| <= cfg.maxRequests && HarmlessPlans(s.list.plans) && Harmless(s.probes)
    ensures Harmless(ProbePhase(cfg, w, s, index).state.probes)
    decreases cfg.maxRequests - index
  {
    if index < |s.list.plans| {
      TurnHarmless(cfg, w, s, s.list.plans[index]);
      var (next, turn) := Taken(cfg, w, s, s.list.plans[index]);
      if turn == Next {
        PhaseHarmless(cfg, w, next, index + 1);
      }
    }
  }

  lemma StepHarmless(cfg: Config, w: World, s: State, workflow: Workflow, step: WorkflowStep, vars: Variables)
    requires cfg.identities != [] && Harmless(s.probes) && !StateChanging(step.verb)
    ensures Harmless(StepTaken(cfg, w, s, workflow, step, vars).state.probes)
  {
    UpperChanges(step.verb);
  }

  lemma {:induction false} UnsafeCounted(steps: seq<WorkflowStep>, i: nat)
    requires UnsafeSteps(steps) == 0 && i < |steps|
    ensures !StateChanging(steps[i].verb)
  {
    if i < |steps| - 1 {
      UnsafeCounted(steps[..|steps| - 1], i);
    }
  }

  lemma {:induction false} StepsHarmless(cfg: Config, w: World, s: State, workflow: Workflow, i: nat, vars: Variables)
    requires cfg.identities != [] && i <= |workflow.steps| && UnsafeSteps(workflow.steps) == 0 && Harmless(s.probes)
    ensures Harmless(StepsTaken(cfg, w, s, workflow, i, vars).0.probes)
    decreases |workflow.steps| - i
  {
    if i < |workflow.steps| {
      UnsafeCounted(workflow.steps, i);
      StepHarmless(cfg, w, s, workflow, workflow.steps[i], vars);
      var step := StepTaken(cfg, w, s, workflow, workflow.steps[i], vars);
      if step.outcome == Continue {
        StepsHarmless(cfg, w, step.state, workflow, i + 1, step.variables);
      }
    }
  }

  lemma {:induction false} WorkflowsHarmless(cfg: Config, w: World, s: State, k: nat)
    requires cfg.identities != [] && k <= |cfg.workflows| && !cfg.acceptRisk && Harmless(s.probes)
    ensures Harmless(WorkflowPhase(cfg, w, s, k).0.probes)
    decreases |cfg.workflows| - k
  {
    if k < |cfg.workflows| {
      var (next, ending) := WorkflowTaken(cfg, w, s, cfg.workflows[k]);
      if !Skipped(cfg, cfg.workflows[k]) {
        StepsHarmless(cfg, w, s, cfg.workflows[k], 0, map[]);
      }
      if ending == Done {
        WorkflowsHarmless(cfg, w, next, k + 1);
      }
    }
  }

  /** No run sends a state-changing request, retries and workflow steps included, unless the risk is accepted. */
  lemma NothingUnsafe(cfg: Config, w: World, ops: seq<Operation>)
    requires cfg.Valid() && !cfg.acceptRisk && RunAll(cfg, w, ops).Reported?
    ensures Harmless(RunAll(cfg, w, ops).state.probes)
  {
    BuiltHarmless(cfg, w, ops, |ops|);
    PhaseHarmless(cfg, w, Initial(BuildFirst(cfg, w, ops, |ops|).value), 0);
    WorkflowsHarmless(cfg, w, FirstPhase(cfg, w, ops).state, 0);
  }
}
