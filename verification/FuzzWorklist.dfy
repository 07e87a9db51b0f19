/**
 The growing list of probes: its bookkeeping, and the arithmetic that lets a static forecast bound it.

 Each probe that is visited may append one retry, one level deeper.  So the list, together with the retries
 that the probes still waiting could start, never outgrows what the first probes could start: visiting a
 probe spends its allowance before its retry is added.
 */
module FuzzWorklist {
  import opened FuzzModel
  import opened FuzzPlanner
  import opened FuzzRun

  /** The run's records agree with each other. */
  ghost predicate Consistent(s: State) {
    && |s.probes| == s.tally.requests
    && s.list.unresolvedHints == |s.list.unresolvedRoots|
    && s.list.seenPlans == Prints(s.list.plans)
  }

  /** Every probe added after the first `base` is a request that no earlier probe makes. */
  ghost predicate Fresh(plans: seq<PlannedProbe>, base: nat) {
    forall i, j :: 0 <= i < j < |plans| && base <= j ==> plans[i].Print() != plans[j].Print()
  }

  /** How many probes have had their turn, by what became of them. */
  function Handled(s: State): nat {
    s.tally.requests + s.skips.isolated + s.skips.invalidIDOR
  }

  /** The retries that probes from `i` on can still start. */
  function Allowance(cfg: Config, plans: seq<PlannedProbe>, i: nat): int
    requires i <= |plans|
    decreases |plans| - i
  {
    if i == |plans| then 0 else cfg.Retries() - plans[i].guidedDepth + Allowance(cfg, plans, i + 1)
  }

  ghost predicate DepthBounded(cfg: Config, plans: seq<PlannedProbe>) {
    forall i :: 0 <= i < |plans| ==> plans[i].guidedDepth <= cfg.Retries()
  }

  /** `total` bounds the list now and whatever it can still grow to. */
  ghost predicate Bounded(cfg: Config, s: State, index: nat, total: int) {
    && index <= |s.list.plans|
    && DepthBounded(cfg, s.list.plans)
    && |s.list.plans| + Allowance(cfg, s.list.plans, index) <= total
  }

  lemma {:induction false} AllowanceOfAppend(cfg: Config, plans: seq<PlannedProbe>, p: PlannedProbe, i: nat)
    requires i <= |plans|
    ensures Allowance(cfg, plans + [p], i) == Allowance(cfg, plans, i) + cfg.Retries() - p.guidedDepth
    decreases |plans| - i
  {
    if i < |plans| {
      AllowanceOfAppend(cfg, plans, p, i + 1);
    } else {
      assert Allowance(cfg, plans + [p], i + 1) == 0;
    }
  }

  lemma {:induction false} AllowanceIsNatural(cfg: Config, plans: seq<PlannedProbe>, i: nat)
    requires i <= |plans| && DepthBounded(cfg, plans)
    ensures Allowance(cfg, plans, i) >= 0
    decreases |plans| - i
  {
    if i < |plans| {
      AllowanceIsNatural(cfg, plans, i + 1);
    }
  }

  lemma {:induction false} AllowanceAtStart(cfg: Config, plans: seq<PlannedProbe>, i: nat)
    requires i <= |plans|
    requires forall k :: 0 <= k < |plans| ==> plans[k].guidedDepth == 0
    ensures Allowance(cfg, plans, i) == (|plans| - i) * cfg.Retries()
    decreases |plans| - i
  {
    if i < |plans| {
      AllowanceAtStart(cfg, plans, i + 1);
    }
  }

  lemma PrintsOfAppend(plans: seq<PlannedProbe>, p: PlannedProbe)
    ensures Prints(plans + [p]) == Prints(plans) + {p.Print()}
  {
    var all := plans + [p];
    assert all[|plans|] == p;
    forall f | f in Prints(plans)
      ensures f in Prints(all)
    {
      var k :| 0 <= k < |plans| && plans[k].Print() == f;
      assert all[k].Print() == f;
    }
  }

  /** A turn ends with the state it started from, plus at most one retry of the probe that was sent. */
  lemma TurnAddsAtMostOneRetry(cfg: Config, w: World, s: State, plan: PlannedProbe)
    requires Consistent(s)
    ensures
      var (next, turn) := Taken(cfg, w, s, plan);
      && Consistent(next)
      && (next.list.plans == s.list.plans
          || (exists retry :: next.list.plans == s.list.plans + [retry]
                           && retry.Print() !in Prints(s.list.plans)
                           && retry.guidedDepth == plan.guidedDepth + 1 <= cfg.Retries()
                           && |s.list.plans| < cfg.maxRequests))
      && Handled(next) == Handled(s) + if turn == Abort then 0 else 1
  {
    var reply := w.server(s.tally.requests);
    if reply.decision.Repair? {
      PrintsOfAppend(s.list.plans, Retry(plan, reply));
    }
  }

  /** A turn keeps the bound, and reaches the request limit only if the bound allows it. */
  lemma TurnKeepsBound(cfg: Config, w: World, s: State, index: nat, total: int)
    requires Consistent(s) && index < |s.list.plans| && Bounded(cfg, s, index, total)
    ensures
      var (next, _) := Taken(cfg, w, s, s.list.plans[index]);
      && Bounded(cfg, next, index + 1, total)
      && (total <= cfg.maxRequests && !s.list.requestBudgetHit ==> !next.list.requestBudgetHit)
  {
    var plan := s.list.plans[index];
    var (next, _) := Taken(cfg, w, s, plan);
    TurnAddsAtMostOneRetry(cfg, w, s, plan);
    AllowanceIsNatural(cfg, s.list.plans, index + 1);
    if next.list.plans != s.list.plans {
      var retry := next.list.plans[|s.list.plans|];
      assert next.list.plans == s.list.plans + [retry];
      AllowanceOfAppend(cfg, s.list.plans, retry, index + 1);
    }
  }

  /** A turn appends only requests that are not on the list yet. */
  lemma TurnKeepsFresh(cfg: Config, w: World, s: State, plan: PlannedProbe, base: nat)
    requires Consistent(s) && Fresh(s.list.plans, base)
    ensures Fresh(Taken(cfg, w, s, plan).0.list.plans, base)
  {
    TurnAddsAtMostOneRetry(cfg, w, s, plan);
    var (next, _) := Taken(cfg, w, s, plan);
    if next.list.plans != s.list.plans {
      forall i | 0 <= i < |s.list.plans|
        ensures next.list.plans[i].Print() != next.list.plans[|s.list.plans|].Print()
      {
        assert next.list.plans[i].Print() in Prints(s.list.plans);
      }
    }
  }

  /**
   From `s` with its probes up to `index` visited to `next` with those up to `visited`: nothing is visited twice or
   lost, and the list stays within both limits.
   */
  ghost predicate Progress(cfg: Config, s: State, index: nat, next: State, visited: nat, base: nat, total: int) {
    && Consistent(next) && Fresh(next.list.plans, base)
    && s.list.plans <= next.list.plans
    && |next.list.plans| <= cfg.maxRequests
    && Bounded(cfg, next, visited, total)
    && Handled(next) - Handled(s) == visited - index
    && (total <= cfg.maxRequests && !s.list.requestBudgetHit ==> !next.list.requestBudgetHit)
  }

  lemma ProgressOn(cfg: Config, s: State, i: nat, t: State, j: nat, u: State, k: nat, base: nat, total: int)
    requires Progress(cfg, s, i, t, j, base, total) && Progress(cfg, t, j, u, k, base, total)
    ensures Progress(cfg, s, i, u, k, base, total)
  {
  }

  lemma TurnProgress(cfg: Config, w: World, s: State, index: nat, base: nat, total: int)
    requires index < |s.list.plans| <= cfg.maxRequests
    requires Consistent(s) && Fresh(s.list.plans, base) && Bounded(cfg, s, index, total)
    ensures
      var (next, turn) := Taken(cfg, w, s, s.list.plans[index]);
      if turn == Abort then next == s else Progress(cfg, s, index, next, index + 1, base, total)
  {
    TurnAddsAtMostOneRetry(cfg, w, s, s.list.plans[index]);
    TurnKeepsBound(cfg, w, s, index, total);
    TurnKeepsFresh(cfg, w, s, s.list.plans[index], base);
  }

  /** The whole phase. */
  lemma {:induction false} PhaseKeepsWorklist(cfg: Config, w: World, s: State, index: nat, base: nat, total: int)
    requires index <= |s.list.plans| <= cfg.maxRequests
    requires Consistent(s) && Fresh(s.list.plans, base) && Bounded(cfg, s, index, total)
    ensures
      var phase := ProbePhase(cfg, w, s, index);
      && Progress(cfg, s, index, phase.state, phase.visited, base, total)
      && (phase.exit == Finished ==> phase.visited == |phase.state.list.plans|)
    decreases cfg.maxRequests - index
  {
    if index < |s.list.plans| {
      TurnProgress(cfg, w, s, index, base, total);
      var (next, turn) := Taken(cfg, w, s, s.list.plans[index]);
      if turn == Next {
        PhaseKeepsWorklist(cfg, w, next, index + 1, base, total);
        var phase := ProbePhase(cfg, w, next, index + 1);
        ProgressOn(cfg, s, index, next, index + 1, phase.state, phase.visited, base, total);
      }
    }
  }

  // ----- Workflows against the same limit -----

  function StepsLeft(cfg: Config, k: nat): int
    requires k <= |cfg.workflows|
  {
    StepCount(cfg, |cfg.workflows|) - StepCount(cfg, k)
  }

  lemma {:induction false} StepCountGrows(cfg: Config, m: nat, n: nat)
    requires m <= n <= |cfg.workflows|
    ensures StepCount(cfg, m) <= StepCount(cfg, n)
  {
    if m < n {
      StepCountGrows(cfg, m, n - 1);
    }
  }

  /** `s` to `next` sent at most `steps` requests, none past the limit, which it reports only if it is too low. */
  ghost predicate WithinBudget(cfg: Config, s: State, next: State, steps: nat) {
    && |next.probes| == next.tally.requests
    && s.probes <= next.probes
    && next.tally.requests <= s.tally.requests + steps
    && (s.tally.requests <= cfg.maxRequests ==> next.tally.requests <= cfg.maxRequests)
    && (s.tally.requests + steps <= cfg.maxRequests && !s.list.requestBudgetHit ==> !next.list.requestBudgetHit)
  }

  lemma BudgetOn(cfg: Config, s: State, t: State, u: State, m: nat, n: nat, total: nat)
    requires WithinBudget(cfg, s, t, m) && WithinBudget(cfg, t, u, n) && m + n <= total
    ensures WithinBudget(cfg, s, u, total)
  {
  }

  lemma StepWithinBudget(cfg: Config, w: World, s: State, workflow: Workflow, step: WorkflowStep, vars: Variables)
    requires cfg.identities != [] && |s.probes| == s.tally.requests
    ensures WithinBudget(cfg, s, StepTaken(cfg, w, s, workflow, step, vars).state, 1)
  {
  }

  lemma {:induction false} StepsWithinBudget(cfg: Config, w: World, s: State, workflow: Workflow, i: nat,
                                             vars: Variables)
    requires cfg.identities != [] && i <= |workflow.steps| && |s.probes| == s.tally.requests
    ensures WithinBudget(cfg, s, StepsTaken(cfg, w, s, workflow, i, vars).0, |workflow.steps| - i)
    decreases |workflow.steps| - i
  {
    var after := StepsTaken(cfg, w, s, workflow, i, vars).0;
    if i < |workflow.steps| {
      var step := StepTaken(cfg, w, s, workflow, workflow.steps[i], vars);
      StepWithinBudget(cfg, w, s, workflow, workflow.steps[i], vars);
      if step.outcome == Continue {
        StepsWithinBudget(cfg, w, step.state, workflow, i + 1, step.variables);
        BudgetOn(cfg, s, step.state, after, 1, |workflow.steps| - i - 1, |workflow.steps| - i);
      } else {
        assert WithinBudget(cfg, step.state, after, 0);
        BudgetOn(cfg, s, step.state, after, 1, 0, |workflow.steps| - i);
      }
    }
  }

  lemma WorkflowWithinBudget(cfg: Config, w: World, s: State, workflow: Workflow)
    requires cfg.identities != [] && |s.probes| == s.tally.requests
    ensures
      WithinBudget(cfg, s, WorkflowTaken(cfg, w, s, workflow).0,
                   if Skipped(cfg, workflow) then 0 else |workflow.steps|)
  {
    if !Skipped(cfg, workflow) {
      StepsWithinBudget(cfg, w, s, workflow, 0, map[]);
    }
  }

  lemma {:induction false} WorkflowsWithinBudget(cfg: Config, w: World, s: State, k: nat)
    requires cfg.identities != [] && k <= |cfg.workflows| && |s.probes| == s.tally.requests
    ensures StepsLeft(cfg, k) >= 0
    ensures WithinBudget(cfg, s, WorkflowPhase(cfg, w, s, k).0, StepsLeft(cfg, k))
    decreases |cfg.workflows| - k
  {
    StepCountGrows(cfg, k, |cfg.workflows|);
    if k < |cfg.workflows| {
      StepCountGrows(cfg, k + 1, |cfg.workflows|);
      var workflow := cfg.workflows[k];
      var own := if Skipped(cfg, workflow) then 0 else |workflow.steps|;
      var (next, ending) := WorkflowTaken(cfg, w, s, workflow);
      WorkflowWithinBudget(cfg, w, s, workflow);
      assert StepsLeft(cfg, k) == own + StepsLeft(cfg, k + 1);
      if ending == Done {
        WorkflowsWithinBudget(cfg, w, next, k + 1);
        BudgetOn(cfg, s, next, WorkflowPhase(cfg, w, next, k + 1).0, own, StepsLeft(cfg, k + 1), StepsLeft(cfg, k));
      } else {
        assert WithinBudget(cfg, next, next, 0);
        BudgetOn(cfg, s, next, next, own, 0, StepsLeft(cfg, k));
      }
    }
  }

  // ----- The theorems -----

  /** A probe planned from an operation: it has no ancestor, and its key is that of its own operation. */
  ghost predicate Unguided(plans: seq<PlannedProbe>) {
    forall i :: 0 <= i < |plans| ==>
      && plans[i].guidedDepth == 0
      && plans[i].baselineKey == BaselineKey(plans[i].verb, plans[i].baselineURL, plans[i].identity)
      && (plans[i].qualifiesBaseline ==> plans[i].category == "baseline")
      && (plans[i].requiresBaseline <==> IDORCategory(plans[i].category))
  }

  lemma {:induction false} RowsStartUnguided(op: Operation, cases: seq<Mutation>, ids: seq<string>, hasIDOR: bool,
                                             n: nat)
    requires n <= |cases|
    ensures Unguided(Rows(op, cases, ids, hasIDOR, n))
  {
    if n > 0 {
      RowsStartUnguided(op, cases, ids, hasIDOR, n - 1);
    }
  }

  lemma {:induction false} AllPlansStartUnguided(cfg: Config, w: World, ops: seq<Operation>, n: nat)
    requires n <= |ops|
    ensures BuildFirst(cfg, w, ops, n).Ok? ==> Unguided(BuildFirst(cfg, w, ops, n).value.plans)
  {
    if n > 0 {
      AllPlansStartUnguided(cfg, w, ops, n - 1);
      if !cfg.Refuses(ops[n - 1].verb) && Generated(w, ops[n - 1]).Ok? {
        var mutations := Generated(w, ops[n - 1]).value;
        var cases := [Baseline(ops[n - 1])] + mutations;
        RowsStartUnguided(ops[n - 1], cases, cfg.identities, HasIDOR(mutations), |cases|);
      }
    }
  }

  lemma OneAndMore(n: int, factor: int)
    ensures n * (1 + factor) == n + n * factor
  {
  }

  lemma StartIsSound(cfg: Config, w: World, ops: seq<Operation>, total: int)
    requires BuildFirst(cfg, w, ops, |ops|).Ok?
    requires total == |BuildFirst(cfg, w, ops, |ops|).value.plans| * (1 + cfg.Retries())
    ensures
      var start := Initial(BuildFirst(cfg, w, ops, |ops|).value);
      && |start.list.plans| <= cfg.maxRequests
      && Consistent(start) && Fresh(start.list.plans, |start.list.plans|) && Bounded(cfg, start, 0, total)
  {
    var plans := BuildFirst(cfg, w, ops, |ops|).value.plans;
    AllPlansStartUnguided(cfg, w, ops, |ops|);
    AllowanceAtStart(cfg, plans, 0);
    OneAndMore(|plans|, cfg.Retries());
  }

  lemma {:induction false} PhaseKeepsBudgetHit(cfg: Config, w: World, s: State, index: nat)
    requires index <= |s.list.plans| <= cfg.maxRequests && s.list.requestBudgetHit
    ensures ProbePhase(cfg, w, s, index).state.list.requestBudgetHit
    decreases cfg.maxRequests - index
  {
    if index < |s.list.plans| {
      var (next, turn) := Taken(cfg, w, s, s.list.plans[index]);
      assert next.list.requestBudgetHit;
      if turn == Next {
        PhaseKeepsBudgetHit(cfg, w, next, index + 1);
      }
    }
  }

  /**
   For every server, the probe phase ends with every probe handled at most once: the visited probes are
   those sent, skipped because their origin is blocked, or skipped for want of a valid baseline.  Its list
   stays within the request limit, and no appended probe repeats an earlier one.
   */
  lemma WorklistTheorem(cfg: Config, w: World, ops: seq<Operation>)
    requires BuildFirst(cfg, w, ops, |ops|).Ok?
    ensures
      var built := BuildFirst(cfg, w, ops, |ops|).value;
      var phase := FirstPhase(cfg, w, ops);
      var s := phase.state;
      && built.plans <= s.list.plans
      && |s.list.plans| <= cfg.maxRequests
      && |s.list.plans| <= |built.plans| * (1 + cfg.Retries())
      && Fresh(s.list.plans, |built.plans|)
      && DepthBounded(cfg, s.list.plans)
      && phase.visited <= |s.list.plans|
      && (phase.exit == Finished ==> phase.visited == |s.list.plans|)
      && s.tally.requests + s.skips.isolated + s.skips.invalidIDOR == phase.visited
      && |s.probes| == s.tally.requests
      && s.list.unresolvedHints == |s.list.unresolvedRoots|
      && (|built.plans| * (1 + cfg.Retries()) <= cfg.maxRequests ==>
            s.list.requestBudgetHit == built.truncated)
  {
    var built := BuildFirst(cfg, w, ops, |ops|).value;
    var start, total := Initial(built), |built.plans| * (1 + cfg.Retries());
    StartIsSound(cfg, w, ops, total);
    PhaseKeepsWorklist(cfg, w, start, 0, |built.plans|, total);
    var phase := ProbePhase(cfg, w, start, 0);
    assert phase == FirstPhase(cfg, w, ops);
    AllowanceIsNatural(cfg, phase.state.list.plans, phase.visited);
    if built.truncated {
      PhaseKeepsBudgetHit(cfg, w, start, 0);
    }
  }

  lemma ScaledUp(a: nat, b: nat, factor: nat)
    requires a <= b
    ensures a * (1 + factor) <= b * (1 + factor)
  {
  }

  /** The probe phase alone leaves room for every workflow step the forecast counts. */
  lemma FirstPhaseWithinForecast(cfg: Config, w: World, ops: seq<Operation>)
    requires Plannable(cfg, w, ops, |ops|) && BuildFirst(cfg, w, ops, |ops|).Ok?
    ensures
      var forecast := Forecast(cfg, w, ops);
      var s := FirstPhase(cfg, w, ops).state;
      && |s.probes| == s.tally.requests <= cfg.maxRequests
      && s.tally.requests + StepCount(cfg, |cfg.workflows|) <= forecast.requiredRequests
      && (!forecast.exceedsBudget ==> !s.list.requestBudgetHit)
  {
    BuildIsPrefix(cfg, w, ops, |ops|);
    WorklistTheorem(cfg, w, ops);
    var planned := |BuildFirst(cfg, w, ops, |ops|).value.plans|;
    var all := |AllPlans(cfg, w, ops, |ops|)|;
    ScaledUp(planned, all, cfg.Retries());
    OneAndMore(all, cfg.Retries());
  }

  /** A run that plans ends with what its probe phase leaves, or with what its workflows make of that. */
  lemma RunEnds(cfg: Config, w: World, ops: seq<Operation>)
    requires cfg.identities != [] && BuildFirst(cfg, w, ops, |ops|).Ok?
    ensures
      var run, s := RunAll(cfg, w, ops), FirstPhase(cfg, w, ops).state;
      run.Reported? && (run.state == s || run.state == WorkflowPhase(cfg, w, s, 0).0)
  {
  }

  /** Phases within their budgets, one after the other. */
  lemma BudgetTotals(cfg: Config, s: State, end: State, steps: nat, forecast: PlanSummary)
    requires WithinBudget(cfg, s, end, steps) || (end == s && |s.probes| == s.tally.requests)
    requires s.tally.requests <= cfg.maxRequests && s.tally.requests + steps <= forecast.requiredRequests
    requires !forecast.exceedsBudget ==> !s.list.requestBudgetHit && forecast.requiredRequests <= cfg.maxRequests
    ensures |end.probes| == end.tally.requests
    ensures end.tally.requests <= forecast.requiredRequests && end.tally.requests <= cfg.maxRequests
    ensures !forecast.exceedsBudget ==> !end.list.requestBudgetHit
  {
  }

  /**
   Planner soundness.  Whatever the server answers, a run sends no more requests than the forecast asks
   for and than the limit allows; and if the forecast fits the limit, no run reports that it was hit.
   */
  lemma PlannerSoundness(cfg: Config, w: World, ops: seq<Operation>)
    requires cfg.Valid() && Plannable(cfg, w, ops, |ops|)
    ensures
      var forecast := Forecast(cfg, w, ops);
      var run := RunAll(cfg, w, ops);
      && run.Reported?
      && |run.state.probes| == run.state.tally.requests
      && run.state.tally.requests <= forecast.requiredRequests
      && run.state.tally.requests <= cfg.maxRequests
      && (!forecast.exceedsBudget ==> !run.state.list.requestBudgetHit)
  {
    BuildIsPrefix(cfg, w, ops, |ops|);
    FirstPhaseWithinForecast(cfg, w, ops);
    var s := FirstPhase(cfg, w, ops).state;
    WorkflowsWithinBudget(cfg, w, s, 0);
    RunEnds(cfg, w, ops);
    BudgetTotals(cfg, s, RunAll(cfg, w, ops).state, StepsLeft(cfg, 0), Forecast(cfg, w, ops));
  }
}
