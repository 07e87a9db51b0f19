/**
 Turning operations into probes, and forecasting how many requests a run needs.

 Both start from the same sequence, `AllPlans`: every case of every permitted operation for every
 identity.  The run takes a prefix of it that fits the request limit; the forecast measures all of it.
 */
module FuzzPlanner {
  import opened Wrappers
  import opened Text
  import opened FuzzModel

  function Prefix<T>(s: seq<T>, n: nat): seq<T> {
    if |s| <= n then s else s[..n]
  }

  /** The mutations of an operation, or why it cannot be replayed. */
  function Generated(w: World, op: Operation): Result<seq<Mutation>, Error> {
    if |op.requestBody| > MAXIMUM_BASELINE_BYTES || |op.url| > MAXIMUM_URL_BYTES then Err(Oversized)
    else w.generate(op)
  }

  function Baseline(op: Operation): Mutation {
    Mutation("baseline", "baseline", op.url, op.requestBody)
  }

  predicate HasIDOR(mutations: seq<Mutation>) {
    exists i :: 0 <= i < |mutations| && IDORCategory(mutations[i].category)
  }

  function MakePlan(op: Operation, testCase: Mutation, identity: string, hasIDOR: bool): PlannedProbe {
    var verb := ToUpper(op.verb);
    PlannedProbe(
      verb, testCase.url, op.url, testCase.body, op.contentType, testCase.name, testCase.category, identity,
      0, Fingerprint(verb, testCase.url, identity, testCase.body), false,
      BaselineKey(verb, op.url, identity),
      testCase.category == "baseline" && hasIDOR, IDORCategory(testCase.category))
  }

  /** One case for the first `n` identities. */
  function Row(op: Operation, testCase: Mutation, ids: seq<string>, hasIDOR: bool, n: nat): (r: seq<PlannedProbe>)
    requires n <= |ids|
    ensures |r| == n
  {
    seq(n, i requires 0 <= i < n => MakePlan(op, testCase, ids[i], hasIDOR))
  }

  /** The first `n` cases for every identity. */
  function Rows(op: Operation, cases: seq<Mutation>, ids: seq<string>, hasIDOR: bool, n: nat): (r: seq<PlannedProbe>)
    requires n <= |cases|
    ensures |r| == n * |ids|
  {
    if n == 0 then [] else Rows(op, cases, ids, hasIDOR, n - 1) + Row(op, cases[n - 1], ids, hasIDOR, |ids|)
  }

  function OperationPlans(op: Operation, mutations: seq<Mutation>, ids: seq<string>): seq<PlannedProbe> {
    Rows(op, [Baseline(op)] + mutations, ids, HasIDOR(mutations), 1 + |mutations|)
  }

  /** Every one of the first `n` operations that may be sent can be planned. */
  predicate Plannable(cfg: Config, w: World, ops: seq<Operation>, n: nat)
    requires n <= |ops|
  {
    forall i :: 0 <= i < n && !cfg.Refuses(ops[i].verb) ==> Generated(w, ops[i]).Ok?
  }

  /** The probes of the first `n` operations, without a limit. */
  function AllPlans(cfg: Config, w: World, ops: seq<Operation>, n: nat): seq<PlannedProbe>
    requires n <= |ops| && Plannable(cfg, w, ops, n)
  {
    if n == 0 then []
    else if cfg.Refuses(ops[n - 1].verb) then AllPlans(cfg, w, ops, n - 1)
    else AllPlans(cfg, w, ops, n - 1) + OperationPlans(ops[n - 1], Generated(w, ops[n - 1]).value, cfg.identities)
  }

  function RefusedCount(cfg: Config, ops: seq<Operation>, n: nat): nat
    requires n <= |ops|
  {
    if n == 0 then 0 else RefusedCount(cfg, ops, n - 1) + if cfg.Refuses(ops[n - 1].verb) then 1 else 0
  }

  /** The probes a run starts with, the operations it refused, and whether the limit cut the list short. */
  datatype Built = Built(plans: seq<PlannedProbe>, refused: nat, truncated: bool)

  /** Planning the first `n` operations: it stops at the first operation that fails or overflows the limit. */
  function BuildFirst(cfg: Config, w: World, ops: seq<Operation>, n: nat): (r: Result<Built, Error>)
    requires n <= |ops|
    ensures r.Ok? ==> |r.value.plans| <= cfg.maxRequests
  {
    if n == 0 then Ok(Built([], 0, false))
    else
      var before := BuildFirst(cfg, w, ops, n - 1);
      if before.Err? || before.value.truncated then before
      else if cfg.Refuses(ops[n - 1].verb) then Ok(before.value.(refused := before.value.refused + 1))
      else
        match Generated(w, ops[n - 1])
        case Err(e) => Err(e)
        case Ok(mutations) =>
          var all := before.value.plans + OperationPlans(ops[n - 1], mutations, cfg.identities);
          Ok(Built(Prefix(all, cfg.maxRequests), before.value.refused, |all| > cfg.maxRequests))
  }

  lemma {:induction false} BuildSettles(cfg: Config, w: World, ops: seq<Operation>, m: nat, n: nat)
    requires m <= n <= |ops|
    requires BuildFirst(cfg, w, ops, m).Err? || BuildFirst(cfg, w, ops, m).value.truncated
    ensures BuildFirst(cfg, w, ops, n) == BuildFirst(cfg, w, ops, m)
  {
    if m < n {
      BuildSettles(cfg, w, ops, m, n - 1);
    }
  }

  lemma {:induction false} RowsStartWith(
    op: Operation, cases: seq<Mutation>, ids: seq<string>, hasIDOR: bool, m: nat, n: nat)
    requires m <= n <= |cases|
    ensures Rows(op, cases, ids, hasIDOR, m) <= Rows(op, cases, ids, hasIDOR, n)
  {
    if m < n {
      RowsStartWith(op, cases, ids, hasIDOR, m, n - 1);
    }
  }

  lemma PartialRow(op: Operation, cases: seq<Mutation>, ids: seq<string>, hasIDOR: bool, c: nat, i: nat)
    requires c < |cases| && i < |ids|
    ensures Rows(op, cases, ids, hasIDOR, c) + Row(op, cases[c], ids, hasIDOR, i)
         <= Rows(op, cases, ids, hasIDOR, |cases|)
    ensures |Rows(op, cases, ids, hasIDOR, c)| + i < |Rows(op, cases, ids, hasIDOR, |cases|)|
  {
    var row := Row(op, cases[c], ids, hasIDOR, |ids|);
    assert Row(op, cases[c], ids, hasIDOR, i) == row[..i];
    RowsStartWith(op, cases, ids, hasIDOR, c + 1, |cases|);
  }

  method FindsIDOR(mutations: seq<Mutation>) returns (found: bool)
    ensures found == HasIDOR(mutations)
  {
    for k := 0 to |mutations|
      invariant forall i :: 0 <= i < k ==> !IDORCategory(mutations[i].category)
    {
      if IDORCategory(mutations[k].category) {
        return true;
      }
    }
    return false;
  }

  /** Every case for every identity, until the limit. */
  method PlanCases(op: Operation, cases: seq<Mutation>, ids: seq<string>, hasIDOR: bool, limit: nat)
    returns (plans: seq<PlannedProbe>, cut: bool)
    ensures
      var all := Rows(op, cases, ids, hasIDOR, |cases|);
      plans == Prefix(all, limit) && cut == (|all| > limit)
  {
    plans := [];
    for c := 0 to |cases|
      invariant |plans| <= limit
      invariant plans == Rows(op, cases, ids, hasIDOR, c)
    {
      RowsStartWith(op, cases, ids, hasIDOR, c + 1, |cases|);
      for i := 0 to |ids|
        invariant |plans| <= limit
        invariant plans == Rows(op, cases, ids, hasIDOR, c) + Row(op, cases[c], ids, hasIDOR, i)
      {
        if |plans| >= limit {
          PartialRow(op, cases, ids, hasIDOR, c, i);
          return plans, true;
        }
        plans := plans + [MakePlan(op, cases[c], ids[i], hasIDOR)];
      }
    }
    return plans, false;
  }

  /** Plans one operation within `limit`; the second result says that the limit cut it short. */
  method PlanOperationProbes(w: World, op: Operation, ids: seq<string>, limit: nat)
    returns (r: Result<(seq<PlannedProbe>, bool), Error>)
    ensures Generated(w, op).Err? ==> r == Err(Generated(w, op).error)
    ensures Generated(w, op).Ok? ==>
      var all := OperationPlans(op, Generated(w, op).value, ids);
      r == Ok((Prefix(all, limit), |all| > limit))
  {
    if |op.requestBody| > MAXIMUM_BASELINE_BYTES {
      return Err(Oversized);
    }
    if |op.url| > MAXIMUM_URL_BYTES {
      return Err(Oversized);
    }
    var generated := w.generate(op);
    if generated.Err? {
      return Err(generated.error);
    }
    var hasIDOR := FindsIDOR(generated.value);
    var plans, cut := PlanCases(op, [Baseline(op)] + generated.value, ids, hasIDOR, limit);
    return Ok((plans, cut));
  }

  /** Adding to a prefix with room left is a prefix of what is added to. */
  lemma PrefixOnTop<T>(plans: seq<T>, more: seq<T>, limit: nat)
    requires |plans| <= limit
    ensures plans + Prefix(more, limit - |plans|) == Prefix(plans + more, limit)
  {
  }

  /** One more operation, while the limit has not cut anything. */
  lemma BuildNext(cfg: Config, w: World, ops: seq<Operation>, k: nat, plans: seq<PlannedProbe>, refused: nat)
    requires k < |ops| && |plans| <= cfg.maxRequests
    requires BuildFirst(cfg, w, ops, k) == Ok(Built(plans, refused, false))
    ensures
      var op := ops[k];
      BuildFirst(cfg, w, ops, k + 1)
      == if cfg.Refuses(op.verb) then Ok(Built(plans, refused + 1, false))
         else match Generated(w, op)
           case Err(e) => Err(e)
           case Ok(mutations) =>
             var more := OperationPlans(op, mutations, cfg.identities);
             Ok(Built(plans + Prefix(more, cfg.maxRequests - |plans|), refused, |more| > cfg.maxRequests - |plans|))
  {
    if !cfg.Refuses(ops[k].verb) && Generated(w, ops[k]).Ok? {
      PrefixOnTop(plans, OperationPlans(ops[k], Generated(w, ops[k]).value, cfg.identities), cfg.maxRequests);
    }
  }

  /** The probes a run starts with. */
  method BuildProbePlans(cfg: Config, w: World, ops: seq<Operation>) returns (r: Result<Built, Error>)
    ensures r == BuildFirst(cfg, w, ops, |ops|)
  {
    var plans: seq<PlannedProbe> := [];
    var refused: nat := 0;
    for k := 0 to |ops|
      invariant |plans| <= cfg.maxRequests
      invariant BuildFirst(cfg, w, ops, k) == Ok(Built(plans, refused, false))
    {
      var op := ops[k];
      BuildNext(cfg, w, ops, k, plans, refused);
      if cfg.Refuses(op.verb) {
        refused := refused + 1;
        continue;
      }
      var planned := PlanOperationProbes(w, op, cfg.identities, cfg.maxRequests - |plans|);
      if planned.Err? {
        r := Err(planned.error);
        assert r == BuildFirst(cfg, w, ops, k + 1);
        BuildSettles(cfg, w, ops, k + 1, |ops|);
        return;
      }
      plans := plans + planned.value.0;
      if planned.value.1 {
        r := Ok(Built(plans, refused, true));
        assert r == BuildFirst(cfg, w, ops, k + 1);
        BuildSettles(cfg, w, ops, k + 1, |ops|);
        return;
      }
    }
    return Ok(Built(plans, refused, false));
  }

  /** When every operation can be planned, the run starts with exactly the prefix that fits. */
  lemma {:induction false} BuildIsPrefix(cfg: Config, w: World, ops: seq<Operation>, n: nat)
    requires n <= |ops| && Plannable(cfg, w, ops, n)
    ensures BuildFirst(cfg, w, ops, n).Ok?
    ensures BuildFirst(cfg, w, ops, n).value.plans == Prefix(AllPlans(cfg, w, ops, n), cfg.maxRequests)
    ensures BuildFirst(cfg, w, ops, n).value.truncated == (|AllPlans(cfg, w, ops, n)| > cfg.maxRequests)
    ensures !BuildFirst(cfg, w, ops, n).value.truncated ==>
      BuildFirst(cfg, w, ops, n).value.refused == RefusedCount(cfg, ops, n)
  {
    if n > 0 {
      BuildIsPrefix(cfg, w, ops, n - 1);
    }
  }

  // ----- The forecast -----

  datatype PlanSummary = PlanSummary(
    deterministicRequests: nat, reservedGuidedRequests: nat, requiredRequests: nat,
    skippedUnsafe: nat, exceedsBudget: bool)

  function UnsafeSteps(steps: seq<WorkflowStep>): nat {
    if steps == [] then 0
    else UnsafeSteps(steps[..|steps| - 1]) + if StateChanging(steps[|steps| - 1].verb) then 1 else 0
  }

  method WorkflowUnsafeSteps(workflow: Workflow) returns (count: nat)
    ensures count == UnsafeSteps(workflow.steps)
  {
    count := 0;
    for i := 0 to |workflow.steps|
      invariant count == UnsafeSteps(workflow.steps[..i])
    {
      assert workflow.steps[..i + 1][..i] == workflow.steps[..i];
      if StateChanging(workflow.steps[i].verb) {
        count := count + 1;
      }
    }
    assert workflow.steps[..|workflow.steps|] == workflow.steps;
  }

  predicate Skipped(cfg: Config, workflow: Workflow) {
    UnsafeSteps(workflow.steps) > 0 && !cfg.acceptRisk
  }

  /** The steps of the first `n` workflows that may run, and the unsafe steps of the others. */
  function StepCount(cfg: Config, n: nat): nat
    requires n <= |cfg.workflows|
  {
    if n == 0 then 0
    else StepCount(cfg, n - 1) + if Skipped(cfg, cfg.workflows[n - 1]) then 0 else |cfg.workflows[n - 1].steps|
  }

  function SkippedStepCount(cfg: Config, n: nat): nat
    requires n <= |cfg.workflows|
  {
    if n == 0 then 0
    else
      var last := cfg.workflows[n - 1];
      SkippedStepCount(cfg, n - 1) + if Skipped(cfg, last) then UnsafeSteps(last.steps) else 0
  }

  function Forecast(cfg: Config, w: World, ops: seq<Operation>): PlanSummary
    requires Plannable(cfg, w, ops, |ops|)
  {
    var probes := |AllPlans(cfg, w, ops, |ops|)|;
    var deterministic := probes + StepCount(cfg, |cfg.workflows|);
    var reserved := probes * cfg.Retries();
    PlanSummary(
      deterministic, reserved, deterministic + reserved,
      RefusedCount(cfg, ops, |ops|) + SkippedStepCount(cfg, |cfg.workflows|),
      deterministic + reserved > cfg.maxRequests)
  }

  /** Counts, without sending anything, the requests a run may need. */
  method Plan(cfg: Config, w: World, ops: seq<Operation>) returns (r: Result<PlanSummary, Error>)
    ensures r.Ok? <==> Plannable(cfg, w, ops, |ops|)
    ensures r.Ok? ==> r.value == Forecast(cfg, w, ops)
  {
    var skippedUnsafe: nat, deterministic: nat, operationRequests: nat := 0, 0, 0;
    for k := 0 to |ops|
      invariant Plannable(cfg, w, ops, k)
      invariant operationRequests == |AllPlans(cfg, w, ops, k)| == deterministic
      invariant skippedUnsafe == RefusedCount(cfg, ops, k)
    {
      var op := ops[k];
      if cfg.Refuses(op.verb) {
        skippedUnsafe := skippedUnsafe + 1;
        continue;
      }
      if |op.requestBody| > MAXIMUM_BASELINE_BYTES {
        return Err(Oversized);
      }
      if |op.url| > MAXIMUM_URL_BYTES {
        return Err(Oversized);
      }
      var mutations := w.generate(op);
      if mutations.Err? {
        return Err(mutations.error);
      }
      var operationRequestCount := (|mutations.value| + 1) * |cfg.identities|;
      operationRequests := operationRequests + operationRequestCount;
      deterministic := deterministic + operationRequestCount;
    }
    for k := 0 to |cfg.workflows|
      invariant deterministic == operationRequests + StepCount(cfg, k)
      invariant skippedUnsafe == RefusedCount(cfg, ops, |ops|) + SkippedStepCount(cfg, k)
    {
      var unsafeSteps := WorkflowUnsafeSteps(cfg.workflows[k]);
      if unsafeSteps > 0 && !cfg.acceptRisk {
        skippedUnsafe := skippedUnsafe + unsafeSteps;
        continue;
      }
      deterministic := deterministic + |cfg.workflows[k].steps|;
    }
    var reserved: nat := 0;
    if cfg.responseGuided {
      reserved := operationRequests * cfg.maxGuidedRetries;
    }
    var required := deterministic + reserved;
    return Ok(PlanSummary(deterministic, reserved, required, skippedUnsafe, required > cfg.maxRequests));
  }
}
