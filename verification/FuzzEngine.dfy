/**
 The fuzz run in place: one object holds the growing list of probes, the maps and the counters, and each
 method updates them.  Every method is proved to take the state where the functions of module FuzzRun
 say it goes; modules FuzzWorklist, FuzzGate and FuzzIsolation prove what those functions guarantee.
 */
module FuzzEngine {
  import opened Wrappers
  import opened FuzzModel
  import opened FuzzPlanner
  import opened FuzzRun

  method CheckQualifies(reply: Reply) returns (r: bool)
    ensures r == Qualifies(reply)
  {
    if reply.failed || reply.status < 200 || reply.status >= 300 || reply.body.decoded.None? {
      return false;
    }
    r := Json.LooksLikeObjectData(reply.body.decoded.value);
  }

  method CheckApplicationFailure(reply: Reply) returns (r: bool)
    ensures r == ApplicationFailure(reply)
  {
    if reply.failed || reply.status >= 400 {
      return true;
    }
    if reply.body.decoded.None? {
      return false;
    }
    r := Json.ExplicitFailureEnvelope(reply.body.decoded.value);
  }

  method CheckSuccessfulData(reply: Reply) returns (r: bool)
    ensures r == SuccessfulData(reply)
  {
    if reply.failed || reply.status < 200 || reply.status >= 300 {
      return false;
    }
    if reply.body.decoded.None? {
      return !reply.body.blank;
    }
    var failure := Json.ExplicitFailureEnvelope(reply.body.decoded.value);
    if failure {
      return false;
    }
    var count := Json.SubstantiveLeafCount(reply.body.decoded.value, 1);
    return count >= 1;
  }

  class Run {
    const cfg: Config
    const world: World

    var plans: seq<PlannedProbe>
    var seenPlans: set<Fingerprint>
    var unresolvedRoots: set<Fingerprint>
    var baselines: map<BaselineKey, bool>
    var blockedOrigins: set<string>
    var transportErrors: map<string, nat>
    var probes: seq<Exchange>

    // The summary.
    var tally: Tally
    var rateLimited: bool
    var requestBudgetHit: bool
    var sideEffectsVerified: nat
    var guidedRetries: nat
    var guidedSuccesses: nat
    var unresolvedHints: nat
    var qualifiedBaselines: nat
    var rejectedBaselines: nat
    var skippedUnsafe: nat
    var skippedInvalidIDOR: nat
    var skippedIsolated: nat
    var rateLimitedOrigins: nat
    var transportLimitedOrigins: nat

    function TheList(): Worklist
      reads this
    {
      Worklist(plans, seenPlans, unresolvedRoots, unresolvedHints, requestBudgetHit)
    }

    function TheCircuit(): Circuit
      reads this
    {
      Circuit(blockedOrigins, transportErrors, rateLimited, rateLimitedOrigins, transportLimitedOrigins)
    }

    function TheGate(): Gate
      reads this
    {
      Gate(baselines, qualifiedBaselines, rejectedBaselines)
    }

    function TheState(): State
      reads this
    {
      State(
        TheList(), TheCircuit(), TheGate(), tally, Guided(guidedRetries, guidedSuccesses),
        Skips(skippedIsolated, skippedInvalidIDOR, skippedUnsafe), sideEffectsVerified, probes)
    }

    constructor (cfg: Config, world: World, built: Built)
      ensures this.cfg == cfg && this.world == world
      ensures TheState() == Initial(built)
    {
      this.cfg, this.world := cfg, world;
      plans := built.plans;
      unresolvedRoots, baselines, blockedOrigins, transportErrors := {}, map[], {}, map[];
      probes, tally := [], Tally(0, 0, 0, 0, 0, 0);
      rateLimited, requestBudgetHit := false, built.truncated;
      sideEffectsVerified, guidedRetries, guidedSuccesses, unresolvedHints := 0, 0, 0, 0;
      qualifiedBaselines, rejectedBaselines := 0, 0;
      skippedUnsafe, skippedInvalidIDOR, skippedIsolated := built.refused, 0, 0;
      rateLimitedOrigins, transportLimitedOrigins := 0, 0;
      seenPlans := {};
      new;
      for i := 0 to |plans|
        invariant plans == built.plans
        invariant TheState() == Initial(built).(list := TheList())
        invariant TheList() == Initial(built).list.(seenPlans := Prints(built.plans[..i]))
      {
        PrintsOfPrefix(built.plans, i);
        seenPlans := seenPlans + {plans[i].Print()};
      }
      assert built.plans[..|plans|] == built.plans;
    }

    static lemma PrintsOfPrefix(plans: seq<PlannedProbe>, i: nat)
      requires i < |plans|
      ensures Prints(plans[..i + 1]) == Prints(plans[..i]) + {plans[i].Print()}
    {
      forall f | f in Prints(plans[..i])
        ensures f in Prints(plans[..i + 1])
      {
        var k :| 0 <= k < i && plans[..i][k].Print() == f;
        assert plans[..i + 1][k].Print() == f;
      }
      assert plans[..i + 1][i].Print() == plans[i].Print();
      forall f | f in Prints(plans[..i + 1])
        ensures f in Prints(plans[..i]) + {plans[i].Print()}
      {
        var k :| 0 <= k < i + 1 && plans[..i + 1][k].Print() == f;
        if k < i {
          assert plans[..i][k].Print() == f;
        }
      }
    }

    predicate IsBlocked(url: string)
      reads this
      ensures IsBlocked(url) == OriginBlocked(world, TheCircuit(), url)
    {
      var origin := world.origin(url);
      origin.Some? && origin.value in blockedOrigins
    }

    method BlockOrigin(url: string) returns (blocked: bool)
      modifies this`blockedOrigins
      ensures blocked == world.origin(url).Some?
      ensures blocked ==> blockedOrigins == old(blockedOrigins) + {world.origin(url).value}
      ensures !blocked ==> blockedOrigins == old(blockedOrigins)
    {
      var origin := world.origin(url);
      if origin.None? {
        return false;
      }
      if origin.value in blockedOrigins {
        return true;
      }
      blockedOrigins := blockedOrigins + {origin.value};
      return true;
    }

    /** Counts consecutive failures of an origin; says whether this one blocks it. */
    method RecordTransportResult(url: string, failed: bool) returns (limited: bool)
      modifies this`transportErrors, this`blockedOrigins
      ensures world.origin(url).None? ==> !limited && TheCircuit() == old(TheCircuit())
      ensures world.origin(url).Some? ==>
        var origin := world.origin(url).value;
        var count := if failed then Failures(old(TheCircuit()), origin) + 1 else 0;
        && limited == (count >= MAXIMUM_ORIGIN_ERRORS)
        && transportErrors == old(transportErrors)[origin := count]
        && blockedOrigins == if limited then old(blockedOrigins) + {origin} else old(blockedOrigins)
    {
      var origin := world.origin(url);
      if origin.None? {
        return false;
      }
      if !failed {
        transportErrors := transportErrors[origin.value := 0];
        return false;
      }
      var count := if origin.value in transportErrors then transportErrors[origin.value] else 0;
      transportErrors := transportErrors[origin.value := count + 1];
      if transportErrors[origin.value] < MAXIMUM_ORIGIN_ERRORS {
        return false;
      }
      blockedOrigins := blockedOrigins + {origin.value};
      return true;
    }

    /** A rate-limited reply blocks its origin, or ends the run. */
    method ObserveRateLimit(url: string) returns (verdict: Verdict)
      modifies this
      ensures (TheCircuit(), verdict) == RateLimitObserved(cfg, world, old(TheCircuit()), url)
      ensures TheState() == old(TheState()).(circuit := TheCircuit())
    {
      rateLimited := true;
      if cfg.continueOnTargetError {
        var blocked := BlockOrigin(url);
        if blocked {
          rateLimitedOrigins := rateLimitedOrigins + 1;
          return Isolate;
        }
      }
      return Halt;
    }

    /** Any other reply counts as a success or a failure of its origin. */
    method ObserveTransport(url: string, failed: bool) returns (verdict: Verdict)
      modifies this
      ensures (TheCircuit(), verdict) == TransportObserved(cfg, world, old(TheCircuit()), url, failed)
      ensures TheState() == old(TheState()).(circuit := TheCircuit())
    {
      if cfg.continueOnTargetError {
        var limited := RecordTransportResult(url, failed);
        if limited {
          transportLimitedOrigins := transportLimitedOrigins + 1;
          return Isolate;
        }
      }
      return Proceed;
    }

    /** The circuit's part of handling a reply, the same for probes and workflow steps. */
    method ObserveReply(url: string, reply: Reply) returns (verdict: Verdict)
      modifies this
      ensures (TheCircuit(), verdict) == Observed(cfg, world, old(TheCircuit()), url, reply)
      ensures TheState() == old(TheState()).(circuit := TheCircuit())
    {
      if RateLimited(reply) {
        verdict := ObserveRateLimit(url);
      } else {
        verdict := ObserveTransport(url, reply.originFailure);
      }
    }

    method UpdateSummary(reply: Reply)
      modifies this
      ensures TheState() == old(TheState()).(tally := Counted(old(tally), reply))
    {
      tally := tally.(requests := tally.requests + 1);
      if reply.failed {
        tally := tally.(failures := tally.failures + 1);
        return;
      }
      if 200 <= reply.status < 300 {
        tally := tally.(responses2xx := tally.responses2xx + 1);
      } else if 300 <= reply.status < 400 {
        tally := tally.(responses3xx := tally.responses3xx + 1);
      } else if 400 <= reply.status < 500 {
        tally := tally.(responses4xx := tally.responses4xx + 1);
      } else if reply.status >= 500 {
        tally := tally.(responses5xx := tally.responses5xx + 1);
      }
    }

    method RecordBaseline(plan: PlannedProbe, reply: Reply)
      modifies this
      ensures TheState() == old(TheState()).(gate := Judged(old(TheGate()), plan, reply))
    {
      if !plan.qualifiesBaseline {
        return;
      }
      var qualified := CheckQualifies(reply);
      baselines := baselines[plan.baselineKey := qualified];
      if qualified {
        qualifiedBaselines := qualifiedBaselines + 1;
      } else {
        rejectedBaselines := rejectedBaselines + 1;
      }
    }

    method RecordGuidedResult(plan: PlannedProbe, reply: Reply)
      modifies this
      ensures TheState() == old(TheState()).(guided := Credited(old(TheState()).guided, plan, reply))
    {
      if plan.guidedDepth == 0 {
        return;
      }
      guidedRetries := guidedRetries + 1;
      if plan.guidedFromFailure {
        var success := CheckSuccessfulData(reply);
        if success {
          guidedSuccesses := guidedSuccesses + 1;
        }
      }
    }

    method RecordReply(plan: PlannedProbe, reply: Reply)
      modifies this
      ensures
        var before := old(TheState());
        TheState() == before.(
          gate := Judged(before.gate, plan, reply), tally := Counted(before.tally, reply),
          guided := Credited(before.guided, plan, reply), probes := before.probes + [Exchange(plan, reply)])
    {
      probes := probes + [Exchange(plan, reply)];
      UpdateSummary(reply);
      RecordBaseline(plan, reply);
      RecordGuidedResult(plan, reply);
    }

    method RecordUnresolved(root: Fingerprint)
      modifies this
      ensures TheState() == old(TheState()).(list := WithUnresolved(old(TheList()), root))
    {
      if root !in unresolvedRoots {
        unresolvedRoots := unresolvedRoots + {root};
        unresolvedHints := unresolvedHints + 1;
      }
    }

    /** Appends a retry whose request was not planned yet, while there is room. */
    method AppendRetry(retry: PlannedProbe)
      modifies this
      ensures TheState() == old(TheState()).(list := WithRetry(cfg, old(TheList()), retry))
    {
      var fingerprint := retry.Print();
      var duplicate := fingerprint in seenPlans;
      if !duplicate && |plans| < cfg.maxRequests {
        seenPlans := seenPlans + {fingerprint};
        plans := plans + [retry];
      } else if !duplicate {
        requestBudgetHit := true;
      }
    }

    /** The probe with its repair. */
    method MakeRetry(plan: PlannedProbe, reply: Reply) returns (retry: PlannedProbe)
      requires reply.decision.Repair?
      ensures retry == Retry(plan, reply)
    {
      var failure := CheckApplicationFailure(reply);
      retry := plan.(
        targetURL := reply.decision.url, body := reply.decision.body, contentType := reply.decision.contentType,
        caseName := RetryName(plan.guidedDepth + 1, reply.decision.cause), category := "response_guided",
        guidedDepth := plan.guidedDepth + 1, guidedFromFailure := failure, qualifiesBaseline := false);
    }

    method ScheduleGuidedRetry(plan: PlannedProbe, reply: Reply)
      modifies this
      ensures TheState() == old(TheState()).(list := Scheduled(cfg, old(TheList()), plan, reply))
    {
      match reply.decision
      case NoHint =>
      case Unresolved => RecordUnresolved(plan.guidedRoot);
      case Repair(_, _, _, _) =>
        var retry := MakeRetry(plan, reply);
        AppendRetry(retry);
    }

    method ExecutePlannedProbe(plan: PlannedProbe) returns (stop: bool)
      modifies this
      ensures (TheState(), if stop then Break else Next)
           == Probed(cfg, world, old(TheState()), plan, world.server(old(tally.requests)))
    {
      var reply := world.server(tally.requests);
      RecordReply(plan, reply);
      var verdict := ObserveReply(plan.targetURL, reply);
      if verdict == Proceed && cfg.responseGuided && plan.guidedDepth < cfg.maxGuidedRetries {
        ScheduleGuidedRetry(plan, reply);
      }
      return verdict == Halt;
    }

    /** Skips or sends the probe whose turn it is. */
    method TakeTurn(plan: PlannedProbe) returns (turn: Turn)
      modifies this
      ensures (TheState(), turn) == Taken(cfg, world, old(TheState()), plan)
    {
      if cfg.continueOnTargetError && IsBlocked(plan.targetURL) {
        skippedIsolated := skippedIsolated + 1;
        return Next;
      }
      if plan.requiresBaseline && !(plan.baselineKey in baselines && baselines[plan.baselineKey]) {
        skippedInvalidIDOR := skippedInvalidIDOR + 1;
        return Next;
      }
      if tally.requests > 0 {
        if world.canceled(tally.requests) {
          return Abort;
        }
      }
      var stop := ExecutePlannedProbe(plan);
      return if stop then Break else Next;
    }

    /** Consumes the list of probes while the replies make it grow. */
    method ExecuteProbePlans() returns (exit: Exit, ghost visited: nat)
      requires |plans| <= cfg.maxRequests
      modifies this
      ensures Phase(TheState(), visited, exit) == ProbePhase(cfg, world, old(TheState()), 0)
    {
      var index := 0;
      while index < |plans|
        invariant index <= |plans| <= cfg.maxRequests
        invariant ProbePhase(cfg, world, TheState(), index) == ProbePhase(cfg, world, old(TheState()), 0)
        decreases cfg.maxRequests - index
      {
        var turn := TakeTurn(plans[index]);
        if turn == Abort {
          return Canceled, index;
        }
        index := index + 1;
        if turn == Break {
          return Stopped, index;
        }
      }
      return Finished, index;
    }

    /** Takes one workflow step; `vars` are the variables captured so far. */
    method ExecuteStep(workflow: Workflow, step: WorkflowStep, vars: Variables)
      returns (next: Variables, outcome: Outcome)
      requires cfg.identities != []
      modifies this
      ensures StepResult(TheState(), next, outcome) == StepTaken(cfg, world, old(TheState()), workflow, step, vars)
    {
      if tally.requests >= cfg.maxRequests {
        requestBudgetHit := true;
        return vars, Stop;
      }
      var identity := cfg.identities[0];
      if step.identity != "" {
        if step.identity !in cfg.identities {
          return vars, Failed(UnknownIdentity);
        }
        identity := step.identity;
      }
      var plan := StepPlan(world, workflow, step, vars, identity);
      if cfg.continueOnTargetError && IsBlocked(plan.targetURL) {
        skippedIsolated := skippedIsolated + 1;
        return vars, NextWorkflow;
      }
      if tally.requests > 0 {
        if world.canceled(tally.requests) {
          return vars, Failed(PacingCanceled);
        }
      }
      next, outcome := SendStep(plan, step, vars);
    }

    method SendStep(plan: PlannedProbe, step: WorkflowStep, vars: Variables) returns (next: Variables, outcome: Outcome)
      modifies this
      ensures StepResult(TheState(), next, outcome) == StepSent(cfg, world, old(TheState()), plan, step, vars)
    {
      var reply := world.server(tally.requests);
      probes := probes + [Exchange(plan, reply)];
      UpdateSummary(reply);
      var verdict := ObserveReply(plan.targetURL, reply);
      if verdict != Proceed {
        return vars, if verdict == Halt then Stop else NextWorkflow;
      }
      next, outcome := JudgeStep(step, reply, vars);
    }

    /** Checks the reply to a step against its expectations, and captures its variables. */
    method JudgeStep(step: WorkflowStep, reply: Reply, vars: Variables) returns (next: Variables, outcome: Outcome)
      modifies this`sideEffectsVerified
      ensures (next, outcome) == StepJudged(step, reply, vars)
      ensures sideEffectsVerified
           == old(sideEffectsVerified) + if Verified(step, reply) && step.verifySideEffect then 1 else 0
    {
      if !Verified(step, reply) {
        return vars, NextWorkflow;
      }
      if step.verifySideEffect {
        sideEffectsVerified := sideEffectsVerified + 1;
      }
      if !step.captures {
        return vars, Continue;
      }
      if reply.captured.None? {
        return vars, Failed(CaptureFailed);
      }
      return vars + reply.captured.value, Continue;
    }

    method RecordBlockedWorkflowSteps(steps: seq<WorkflowStep>, vars: Variables)
      modifies this`skippedIsolated
      ensures TheState() == SkipRemaining(cfg, world, old(TheState()), steps, vars)
    {
      if !cfg.continueOnTargetError {
        return;
      }
      for i := 0 to |steps|
        invariant TheState() == SkipRemaining(cfg, world, old(TheState()), steps[..i], vars)
      {
        assert steps[..i + 1][..i] == steps[..i];
        var target := world.substitute(steps[i].url, vars);
        if IsBlocked(target) {
          skippedIsolated := skippedIsolated + 1;
        }
      }
      assert steps[..|steps|] == steps;
    }

    method ExecuteWorkflow(workflow: Workflow) returns (ending: Ending)
      requires cfg.identities != []
      modifies this
      ensures (TheState(), ending) == WorkflowTaken(cfg, world, old(TheState()), workflow)
    {
      var unsafeSteps := WorkflowUnsafeSteps(workflow);
      if unsafeSteps > 0 && !cfg.acceptRisk {
        skippedUnsafe := skippedUnsafe + unsafeSteps;
        return Done;
      }
      var vars: Variables := map[];
      for i := 0 to |workflow.steps|
        invariant StepsTaken(cfg, world, TheState(), workflow, i, vars)
               == StepsTaken(cfg, world, old(TheState()), workflow, 0, map[])
      {
        var outcome;
        vars, outcome := ExecuteStep(workflow, workflow.steps[i], vars);
        match outcome {
          case Failed(e) => return Aborted(e);
          case Stop => return Ended;
          case NextWorkflow =>
            RecordBlockedWorkflowSteps(workflow.steps[i + 1..], vars);
            return Done;
          case Continue =>
        }
      }
      return Done;
    }

    method ExecuteWorkflows() returns (error: Option<Error>)
      requires cfg.identities != []
      modifies this
      ensures (TheState(), error) == WorkflowPhase(cfg, world, old(TheState()), 0)
    {
      for k := 0 to |cfg.workflows|
        invariant WorkflowPhase(cfg, world, TheState(), k) == WorkflowPhase(cfg, world, old(TheState()), 0)
      {
        var ending := ExecuteWorkflow(cfg.workflows[k]);
        match ending {
          case Aborted(e) => return Some(e);
          case Ended => return None;
          case Done =>
        }
      }
      return None;
    }
  }

  /** The whole run: it plans, consumes the probes, then runs the workflows. */
  method RunFuzz(cfg: Config, world: World, ops: seq<Operation>)
    returns (r: Outcomes)
    requires cfg.Valid()
    ensures r == RunAll(cfg, world, ops)
  {
    var built := BuildProbePlans(cfg, world, ops);
    if built.Err? {
      return Rejected(built.error);
    }
    var run := new Run(cfg, world, built.value);
    var exit, _ := run.ExecuteProbePlans();
    var error: Option<Error> := None;
    if exit == Canceled {
      error := Some(PacingCanceled);
    } else if (!run.rateLimited || cfg.continueOnTargetError) && |cfg.workflows| > 0 {
      error := run.ExecuteWorkflows();
    }
    return Reported(run.TheState(), error);
  }
}
