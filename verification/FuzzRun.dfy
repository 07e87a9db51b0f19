/**
 What a fuzz run does, as functions on the state of the run.

 `ProbePhase` consumes a list of probes that grows while it is consumed, because a reply may append one
 guided retry.  `WorkflowPhase` then runs the workflows against the same request limit and the same
 blocked origins.  Module FuzzEngine runs the same steps in place and is proved to follow these functions.

 The counters of the run's summary are kept beside the state they count.
 */
module FuzzRun {
  import opened Text
  import opened Wrappers
  import opened Numerals
  import opened FuzzModel
  import opened FuzzPlanner

  /** The probes, what has been planned before, and the hints that led nowhere. */
  datatype Worklist = Worklist(
    plans: seq<PlannedProbe>, seenPlans: set<Fingerprint>, unresolvedRoots: set<Fingerprint>,
    unresolvedHints: nat, requestBudgetHit: bool)

  /** Which origins may still be asked. */
  datatype Circuit = Circuit(
    blockedOrigins: set<string>, transportErrors: map<string, nat>,
    rateLimited: bool, rateLimitedOrigins: nat, transportLimitedOrigins: nat)

  /** The verdicts on baselines. */
  datatype Gate = Gate(baselines: map<BaselineKey, bool>, qualified: nat, rejected: nat)

  datatype Tally = Tally(
    requests: nat, responses2xx: nat, responses3xx: nat, responses4xx: nat, responses5xx: nat, failures: nat)

  datatype Guided = Guided(retries: nat, successes: nat)

  datatype Skips = Skips(isolated: nat, invalidIDOR: nat, notPermitted: nat)

  datatype State = State(
    list: Worklist, circuit: Circuit, gate: Gate, tally: Tally, guided: Guided, skips: Skips,
    sideEffectsVerified: nat, probes: seq<Exchange>)

  function Prints(plans: seq<PlannedProbe>): set<Fingerprint> {
    set i | 0 <= i < |plans| :: plans[i].Print()
  }

  function Initial(built: Built): State {
    State(
      Worklist(built.plans, Prints(built.plans), {}, 0, built.truncated),
      Circuit({}, map[], false, 0, 0), Gate(map[], 0, 0), Tally(0, 0, 0, 0, 0, 0), Guided(0, 0),
      Skips(0, 0, built.refused), 0, [])
  }

  // ----- What one reply does to each part -----

  function Counted(tally: Tally, reply: Reply): Tally {
    var sent := tally.(requests := tally.requests + 1);
    if reply.failed then sent.(failures := sent.failures + 1)
    else if 200 <= reply.status < 300 then sent.(responses2xx := sent.responses2xx + 1)
    else if 300 <= reply.status < 400 then sent.(responses3xx := sent.responses3xx + 1)
    else if 400 <= reply.status < 500 then sent.(responses4xx := sent.responses4xx + 1)
    else if reply.status >= 500 then sent.(responses5xx := sent.responses5xx + 1)
    else sent
  }

  ghost function Judged(gate: Gate, plan: PlannedProbe, reply: Reply): Gate {
    if !plan.qualifiesBaseline then gate
    else if Qualifies(reply) then
      gate.(baselines := gate.baselines[plan.baselineKey := true], qualified := gate.qualified + 1)
    else
      gate.(baselines := gate.baselines[plan.baselineKey := false], rejected := gate.rejected + 1)
  }

  ghost function Credited(guided: Guided, plan: PlannedProbe, reply: Reply): Guided {
    if plan.guidedDepth == 0 then guided
    else if plan.guidedFromFailure && SuccessfulData(reply) then Guided(guided.retries + 1, guided.successes + 1)
    else guided.(retries := guided.retries + 1)
  }

  /** What the circuit decides after a reply: end the run, leave this origin, or go on. */
  datatype Verdict = Halt | Isolate | Proceed

  predicate OriginBlocked(w: World, c: Circuit, url: string) {
    w.origin(url).Some? && w.origin(url).value in c.blockedOrigins
  }

  function Failures(c: Circuit, origin: string): nat {
    if origin in c.transportErrors then c.transportErrors[origin] else 0
  }

  /** A rate-limited reply blocks its origin, if the run may go on without it, or halts the run. */
  function RateLimitObserved(cfg: Config, w: World, c: Circuit, url: string): (Circuit, Verdict) {
    var limited := c.(rateLimited := true);
    if cfg.continueOnTargetError && w.origin(url).Some? then
      (limited.(blockedOrigins := c.blockedOrigins + {w.origin(url).value},
                rateLimitedOrigins := c.rateLimitedOrigins + 1),
       Isolate)
    else (limited, Halt)
  }

  /** Failures of an origin in a row are counted, and the third blocks it. */
  function TransportObserved(cfg: Config, w: World, c: Circuit, url: string, failed: bool): (Circuit, Verdict) {
    if !cfg.continueOnTargetError || w.origin(url).None? then (c, Proceed)
    else
      var origin := w.origin(url).value;
      var count := if failed then Failures(c, origin) + 1 else 0;
      var counted := c.(transportErrors := c.transportErrors[origin := count]);
      if count < MAXIMUM_ORIGIN_ERRORS then (counted, Proceed)
      else
        (counted.(blockedOrigins := c.blockedOrigins + {origin},
                  transportLimitedOrigins := c.transportLimitedOrigins + 1),
         Isolate)
  }

  function Observed(cfg: Config, w: World, c: Circuit, url: string, reply: Reply): (Circuit, Verdict) {
    if RateLimited(reply) then RateLimitObserved(cfg, w, c, url)
    else TransportObserved(cfg, w, c, url, reply.originFailure)
  }

  function RetryName(depth: nat, cause: string): string {
    "response_guided:" + Itoa(depth) + ":" + cause
  }

  /** A repaired probe: the same request with a new URL or body, one level deeper, and never a baseline. */
  ghost function Retry(plan: PlannedProbe, reply: Reply): PlannedProbe
    requires reply.decision.Repair?
  {
    plan.(targetURL := reply.decision.url, body := reply.decision.body, contentType := reply.decision.contentType,
          caseName := RetryName(plan.guidedDepth + 1, reply.decision.cause),
          category := "response_guided", guidedDepth := plan.guidedDepth + 1,
          guidedFromFailure := ApplicationFailure(reply), qualifiesBaseline := false)
  }

  /** A hint that leads nowhere counts once for the probe it started from. */
  function WithUnresolved(list: Worklist, root: Fingerprint): Worklist {
    if root in list.unresolvedRoots then list
    else
      list.(unresolvedRoots := list.unresolvedRoots + {root}, unresolvedHints := list.unresolvedHints + 1)
  }

  /** A retry goes on the list if its request is new and there is room. */
  function WithRetry(cfg: Config, list: Worklist, retry: PlannedProbe): Worklist {
    if retry.Print() in list.seenPlans then list
    else if |list.plans| < cfg.maxRequests then
      list.(seenPlans := list.seenPlans + {retry.Print()}, plans := list.plans + [retry])
    else list.(requestBudgetHit := true)
  }

  ghost function Scheduled(cfg: Config, list: Worklist, plan: PlannedProbe, reply: Reply): Worklist {
    match reply.decision
    case NoHint => list
    case Unresolved => WithUnresolved(list, plan.guidedRoot)
    case Repair(_, _, _, _) => WithRetry(cfg, list, Retry(plan, reply))
  }

  predicate MayRetry(cfg: Config, plan: PlannedProbe) {
    cfg.responseGuided && plan.guidedDepth < cfg.maxGuidedRetries
  }

  // ----- The probe phase -----

  /** What handling the probe at the head of the list means for the phase. */
  datatype Turn = Next | Break | Abort

  predicate BaselineValid(gate: Gate, key: BaselineKey) {
    key in gate.baselines && gate.baselines[key]
  }

  /** Sending one planned probe. */
  ghost function Probed(cfg: Config, w: World, s: State, plan: PlannedProbe, reply: Reply): (State, Turn) {
    var (circuit, verdict) := Observed(cfg, w, s.circuit, plan.targetURL, reply);
    (State(
       if verdict == Proceed && MayRetry(cfg, plan) then Scheduled(cfg, s.list, plan, reply) else s.list,
       circuit, Judged(s.gate, plan, reply), Counted(s.tally, reply), Credited(s.guided, plan, reply), s.skips,
       s.sideEffectsVerified, s.probes + [Exchange(plan, reply)]),
     if verdict == Halt then Break else Next)
  }

  /** The turn of one planned probe: skipped, never sent because pacing was canceled, or sent. */
  ghost function Taken(cfg: Config, w: World, s: State, plan: PlannedProbe): (r: (State, Turn))
    ensures |s.list.plans| <= cfg.maxRequests ==> |s.list.plans| <= |r.0.list.plans| <= cfg.maxRequests
  {
    if cfg.continueOnTargetError && OriginBlocked(w, s.circuit, plan.targetURL) then
      (s.(skips := s.skips.(isolated := s.skips.isolated + 1)), Next)
    else if plan.requiresBaseline && !BaselineValid(s.gate, plan.baselineKey) then
      (s.(skips := s.skips.(invalidIDOR := s.skips.invalidIDOR + 1)), Next)
    else if s.tally.requests > 0 && w.canceled(s.tally.requests) then (s, Abort)
    else Probed(cfg, w, s, plan, w.server(s.tally.requests))
  }

  datatype Exit = Finished | Stopped | Canceled

  datatype Phase = Phase(state: State, visited: nat, exit: Exit)

  /** The list never outgrows the request limit, so the phase ends. */
  ghost function ProbePhase(cfg: Config, w: World, s: State, index: nat): Phase
    requires index <= |s.list.plans| <= cfg.maxRequests
    decreases cfg.maxRequests - index
  {
    if index == |s.list.plans| then Phase(s, index, Finished)
    else
      var (next, turn) := Taken(cfg, w, s, s.list.plans[index]);
      match turn
      case Abort => Phase(next, index, Canceled)
      case Break => Phase(next, index + 1, Stopped)
      case Next => ProbePhase(cfg, w, next, index + 1)
  }

  // ----- The workflow phase -----

  type Variables = map<string, string>

  datatype Outcome = Continue | NextWorkflow | Stop | Failed(error: Error)

  datatype StepResult = StepResult(state: State, variables: Variables, outcome: Outcome)

  function StepIdentity(cfg: Config, step: WorkflowStep): Result<string, Error>
    requires cfg.identities != []
  {
    if step.identity == "" then Ok(cfg.identities[0])
    else if step.identity in cfg.identities then Ok(step.identity)
    else Err(UnknownIdentity)
  }

  function StepPlan(w: World, workflow: Workflow, step: WorkflowStep, vars: Variables, identity: string): PlannedProbe {
    PlannedProbe(
      ToUpper(step.verb), w.substitute(step.url, vars), "", w.substitute(step.body, vars), "application/json",
      "workflow:" + workflow.name + ":" + step.name, "business_workflow", identity, 0,
      Fingerprint("", "", "", ""), false, BaselineKey("", "", ""), false, false)
  }

  predicate Verified(step: WorkflowStep, reply: Reply) {
    ExpectedStatus(step.expectStatus, reply.status) && reply.assertionsHold
  }

  /** What a step whose request went through means for its workflow. */
  function StepJudged(step: WorkflowStep, reply: Reply, vars: Variables): (Variables, Outcome) {
    if !Verified(step, reply) then (vars, NextWorkflow)
    else if !step.captures then (vars, Continue)
    else if reply.captured.None? then (vars, Failed(CaptureFailed))
    else (vars + reply.captured.value, Continue)
  }

  /** A step whose request is sent. */
  function StepSent(cfg: Config, w: World, s: State, plan: PlannedProbe, step: WorkflowStep, vars: Variables)
    : StepResult
  {
    var reply := w.server(s.tally.requests);
    var (circuit, verdict) := Observed(cfg, w, s.circuit, plan.targetURL, reply);
    var proven := if verdict == Proceed && Verified(step, reply) && step.verifySideEffect then 1 else 0;
    var next := s.(circuit := circuit, tally := Counted(s.tally, reply),
                   sideEffectsVerified := s.sideEffectsVerified + proven,
                   probes := s.probes + [Exchange(plan, reply)]);
    match verdict
    case Halt => StepResult(next, vars, Stop)
    case Isolate => StepResult(next, vars, NextWorkflow)
    case Proceed => StepResult(next, StepJudged(step, reply, vars).0, StepJudged(step, reply, vars).1)
  }

  function StepTaken(cfg: Config, w: World, s: State, workflow: Workflow, step: WorkflowStep, vars: Variables)
    : StepResult
    requires cfg.identities != []
  {
    if s.tally.requests >= cfg.maxRequests then
      StepResult(s.(list := s.list.(requestBudgetHit := true)), vars, Stop)
    else if StepIdentity(cfg, step).Err? then StepResult(s, vars, Failed(UnknownIdentity))
    else
      var plan := StepPlan(w, workflow, step, vars, StepIdentity(cfg, step).value);
      if cfg.continueOnTargetError && OriginBlocked(w, s.circuit, plan.targetURL) then
        StepResult(s.(skips := s.skips.(isolated := s.skips.isolated + 1)), vars, NextWorkflow)
      else if s.tally.requests > 0 && w.canceled(s.tally.requests) then
        StepResult(s, vars, Failed(PacingCanceled))
      else StepSent(cfg, w, s, plan, step, vars)
  }

  /** The remaining steps that would have gone to a blocked origin. */
  function BlockedSteps(w: World, c: Circuit, steps: seq<WorkflowStep>, vars: Variables): nat {
    if steps == [] then 0
    else
      var target := w.substitute(steps[|steps| - 1].url, vars);
      BlockedSteps(w, c, steps[..|steps| - 1], vars) + if OriginBlocked(w, c, target) then 1 else 0
  }

  function SkipRemaining(cfg: Config, w: World, s: State, steps: seq<WorkflowStep>, vars: Variables): State {
    if !cfg.continueOnTargetError then s
    else s.(skips := s.skips.(isolated := s.skips.isolated + BlockedSteps(w, s.circuit, steps, vars)))
  }

  datatype Ending = Done | Ended | Aborted(error: Error)

  /** A workflow from its step `i` on. */
  function StepsTaken(cfg: Config, w: World, s: State, workflow: Workflow, i: nat, vars: Variables): (State, Ending)
    requires cfg.identities != [] && i <= |workflow.steps|
    decreases |workflow.steps| - i
  {
    if i == |workflow.steps| then (s, Done)
    else
      var step := StepTaken(cfg, w, s, workflow, workflow.steps[i], vars);
      match step.outcome
      case Failed(e) => (step.state, Aborted(e))
      case Stop => (step.state, Ended)
      case NextWorkflow => (SkipRemaining(cfg, w, step.state, workflow.steps[i + 1..], step.variables), Done)
      case Continue => StepsTaken(cfg, w, step.state, workflow, i + 1, step.variables)
  }

  function WorkflowTaken(cfg: Config, w: World, s: State, workflow: Workflow): (State, Ending)
    requires cfg.identities != []
  {
    if Skipped(cfg, workflow) then
      (s.(skips := s.skips.(notPermitted := s.skips.notPermitted + UnsafeSteps(workflow.steps))), Done)
    else StepsTaken(cfg, w, s, workflow, 0, map[])
  }

  /** The workflows from number `k` on. */
  function WorkflowPhase(cfg: Config, w: World, s: State, k: nat): (State, Option<Error>)
    requires cfg.identities != [] && k <= |cfg.workflows|
    decreases |cfg.workflows| - k
  {
    if k == |cfg.workflows| then (s, None)
    else
      var (next, ending) := WorkflowTaken(cfg, w, s, cfg.workflows[k]);
      match ending
      case Aborted(e) => (next, Some(e))
      case Ended => (next, None)
      case Done => WorkflowPhase(cfg, w, next, k + 1)
  }

  // ----- The whole run -----

  datatype Outcomes =
    | Rejected(reason: Error)
    | Reported(state: State, error: Option<Error>)

  ghost function FirstPhase(cfg: Config, w: World, ops: seq<Operation>): Phase
    requires BuildFirst(cfg, w, ops, |ops|).Ok?
  {
    ProbePhase(cfg, w, Initial(BuildFirst(cfg, w, ops, |ops|).value), 0)
  }

  predicate RunsWorkflows(cfg: Config, s: State) {
    (!s.circuit.rateLimited || cfg.continueOnTargetError) && cfg.workflows != []
  }

  ghost function RunAll(cfg: Config, w: World, ops: seq<Operation>): Outcomes
    requires cfg.identities != []
  {
    if BuildFirst(cfg, w, ops, |ops|).Err? then Rejected(BuildFirst(cfg, w, ops, |ops|).error)
    else
      var phase := FirstPhase(cfg, w, ops);
      if phase.exit == Canceled then Reported(phase.state, Some(PacingCanceled))
      else if RunsWorkflows(cfg, phase.state) then
        var (s, error) := WorkflowPhase(cfg, w, phase.state, 0);
        Reported(s, error)
      else Reported(phase.state, None)
  }
}
