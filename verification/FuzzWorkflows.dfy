/**
 Which workflow steps a run sends, and with what. Each workflow is shown to be a walk through its steps that depends on
 nothing but the record: a step is sent when there is room and its origin is open, and the next one follows when its
 reply is what the step expects.
 */
module FuzzWorkflows {
  import opened Wrappers
  import opened Text
  import opened FuzzModel
  import opened FuzzPlanner
  import opened FuzzRun
  import opened FuzzIsolation
  import opened FuzzTally
  import opened FuzzSends
  import opened FuzzRepairs

  // ----- What the record calls for -----

  predicate IdentityKnown(cfg: Config, step: WorkflowStep) {
    step.identity == "" || step.identity in cfg.identities
  }

  /** The probe asks for the step: its verb, its URL and its body with the variables filled in, as its identity. */
  predicate AsksFor(cfg: Config, w: World, step: WorkflowStep, vars: Variables, p: PlannedProbe) {
    && p.verb == ToUpper(step.verb)
    && p.targetURL == w.substitute(step.url, vars)
    && p.body == w.substitute(step.body, vars)
    && cfg.identities != [] && p.identity == (if step.identity == "" then cfg.identities[0] else step.identity)
    && p.category == "business_workflow" && p.guidedDepth == 0 && !p.requiresBaseline && !p.qualifiesBaseline
  }

  /** The step's URL does not belong to a blocked origin, or blocked origins do not matter. */
  ghost predicate StepOpen(cfg: Config, w: World, h: seq<Exchange>, step: WorkflowStep, vars: Variables) {
    var origin := w.origin(w.substitute(step.url, vars));
    cfg.continueOnTargetError && origin.Some? ==> !BlockedBy(w, h, origin.value)
  }

  ghost predicate StepDue(cfg: Config, w: World, h: seq<Exchange>, step: WorkflowStep, vars: Variables) {
    |h| < cfg.maxRequests && IdentityKnown(cfg, step) && StepOpen(cfg, w, h, step, vars)
  }

  /** Exchange `at` is the step's, and it was due. */
  ghost predicate StepAt(cfg: Config, w: World, h: seq<Exchange>, at: nat, step: WorkflowStep, vars: Variables) {
    && at < |h| && StepDue(cfg, w, h[..at], step, vars)
    && AsksFor(cfg, w, step, vars, h[at].plan) && h[at].reply == w.server(at)
    && (at > 0 ==> !w.canceled(at))
  }

  /** The reply is what the step expects. */
  predicate Expected(step: WorkflowStep, reply: Reply) {
    && (if step.expectStatus == [] then 200 <= reply.status < 300 else reply.status in step.expectStatus)
    && reply.assertionsHold
  }

  /** The workflow goes on after exchange `at`. */
  ghost predicate Passes(cfg: Config, w: World, h: seq<Exchange>, at: nat, step: WorkflowStep)
    requires at < |h|
  {
    GoesOn(cfg, w, h, at) && Expected(step, h[at].reply) && (step.captures ==> h[at].reply.captured.Some?)
  }

  /** What the step's reply adds to the variables. */
  function Learned(step: WorkflowStep, reply: Reply, vars: Variables): Variables {
    if step.captures && reply.captured.Some? then vars + reply.captured.value else vars
  }

  /** The last exchange, if the walk sent any, lets it go on. */
  ghost predicate StillGoing(cfg: Config, w: World, steps: seq<WorkflowStep>, h: seq<Exchange>, i: nat, n: nat) {
    n > 0 && i + n <= |steps| && h != [] ==> Passes(cfg, w, h, |h| - 1, steps[i + n - 1])
  }

  /** Why a walk ends after `n` steps, and how. */
  ghost predicate WalkEnds(cfg: Config, w: World, steps: seq<WorkflowStep>, h: seq<Exchange>, i: nat, n: nat,
                           vars: Variables, ending: Ending)
    requires i + n <= |steps|
  {
    if !StillGoing(cfg, w, steps, h, i, n) then
      if Halts(cfg, w, h[|h| - 1]) then ending == Ended
      else if GoesOn(cfg, w, h, |h| - 1) && Expected(steps[i + n - 1], h[|h| - 1].reply) then
        ending == Aborted(CaptureFailed)
      else ending == Done
    else if i + n == |steps| then ending == Done
    else if |h| >= cfg.maxRequests then ending == Ended
    else if !IdentityKnown(cfg, steps[i + n]) then ending == Aborted(UnknownIdentity)
    else if !StepOpen(cfg, w, h, steps[i + n], vars) then ending == Done
    else h != [] && w.canceled(|h|) && ending == Aborted(PacingCanceled)
  }

  /** How many of the steps go to origins that the record blocks. */
  ghost function Shut(cfg: Config, w: World, h: seq<Exchange>, steps: seq<WorkflowStep>, vars: Variables): nat {
    if steps == [] then 0
    else
      Shut(cfg, w, h, steps[..|steps| - 1], vars)
      + (if StepOpen(cfg, w, h, steps[|steps| - 1], vars) then 0 else 1)
  }

  /** A workflow that is left for the next one counts the remaining steps that go to blocked origins as skipped. */
  ghost predicate Counts(cfg: Config, w: World, steps: seq<WorkflowStep>, h: seq<Exchange>, n: nat, vars: Variables,
                         ending: Ending, skipped: int)
    requires n <= |steps|
  {
    skipped == if ending == Done then Shut(cfg, w, h, steps[n..], vars) else 0
  }

  /** Step `k` of the walk: it was due, it passes unless it is the last, and its reply adds to the variables. */
  ghost predicate WalkStep(cfg: Config, w: World, steps: seq<WorkflowStep>, h: seq<Exchange>, start: nat, i: nat,
                           vars: seq<Variables>, k: nat)
    requires k + 1 < |vars| && i + k < |steps|
  {
    && StepAt(cfg, w, h, start + k, steps[i + k], vars[k])
    && (k + 2 < |vars| ==> Passes(cfg, w, h, start + k, steps[i + k]))
    && vars[k + 1] == (if Passes(cfg, w, h, start + k, steps[i + k]) then
                         Learned(steps[i + k], h[start + k].reply, vars[k])
                       else vars[k])
  }

  /**
   The record from `start` on is a walk through the steps from `i` on, with these variables before each step and at the
   end: each step passes but perhaps the last.
   */
  ghost predicate Walk(cfg: Config, w: World, steps: seq<WorkflowStep>, h: seq<Exchange>, start: nat, i: nat,
                       vars: seq<Variables>, ending: Ending, skipped: int)
  {
    && vars != [] && start + |vars| - 1 == |h| && i + |vars| - 1 <= |steps|
    && (forall k :: 0 <= k < |vars| - 1 ==> WalkStep(cfg, w, steps, h, start, i, vars, k))
    && WalkEnds(cfg, w, steps, h, i, |vars| - 1, vars[|vars| - 1], ending)
    && Counts(cfg, w, steps, h, i + |vars| - 1, vars[|vars| - 1], ending, skipped)
  }

  ghost predicate Walkable(cfg: Config, w: World, steps: seq<WorkflowStep>, before: seq<Exchange>, h: seq<Exchange>,
                           i: nat, vars: Variables, ending: Ending, skipped: int)
  {
    && before <= h
    && exists all: seq<Variables> ::
         all != [] && all[0] == vars && Walk(cfg, w, steps, h, |before|, i, all, ending, skipped)
  }

  // ----- One step -----

  /** What the state knows is what the record says. */
  ghost predicate Aware(cfg: Config, w: World, s: State) {
    && cfg.identities != [] && CircuitInvariant(cfg, w, s) && Agrees(s.tally, s.probes)
    && (!cfg.continueOnTargetError ==> !s.circuit.rateLimited)
  }

  lemma StepOpenExactly(cfg: Config, w: World, s: State, step: WorkflowStep, vars: Variables)
    requires Aware(cfg, w, s)
    ensures StepOpen(cfg, w, s.probes, step, vars)
       <==> !(cfg.continueOnTargetError && OriginBlocked(w, s.circuit, w.substitute(step.url, vars)))
  {
  }

  lemma GoesOnExactly(cfg: Config, w: World, s: State, e: Exchange)
    requires Aware(cfg, w, s)
    requires !(cfg.continueOnTargetError && OriginBlocked(w, s.circuit, e.plan.targetURL))
    ensures
      var verdict := Observed(cfg, w, s.circuit, e.plan.targetURL, e.reply).1;
      && (verdict == Proceed <==> GoesOn(cfg, w, s.probes + [e], |s.probes|))
      && (verdict == Halt <==> Halts(cfg, w, e))
  {
    var all := s.probes + [e];
    assert all[..|all| - 1] == s.probes && all[..|s.probes| + 1] == all;
  }

  /** A step that is not sent leaves the record as it is and ends the walk. */
  lemma NotSent(cfg: Config, w: World, s: State, workflow: Workflow, i: nat, vars: Variables)
    requires Aware(cfg, w, s) && i < |workflow.steps|
    requires StepTaken(cfg, w, s, workflow, workflow.steps[i], vars).state.probes == s.probes
    ensures StepTaken(cfg, w, s, workflow, workflow.steps[i], vars).outcome != Continue
    ensures StepTaken(cfg, w, s, workflow, workflow.steps[i], vars).variables == vars
    ensures WalkEnds(cfg, w, workflow.steps, s.probes, i, 0, vars,
                     EndingOf(StepTaken(cfg, w, s, workflow, workflow.steps[i], vars).outcome))
    ensures
      var taken := StepTaken(cfg, w, s, workflow, workflow.steps[i], vars);
      && taken.state.skips.isolated
         == s.skips.isolated
            + (if taken.outcome == NextWorkflow && !StepOpen(cfg, w, s.probes, workflow.steps[i], vars) then 1 else 0)
      && (taken.outcome == NextWorkflow ==> !StepOpen(cfg, w, s.probes, workflow.steps[i], vars))
  {
    StepOpenExactly(cfg, w, s, workflow.steps[i], vars);
  }

  function EndingOf(outcome: FuzzRun.Outcome): Ending {
    match outcome
    case Failed(e) => Aborted(e)
    case Stop => Ended
    case NextWorkflow => Done
    case Continue => Done
  }

  /** A step that is sent is due, and its reply decides how the walk goes on. */
  lemma Sent(cfg: Config, w: World, s: State, workflow: Workflow, i: nat, vars: Variables)
    requires Aware(cfg, w, s) && i < |workflow.steps|
    requires StepTaken(cfg, w, s, workflow, workflow.steps[i], vars).state.probes != s.probes
    ensures
      var step, taken := workflow.steps[i], StepTaken(cfg, w, s, workflow, workflow.steps[i], vars);
      var h := taken.state.probes;
      && |h| == |s.probes| + 1 && s.probes <= h
      && StepAt(cfg, w, h, |s.probes|, step, vars)
      && (taken.outcome == Continue <==> Passes(cfg, w, h, |s.probes|, step))
      && taken.variables
         == (if taken.outcome == Continue then Learned(step, h[|s.probes|].reply, vars) else vars)
      && taken.state.skips == s.skips
      && (taken.outcome != Continue ==>
            WalkEnds(cfg, w, workflow.steps, h, i, 1, taken.variables, EndingOf(taken.outcome)))
  {
    var step := workflow.steps[i];
    StepOpenExactly(cfg, w, s, step, vars);
    var plan := StepPlan(w, workflow, step, vars, StepIdentity(cfg, step).value);
    var e := Exchange(plan, w.server(|s.probes|));
    GoesOnExactly(cfg, w, s, e);
    var h := StepTaken(cfg, w, s, workflow, step, vars).state.probes;
    assert h == s.probes + [e] && h[..|s.probes|] == s.probes;
  }

  // ----- One workflow -----

  lemma LongerRecord(cfg: Config, w: World, h: seq<Exchange>, longer: seq<Exchange>, at: nat, step: WorkflowStep,
                     vars: Variables)
    requires at < |h| && h <= longer
    ensures StepAt(cfg, w, h, at, step, vars) <==> StepAt(cfg, w, longer, at, step, vars)
    ensures Passes(cfg, w, h, at, step) <==> Passes(cfg, w, longer, at, step)
  {
    assert h[..at] == longer[..at] && h[..at + 1] == longer[..at + 1];
  }

  lemma EndsOn(cfg: Config, w: World, steps: seq<WorkflowStep>, h: seq<Exchange>, i: nat, n: nat, vars: Variables,
               ending: Ending)
    requires i + 1 + n <= |steps| && h != [] && WalkEnds(cfg, w, steps, h, i + 1, n, vars, ending)
    requires n == 0 ==> Passes(cfg, w, h, |h| - 1, steps[i])
    ensures WalkEnds(cfg, w, steps, h, i, n + 1, vars, ending)
  {
  }

  /** The steps of the walk with one passed step in front. */
  lemma StepsInFront(cfg: Config, w: World, steps: seq<WorkflowStep>, before: seq<Exchange>, middle: seq<Exchange>,
                     h: seq<Exchange>, i: nat, vars: Variables, rest: seq<Variables>, k: nat)
    requires i < |steps| && |middle| == |before| + 1 && before <= middle <= h && rest != []
    requires StepAt(cfg, w, middle, |before|, steps[i], vars) && Passes(cfg, w, middle, |before|, steps[i])
    requires rest[0] == Learned(steps[i], middle[|before|].reply, vars)
    requires i + |rest| <= |steps| && k < |rest|
    requires k > 0 ==> WalkStep(cfg, w, steps, h, |middle|, i + 1, rest, k - 1)
    ensures WalkStep(cfg, w, steps, h, |before|, i, [vars] + rest, k)
  {
    LongerRecord(cfg, w, middle, h, |before|, steps[i], vars);
  }

  /** One passed step in front of a walk. */
  lemma WalkFrom(cfg: Config, w: World, steps: seq<WorkflowStep>, before: seq<Exchange>, middle: seq<Exchange>,
                 h: seq<Exchange>, i: nat, vars: Variables, rest: seq<Variables>, ending: Ending, skipped: int)
    requires i < |steps| && |middle| == |before| + 1 && before <= middle <= h
    requires StepAt(cfg, w, middle, |before|, steps[i], vars) && Passes(cfg, w, middle, |before|, steps[i])
    requires rest != [] && rest[0] == Learned(steps[i], middle[|before|].reply, vars)
    requires Walk(cfg, w, steps, h, |middle|, i + 1, rest, ending, skipped)
    ensures Walk(cfg, w, steps, h, |before|, i, [vars] + rest, ending, skipped)
  {
    var all := [vars] + rest;
    forall k | 0 <= k < |all| - 1
      ensures WalkStep(cfg, w, steps, h, |before|, i, all, k)
    {
      assert k > 0 ==> WalkStep(cfg, w, steps, h, |middle|, i + 1, rest, k - 1);
      StepsInFront(cfg, w, steps, before, middle, h, i, vars, rest, k);
    }
    LongerRecord(cfg, w, middle, h, |before|, steps[i], vars);
    EndsOn(cfg, w, steps, h, i, |rest| - 1, rest[|rest| - 1], ending);
  }

  lemma WalkOfNone(cfg: Config, w: World, steps: seq<WorkflowStep>, h: seq<Exchange>, i: nat, vars: Variables,
                   ending: Ending, skipped: int)
    requires i <= |steps| && WalkEnds(cfg, w, steps, h, i, 0, vars, ending)
    requires Counts(cfg, w, steps, h, i, vars, ending, skipped)
    ensures Walkable(cfg, w, steps, h, h, i, vars, ending, skipped)
  {
    var all: seq<Variables> := [vars];
    assert Walk(cfg, w, steps, h, |h|, i, all, ending, skipped);
  }

  lemma WalkOfOne(cfg: Config, w: World, steps: seq<WorkflowStep>, before: seq<Exchange>, h: seq<Exchange>, i: nat,
                  vars: Variables, ending: Ending, skipped: int)
    requires i < |steps| && |h| == |before| + 1 && before <= h
    requires StepAt(cfg, w, h, |before|, steps[i], vars) && !Passes(cfg, w, h, |before|, steps[i])
    requires WalkEnds(cfg, w, steps, h, i, 1, vars, ending) && Counts(cfg, w, steps, h, i + 1, vars, ending, skipped)
    ensures Walkable(cfg, w, steps, before, h, i, vars, ending, skipped)
  {
    var all: seq<Variables> := [vars, vars];
    assert WalkStep(cfg, w, steps, h, |before|, i, all, 0);
    assert Walk(cfg, w, steps, h, |before|, i, all, ending, skipped);
  }

  lemma WalkOfMore(cfg: Config, w: World, steps: seq<WorkflowStep>, before: seq<Exchange>, middle: seq<Exchange>,
                   h: seq<Exchange>, i: nat, vars: Variables, ending: Ending, skipped: int)
    requires i < |steps| && |middle| == |before| + 1 && before <= middle
    requires StepAt(cfg, w, middle, |before|, steps[i], vars) && Passes(cfg, w, middle, |before|, steps[i])
    requires Walkable(cfg, w, steps, middle, h, i + 1, Learned(steps[i], middle[|before|].reply, vars), ending, skipped)
    ensures Walkable(cfg, w, steps, before, h, i, vars, ending, skipped)
  {
    var rest: seq<Variables> :| rest != [] && rest[0] == Learned(steps[i], middle[|before|].reply, vars)
                                && Walk(cfg, w, steps, h, |middle|, i + 1, rest, ending, skipped);
    WalkFrom(cfg, w, steps, before, middle, h, i, vars, rest, ending, skipped);
    var all: seq<Variables> := [vars] + rest;
    assert all[0] == vars && Walk(cfg, w, steps, h, |before|, i, all, ending, skipped);
  }

  lemma StepKeepsAware(cfg: Config, w: World, s: State, workflow: Workflow, step: WorkflowStep, vars: Variables)
    requires Aware(cfg, w, s)
    ensures
      var taken := StepTaken(cfg, w, s, workflow, step, vars);
      taken.outcome != Stop ==> Aware(cfg, w, taken.state)
  {
    StepKeepsCircuit(cfg, w, s, workflow, step, vars);
    StepKeepsTally(cfg, w, s, workflow, step, vars);
  }

  /** Counting from the end or from the start is the same. */
  lemma {:induction false} ShutFirst(cfg: Config, w: World, h: seq<Exchange>, steps: seq<WorkflowStep>, vars: Variables)
    requires steps != []
    ensures Shut(cfg, w, h, steps, vars)
         == (if StepOpen(cfg, w, h, steps[0], vars) then 0 else 1) + Shut(cfg, w, h, steps[1..], vars)
  {
    if |steps| == 1 {
      assert steps[..0] == [] && steps[1..] == [];
    } else {
      assert steps[..|steps| - 1][1..] == steps[1..][..|steps| - 2];
      ShutFirst(cfg, w, h, steps[..|steps| - 1], vars);
    }
  }

  /** The program counts the remaining steps whose origin the circuit has blocked. */
  lemma {:induction false} BlockedAreShut(cfg: Config, w: World, s: State, steps: seq<WorkflowStep>, vars: Variables)
    requires Aware(cfg, w, s)
    ensures Shut(cfg, w, s.probes, steps, vars)
         == if cfg.continueOnTargetError then BlockedSteps(w, s.circuit, steps, vars) else 0
  {
    if steps != [] {
      BlockedAreShut(cfg, w, s, steps[..|steps| - 1], vars);
      StepOpenExactly(cfg, w, s, steps[|steps| - 1], vars);
    }
  }

  /** What leaving the workflow adds to the skipped steps. */
  function LeftOut(cfg: Config, w: World, s: State, workflow: Workflow, i: nat, vars: Variables): int
    requires cfg.identities != [] && i < |workflow.steps|
  {
    var step := StepTaken(cfg, w, s, workflow, workflow.steps[i], vars);
    step.state.skips.isolated - s.skips.isolated
    + (if step.outcome == NextWorkflow && cfg.continueOnTargetError then
         BlockedSteps(w, step.state.circuit, workflow.steps[i + 1..], step.variables)
       else 0)
  }

  /** A step that is not sent is the first of those that are left out. */
  lemma NotSentCounts(cfg: Config, w: World, s: State, workflow: Workflow, i: nat, vars: Variables)
    requires Aware(cfg, w, s) && i < |workflow.steps|
    requires StepTaken(cfg, w, s, workflow, workflow.steps[i], vars).state.probes == s.probes
    ensures Counts(cfg, w, workflow.steps, s.probes, i, vars,
                   EndingOf(StepTaken(cfg, w, s, workflow, workflow.steps[i], vars).outcome),
                   LeftOut(cfg, w, s, workflow, i, vars))
  {
    var step := StepTaken(cfg, w, s, workflow, workflow.steps[i], vars);
    NotSent(cfg, w, s, workflow, i, vars);
    if step.outcome == NextWorkflow {
      StepKeepsAware(cfg, w, s, workflow, workflow.steps[i], vars);
      BlockedAreShut(cfg, w, step.state, workflow.steps[i + 1..], vars);
      ShutFirst(cfg, w, s.probes, workflow.steps[i..], vars);
      assert workflow.steps[i..][1..] == workflow.steps[i + 1..];
    }
  }

  lemma SentCounts(cfg: Config, w: World, s: State, workflow: Workflow, i: nat, vars: Variables)
    requires Aware(cfg, w, s) && i < |workflow.steps|
    requires StepTaken(cfg, w, s, workflow, workflow.steps[i], vars).state.probes != s.probes
    requires StepTaken(cfg, w, s, workflow, workflow.steps[i], vars).outcome != Continue
    ensures
      var step := StepTaken(cfg, w, s, workflow, workflow.steps[i], vars);
      Counts(cfg, w, workflow.steps, step.state.probes, i + 1, vars, EndingOf(step.outcome),
             LeftOut(cfg, w, s, workflow, i, vars))
  {
    var step := StepTaken(cfg, w, s, workflow, workflow.steps[i], vars);
    Sent(cfg, w, s, workflow, i, vars);
    if step.outcome == NextWorkflow {
      StepKeepsAware(cfg, w, s, workflow, workflow.steps[i], vars);
      BlockedAreShut(cfg, w, step.state, workflow.steps[i + 1..], vars);
    }
  }

  lemma LastStepWalk(cfg: Config, w: World, s: State, workflow: Workflow, i: nat, vars: Variables)
    requires Aware(cfg, w, s) && i < |workflow.steps|
    requires StepTaken(cfg, w, s, workflow, workflow.steps[i], vars).outcome != Continue
    ensures
      var step := StepTaken(cfg, w, s, workflow, workflow.steps[i], vars);
      Walkable(cfg, w, workflow.steps, s.probes, step.state.probes, i, vars, EndingOf(step.outcome),
               LeftOut(cfg, w, s, workflow, i, vars))
  {
    var step := StepTaken(cfg, w, s, workflow, workflow.steps[i], vars);
    var skipped := LeftOut(cfg, w, s, workflow, i, vars);
    if step.state.probes == s.probes {
      NotSentCounts(cfg, w, s, workflow, i, vars);
      NotSent(cfg, w, s, workflow, i, vars);
      WalkOfNone(cfg, w, workflow.steps, s.probes, i, vars, EndingOf(step.outcome), skipped);
    } else {
      SentCounts(cfg, w, s, workflow, i, vars);
      Sent(cfg, w, s, workflow, i, vars);
      WalkOfOne(cfg, w, workflow.steps, s.probes, step.state.probes, i, vars, EndingOf(step.outcome), skipped);
    }
  }

  lemma FirstStepWalk(cfg: Config, w: World, s: State, workflow: Workflow, i: nat, vars: Variables, h: seq<Exchange>,
                      ending: Ending, skipped: int)
    requires Aware(cfg, w, s) && i < |workflow.steps|
    requires
      var step := StepTaken(cfg, w, s, workflow, workflow.steps[i], vars);
      step.outcome == Continue
      && Walkable(cfg, w, workflow.steps, step.state.probes, h, i + 1, step.variables, ending, skipped)
    ensures Walkable(cfg, w, workflow.steps, s.probes, h, i, vars, ending, skipped)
    ensures StepTaken(cfg, w, s, workflow, workflow.steps[i], vars).state.skips == s.skips
  {
    var step := StepTaken(cfg, w, s, workflow, workflow.steps[i], vars);
    if step.state.probes == s.probes {
      NotSent(cfg, w, s, workflow, i, vars);
    } else {
      Sent(cfg, w, s, workflow, i, vars);
      WalkOfMore(cfg, w, workflow.steps, s.probes, step.state.probes, h, i, vars, ending, skipped);
    }
  }

  /** What comes of the rest of the workflow, told by its first step. */
  lemma StepsFrom(cfg: Config, w: World, s: State, workflow: Workflow, i: nat, vars: Variables)
    requires cfg.identities != [] && i < |workflow.steps|
    ensures
      var step := StepTaken(cfg, w, s, workflow, workflow.steps[i], vars);
      var (end, ending) := StepsTaken(cfg, w, s, workflow, i, vars);
      if step.outcome == Continue then
        (end, ending) == StepsTaken(cfg, w, step.state, workflow, i + 1, step.variables)
      else
        && end.probes == step.state.probes && end.circuit == step.state.circuit && end.tally == step.state.tally
        && ending == EndingOf(step.outcome)
        && end.skips.isolated == s.skips.isolated + LeftOut(cfg, w, s, workflow, i, vars)
        && end.skips.notPermitted == step.state.skips.notPermitted
  {
  }

  lemma PermissionStays(cfg: Config, w: World, s: State, workflow: Workflow, step: WorkflowStep, vars: Variables)
    requires cfg.identities != []
    ensures StepTaken(cfg, w, s, workflow, step, vars).state.skips.notPermitted == s.skips.notPermitted
  {
  }

  lemma {:induction false} StepsKeepPermission(cfg: Config, w: World, s: State, workflow: Workflow, i: nat,
                                               vars: Variables)
    requires cfg.identities != [] && i <= |workflow.steps|
    ensures StepsTaken(cfg, w, s, workflow, i, vars).0.skips.notPermitted == s.skips.notPermitted
    decreases |workflow.steps| - i
  {
    if i < |workflow.steps| {
      var step := StepTaken(cfg, w, s, workflow, workflow.steps[i], vars);
      PermissionStays(cfg, w, s, workflow, workflow.steps[i], vars);
      StepsFrom(cfg, w, s, workflow, i, vars);
      if step.outcome == Continue {
        StepsKeepPermission(cfg, w, step.state, workflow, i + 1, step.variables);
      }
    }
  }

  lemma SameAware(cfg: Config, w: World, s: State, end: State)
    requires end.probes == s.probes && end.circuit == s.circuit && end.tally == s.tally
    ensures Aware(cfg, w, s) ==> Aware(cfg, w, end)
  {
  }

  /** The walk from one state to another, and what is known at its end. */
  ghost predicate Walked(cfg: Config, w: World, steps: seq<WorkflowStep>, s: State, end: State, i: nat,
                         vars: Variables, ending: Ending)
  {
    && Walkable(cfg, w, steps, s.probes, end.probes, i, vars, ending, end.skips.isolated - s.skips.isolated)
    && (ending == Done ==> Aware(cfg, w, end))
  }

  lemma NoStepWalk(cfg: Config, w: World, s: State, workflow: Workflow, vars: Variables)
    requires Aware(cfg, w, s)
    ensures Walked(cfg, w, workflow.steps, s, s, |workflow.steps|, vars, Done)
  {
    WalkOfNone(cfg, w, workflow.steps, s.probes, |workflow.steps|, vars, Done, 0);
  }

  /** The workflow ends with this step. */
  lemma EndWalk(cfg: Config, w: World, s: State, workflow: Workflow, i: nat, vars: Variables, end: State,
                ending: Ending)
    requires Aware(cfg, w, s) && i < |workflow.steps|
    requires (end, ending) == StepsTaken(cfg, w, s, workflow, i, vars)
    requires StepTaken(cfg, w, s, workflow, workflow.steps[i], vars).outcome != Continue
    ensures Walked(cfg, w, workflow.steps, s, end, i, vars, ending)
  {
    StepKeepsAware(cfg, w, s, workflow, workflow.steps[i], vars);
    StepsFrom(cfg, w, s, workflow, i, vars);
    LastStepWalk(cfg, w, s, workflow, i, vars);
    SameAware(cfg, w, StepTaken(cfg, w, s, workflow, workflow.steps[i], vars).state, end);
  }

  /** The workflow goes on after this step, to the end that it comes to from there. */
  lemma GoOnWalk(cfg: Config, w: World, s: State, workflow: Workflow, i: nat, vars: Variables, step: StepResult,
                 end: State, ending: Ending)
    requires Aware(cfg, w, s) && i < |workflow.steps|
    requires step == StepTaken(cfg, w, s, workflow, workflow.steps[i], vars) && step.outcome == Continue
    requires Walked(cfg, w, workflow.steps, step.state, end, i + 1, step.variables, ending)
    ensures Walked(cfg, w, workflow.steps, s, end, i, vars, ending)
  {
    FirstStepWalk(cfg, w, s, workflow, i, vars, end.probes, ending,
                  end.skips.isolated - step.state.skips.isolated);
  }

  lemma {:induction false} StepsWalk(cfg: Config, w: World, s: State, workflow: Workflow, i: nat, vars: Variables,
                                     end: State, ending: Ending)
    requires Aware(cfg, w, s) && i <= |workflow.steps|
    requires (end, ending) == StepsTaken(cfg, w, s, workflow, i, vars)
    ensures Walked(cfg, w, workflow.steps, s, end, i, vars, ending)
    decreases |workflow.steps| - i
  {
    if i == |workflow.steps| {
      NoStepWalk(cfg, w, s, workflow, vars);
    } else {
      var step := StepTaken(cfg, w, s, workflow, workflow.steps[i], vars);
      if step.outcome == Continue {
        StepKeepsAware(cfg, w, s, workflow, workflow.steps[i], vars);
        StepsFrom(cfg, w, s, workflow, i, vars);
        StepsWalk(cfg, w, step.state, workflow, i + 1, step.variables, end, ending);
        GoOnWalk(cfg, w, s, workflow, i, vars, step, end, ending);
      } else {
        EndWalk(cfg, w, s, workflow, i, vars, end, ending);
      }
    }
  }

  // ----- All workflows -----

  /** The workflow has state-changing steps that the run may not send. */
  predicate Unpermitted(cfg: Config, workflow: Workflow) {
    !cfg.acceptRisk && exists i :: 0 <= i < |workflow.steps| && StateChanging(workflow.steps[i].verb)
  }

  lemma {:induction false} UnsafeExactly(steps: seq<WorkflowStep>)
    ensures UnsafeSteps(steps) > 0 <==> exists i :: 0 <= i < |steps| && StateChanging(steps[i].verb)
  {
    if steps == [] {
    } else {
      var front := steps[..|steps| - 1];
      UnsafeExactly(front);
      if i :| 0 <= i < |front| && StateChanging(front[i].verb) {
        assert StateChanging(steps[i].verb);
      }
      if i :| 0 <= i < |front| && StateChanging(steps[i].verb) {
        assert StateChanging(front[i].verb);
      }
    }
  }

  /** What the workflows add to the counts of skipped steps. */
  datatype Losses = Losses(isolated: int, notPermitted: int)

  function Lost(s: State, end: State): Losses {
    Losses(end.skips.isolated - s.skips.isolated, end.skips.notPermitted - s.skips.notPermitted)
  }

  function Both(a: Losses, b: Losses): Losses {
    Losses(a.isolated + b.isolated, a.notPermitted + b.notPermitted)
  }

  /**
   A workflow leaves the record as it is if it is not permitted, and counts its state-changing steps; otherwise it is a
   walk from its first step.
   */
  ghost predicate Told(cfg: Config, w: World, workflow: Workflow, before: seq<Exchange>, h: seq<Exchange>,
                       ending: Ending, lost: Losses)
  {
    if Unpermitted(cfg, workflow) then h == before && ending == Done && lost == Losses(0, UnsafeSteps(workflow.steps))
    else Walkable(cfg, w, workflow.steps, before, h, 0, map[], ending, lost.isolated) && lost.notPermitted == 0
  }

  lemma WorkflowTold(cfg: Config, w: World, s: State, workflow: Workflow)
    requires Aware(cfg, w, s)
    ensures
      var (end, ending) := WorkflowTaken(cfg, w, s, workflow);
      && Told(cfg, w, workflow, s.probes, end.probes, ending, Lost(s, end))
      && (ending == Done ==> Aware(cfg, w, end))
  {
    UnsafeExactly(workflow.steps);
    if !Skipped(cfg, workflow) {
      var (end, ending) := StepsTaken(cfg, w, s, workflow, 0, map[]);
      StepsWalk(cfg, w, s, workflow, 0, map[], end, ending);
      StepsKeepPermission(cfg, w, s, workflow, 0, map[]);
    }
  }

  /** The workflows from number `k` on take the record `before` to `h`: one after the other, until one ends the run. */
  ghost predicate Sequenced(cfg: Config, w: World, k: nat, before: seq<Exchange>, h: seq<Exchange>,
                            error: Option<Error>, lost: Losses)
    requires k <= |cfg.workflows|
    decreases |cfg.workflows| - k
  {
    if k == |cfg.workflows| then h == before && error == None && lost == Losses(0, 0)
    else
      || (error.None? && Told(cfg, w, cfg.workflows[k], before, h, Ended, lost))
      || (error.Some? && Told(cfg, w, cfg.workflows[k], before, h, Aborted(error.value), lost))
      || exists middle, first, rest ::
           && Told(cfg, w, cfg.workflows[k], before, middle, Done, first)
           && Sequenced(cfg, w, k + 1, middle, h, error, rest) && lost == Both(first, rest)
  }

  lemma OneMoreWorkflow(cfg: Config, w: World, k: nat, before: seq<Exchange>, middle: seq<Exchange>,
                        h: seq<Exchange>, error: Option<Error>, first: Losses, rest: Losses)
    requires k < |cfg.workflows| && Told(cfg, w, cfg.workflows[k], before, middle, Done, first)
    requires Sequenced(cfg, w, k + 1, middle, h, error, rest)
    ensures Sequenced(cfg, w, k, before, h, error, Both(first, rest))
  {
  }

  function ErrorOf(ending: Ending): Option<Error> {
    match ending case Aborted(e) => Some(e) case _ => None
  }

  lemma LastWorkflow(cfg: Config, w: World, k: nat, before: seq<Exchange>, h: seq<Exchange>, ending: Ending,
                     lost: Losses)
    requires k < |cfg.workflows| && Told(cfg, w, cfg.workflows[k], before, h, ending, lost) && ending != Done
    ensures Sequenced(cfg, w, k, before, h, ErrorOf(ending), lost)
  {
  }

  lemma NoMoreWorkflows(cfg: Config, w: World, s: State)
    ensures Sequenced(cfg, w, |cfg.workflows|, s.probes, s.probes, None, Lost(s, s))
  {
  }

  lemma LostOnTheWay(s: State, next: State, end: State)
    ensures Both(Lost(s, next), Lost(next, end)) == Lost(s, end)
  {
  }

  lemma PhaseFrom(cfg: Config, w: World, s: State, k: nat)
    requires cfg.identities != [] && k < |cfg.workflows|
    ensures
      var (next, ending) := WorkflowTaken(cfg, w, s, cfg.workflows[k]);
      WorkflowPhase(cfg, w, s, k)
      == if ending == Done then WorkflowPhase(cfg, w, next, k + 1) else (next, ErrorOf(ending))
  {
  }

  lemma {:induction false} PhaseSequenced(cfg: Config, w: World, s: State, k: nat, end: State, error: Option<Error>)
    requires Aware(cfg, w, s) && k <= |cfg.workflows| && (end, error) == WorkflowPhase(cfg, w, s, k)
    ensures Sequenced(cfg, w, k, s.probes, end.probes, error, Lost(s, end))
    decreases |cfg.workflows| - k
  {
    if k == |cfg.workflows| {
      NoMoreWorkflows(cfg, w, s);
    } else {
      WorkflowTold(cfg, w, s, cfg.workflows[k]);
      PhaseFrom(cfg, w, s, k);
      var (next, ending) := WorkflowTaken(cfg, w, s, cfg.workflows[k]);
      if ending == Done {
        PhaseSequenced(cfg, w, next, k + 1, end, error);
        OneMoreWorkflow(cfg, w, k, s.probes, next.probes, end.probes, error, Lost(s, next), Lost(next, end));
        LostOnTheWay(s, next, end);
      } else {
        LastWorkflow(cfg, w, k, s.probes, next.probes, ending, Lost(s, next));
      }
    }
  }

  lemma PhaseAware(cfg: Config, w: World, ops: seq<Operation>)
    requires cfg.Valid() && BuildFirst(cfg, w, ops, |ops|).Ok?
    ensures
      var s := FirstPhase(cfg, w, ops).state;
      && (RunsWorkflows(cfg, s) ==> Aware(cfg, w, s))
      && (!cfg.continueOnTargetError ==> (s.circuit.rateLimited <==> EndsLimited(s.probes)))
  {
    var start := Initial(BuildFirst(cfg, w, ops, |ops|).value);
    PhaseKeepsCircuit(cfg, w, start, 0);
    PhaseKeepsTally(cfg, w, start, 0);
  }

  /** The last reply is a rate limit. */
  predicate EndsLimited(h: seq<Exchange>) {
    h != [] && RateLimited(h[|h| - 1].reply)
  }

  /**
   Exactly the workflows.  A run whose probe phase was not canceled, and did not end with a rate limit unless the run
   goes on regardless, continues with its workflows: one after the other, until one is aborted or ends the run, each is
   a walk through its steps with what it has learned so far, on top of the record before it.
   */
  lemma WorkflowsExactly(cfg: Config, w: World, ops: seq<Operation>)
    requires cfg.Valid() && BuildFirst(cfg, w, ops, |ops|).Ok? && FirstPhase(cfg, w, ops).exit != Canceled
    ensures
      var before, run := FirstPhase(cfg, w, ops).state.probes, RunAll(cfg, w, ops);
      && run.Reported?
      && if cfg.workflows == [] || (!cfg.continueOnTargetError && EndsLimited(before)) then
           run.state.probes == before && run.error == None
         else Sequenced(cfg, w, 0, before, run.state.probes, run.error, Lost(FirstPhase(cfg, w, ops).state, run.state))
  {
    PhaseAware(cfg, w, ops);
    if RunsWorkflows(cfg, FirstPhase(cfg, w, ops).state) {
      var (end, error) := WorkflowPhase(cfg, w, FirstPhase(cfg, w, ops).state, 0);
      PhaseSequenced(cfg, w, FirstPhase(cfg, w, ops).state, 0, end, error);
    }
  }
}
