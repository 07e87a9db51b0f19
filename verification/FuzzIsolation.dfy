/**
 Isolation of failing origins, across probes and workflow steps.

 Whether an origin is blocked is shown to depend on nothing but the recorded exchanges with that origin.
 */
module FuzzIsolation {
  import opened Wrappers
  import opened FuzzModel
  import opened FuzzPlanner
  import opened FuzzRun

  ghost predicate To(w: World, e: Exchange, origin: string) {
    w.origin(e.plan.targetURL) == Some(origin)
  }

  /** Consecutive attributable failures of an origin at the end of the record.  A rate-limited reply
      neither adds to them nor ends them. */
  ghost function Streak(w: World, h: seq<Exchange>, origin: string): nat {
    if h == [] then 0
    else
      var last := h[|h| - 1];
      var before := Streak(w, h[..|h| - 1], origin);
      if !To(w, last, origin) || RateLimited(last.reply) then before
      else if last.reply.originFailure then before + 1
      else 0
  }

  /** The last exchange is with `origin` and gives reason to block it. */
  ghost predicate Trips(w: World, h: seq<Exchange>, origin: string)
    requires h != []
  {
    var last := h[|h| - 1];
    && To(w, last, origin)
    && (RateLimited(last.reply) || (last.reply.originFailure && Streak(w, h, origin) >= MAXIMUM_ORIGIN_ERRORS))
  }

  ghost predicate BlockedBy(w: World, h: seq<Exchange>, origin: string) {
    h != [] && (BlockedBy(w, h[..|h| - 1], origin) || Trips(w, h, origin))
  }

  /** The request of exchange `j` went to an origin that the exchanges before it do not block. */
  ghost predicate Permitted(w: World, h: seq<Exchange>, j: nat)
    requires j < |h|
  {
    var origin := w.origin(h[j].plan.targetURL);
    origin.Some? ==> !BlockedBy(w, h[..j], origin.value)
  }

  ghost predicate AllPermitted(w: World, h: seq<Exchange>) {
    forall j :: 0 <= j < |h| ==> Permitted(w, h, j)
  }

  /** With isolation on: the circuit knows exactly what the record says. */
  ghost predicate Isolating(w: World, s: State) {
    && AllPermitted(w, s.probes)
    && (forall origin :: origin in s.circuit.blockedOrigins <==> BlockedBy(w, s.probes, origin))
    && (forall origin :: Failures(s.circuit, origin) == Streak(w, s.probes, origin))
    && |s.circuit.blockedOrigins| == s.circuit.rateLimitedOrigins + s.circuit.transportLimitedOrigins
  }

  /** With isolation off: only the last reply can be a rate limit. */
  ghost predicate Halting(s: State) {
    && (forall j :: 0 <= j < |s.probes| - 1 ==> !RateLimited(s.probes[j].reply))
    && (s.circuit.rateLimited <==> s.probes != [] && RateLimited(s.probes[|s.probes| - 1].reply))
  }

  ghost predicate CircuitInvariant(cfg: Config, w: World, s: State) {
    if cfg.continueOnTargetError then Isolating(w, s) else Halting(s)
  }

  /** The next request may be sent. */
  ghost predicate Open(cfg: Config, w: World, s: State, url: string) {
    if cfg.continueOnTargetError then !OriginBlocked(w, s.circuit, url) else !s.circuit.rateLimited
  }

  /** The state after `e` was exchanged, as far as the circuit is concerned. */
  ghost predicate Follows(cfg: Config, w: World, s: State, next: State, e: Exchange) {
    && next.probes == s.probes + [e]
    && next.circuit == Observed(cfg, w, s.circuit, e.plan.targetURL, e.reply).0
  }

  lemma PermittedAppend(w: World, h: seq<Exchange>, e: Exchange)
    requires AllPermitted(w, h)
    requires w.origin(e.plan.targetURL).Some? ==> !BlockedBy(w, h, w.origin(e.plan.targetURL).value)
    ensures AllPermitted(w, h + [e])
  {
    var all := h + [e];
    forall j | 0 <= j < |all|
      ensures Permitted(w, all, j)
    {
      if j < |h| {
        assert Permitted(w, h, j);
        assert all[..j] == h[..j];
      } else {
        assert all[..j] == h;
      }
    }
  }

  /** One exchange adds to the record what it adds to the circuit. */
  lemma ExchangeKeepsIsolating(cfg: Config, w: World, s: State, next: State, e: Exchange)
    requires cfg.continueOnTargetError && Isolating(w, s) && Open(cfg, w, s, e.plan.targetURL)
    requires Follows(cfg, w, s, next, e)
    ensures Isolating(w, next)
  {
    var all := s.probes + [e];
    assert all[..|all| - 1] == s.probes;
    PermittedAppend(w, s.probes, e);
    forall origin: string
      ensures Streak(w, all, origin) == Failures(next.circuit, origin)
      ensures BlockedBy(w, all, origin) <==> BlockedBy(w, s.probes, origin) || Trips(w, all, origin)
    {
    }
    if w.origin(e.plan.targetURL).Some? {
      var origin := w.origin(e.plan.targetURL).value;
      assert origin !in s.circuit.blockedOrigins;
    }
  }

  lemma ExchangeKeepsInvariant(cfg: Config, w: World, s: State, next: State, e: Exchange)
    requires CircuitInvariant(cfg, w, s) && Open(cfg, w, s, e.plan.targetURL)
    requires Follows(cfg, w, s, next, e)
    ensures CircuitInvariant(cfg, w, next)
    ensures !cfg.continueOnTargetError ==>
      (next.circuit.rateLimited <==> Observed(cfg, w, s.circuit, e.plan.targetURL, e.reply).1 == Halt)
  {
    if cfg.continueOnTargetError {
      ExchangeKeepsIsolating(cfg, w, s, next, e);
    }
  }

  // ----- Probes -----

  lemma TurnKeepsCircuit(cfg: Config, w: World, s: State, plan: PlannedProbe)
    requires CircuitInvariant(cfg, w, s) && (!cfg.continueOnTargetError ==> !s.circuit.rateLimited)
    ensures
      var (next, turn) := Taken(cfg, w, s, plan);
      && CircuitInvariant(cfg, w, next)
      && (!cfg.continueOnTargetError && turn != Break ==> !next.circuit.rateLimited)
  {
    var (next, turn) := Taken(cfg, w, s, plan);
    var e := Exchange(plan, w.server(s.tally.requests));
    if next.probes == s.probes + [e] {
      ExchangeKeepsInvariant(cfg, w, s, next, e);
    }
  }

  lemma {:induction false} PhaseKeepsCircuit(cfg: Config, w: World, s: State, index: nat)
    requires index <= |s.list.plans| <= cfg.maxRequests
    requires CircuitInvariant(cfg, w, s) && (!cfg.continueOnTargetError ==> !s.circuit.rateLimited)
    ensures CircuitInvariant(cfg, w, ProbePhase(cfg, w, s, index).state)
    decreases cfg.maxRequests - index
  {
    if index < |s.list.plans| {
      TurnKeepsCircuit(cfg, w, s, s.list.plans[index]);
      var (next, turn) := Taken(cfg, w, s, s.list.plans[index]);
      if turn == Next {
        PhaseKeepsCircuit(cfg, w, next, index + 1);
      }
    }
  }

  // ----- Workflow steps -----

  lemma StepKeepsCircuit(cfg: Config, w: World, s: State, workflow: Workflow, step: WorkflowStep, vars: Variables)
    requires cfg.identities != []
    requires CircuitInvariant(cfg, w, s) && (!cfg.continueOnTargetError ==> !s.circuit.rateLimited)
    ensures
      var taken := StepTaken(cfg, w, s, workflow, step, vars);
      && CircuitInvariant(cfg, w, taken.state)
      && (!cfg.continueOnTargetError && taken.outcome != Stop ==> !taken.state.circuit.rateLimited)
  {
    var next := StepTaken(cfg, w, s, workflow, step, vars).state;
    if next.probes != s.probes {
      var plan := StepPlan(w, workflow, step, vars, StepIdentity(cfg, step).value);
      ExchangeKeepsInvariant(cfg, w, s, next, Exchange(plan, w.server(s.tally.requests)));
    }
  }

  lemma {:induction false} StepsKeepCircuit(cfg: Config, w: World, s: State, workflow: Workflow, i: nat,
                                            vars: Variables)
    requires cfg.identities != [] && i <= |workflow.steps|
    requires CircuitInvariant(cfg, w, s) && (!cfg.continueOnTargetError ==> !s.circuit.rateLimited)
    ensures
      var (next, ending) := StepsTaken(cfg, w, s, workflow, i, vars);
      && CircuitInvariant(cfg, w, next)
      && (!cfg.continueOnTargetError && ending == Done ==> !next.circuit.rateLimited)
    decreases |workflow.steps| - i
  {
    if i < |workflow.steps| {
      StepKeepsCircuit(cfg, w, s, workflow, workflow.steps[i], vars);
      var step := StepTaken(cfg, w, s, workflow, workflow.steps[i], vars);
      if step.outcome == Continue {
        StepsKeepCircuit(cfg, w, step.state, workflow, i + 1, step.variables);
      }
    }
  }

  lemma {:induction false} WorkflowsKeepCircuit(cfg: Config, w: World, s: State, k: nat)
    requires cfg.identities != [] && k <= |cfg.workflows|
    requires CircuitInvariant(cfg, w, s) && (!cfg.continueOnTargetError ==> !s.circuit.rateLimited)
    ensures CircuitInvariant(cfg, w, WorkflowPhase(cfg, w, s, k).0)
    decreases |cfg.workflows| - k
  {
    if k < |cfg.workflows| {
      var (next, ending) := WorkflowTaken(cfg, w, s, cfg.workflows[k]);
      if !Skipped(cfg, cfg.workflows[k]) {
        StepsKeepCircuit(cfg, w, s, cfg.workflows[k], 0, map[]);
      }
      if ending == Done {
        WorkflowsKeepCircuit(cfg, w, next, k + 1);
      }
    }
  }

  // ----- The theorems -----

  lemma RunKeepsCircuit(cfg: Config, w: World, ops: seq<Operation>)
    requires cfg.identities != [] && RunAll(cfg, w, ops).Reported?
    ensures CircuitInvariant(cfg, w, RunAll(cfg, w, ops).state)
  {
    PhaseKeepsCircuit(cfg, w, Initial(BuildFirst(cfg, w, ops, |ops|).value), 0);
    var s := FirstPhase(cfg, w, ops).state;
    if RunsWorkflows(cfg, s) {
      WorkflowsKeepCircuit(cfg, w, s, 0);
    }
  }

  /** Three failures in a row block an origin, so an open one has fewer. */
  lemma {:induction false} StreakBlocks(w: World, h: seq<Exchange>, origin: string)
    ensures Streak(w, h, origin) >= MAXIMUM_ORIGIN_ERRORS ==> BlockedBy(w, h, origin)
  {
    if h != [] {
      StreakBlocks(w, h[..|h| - 1], origin);
    }
  }

  /**
   Origin isolation.  With `continueOnTargetError`, no request of the run goes to an origin that an earlier
   exchange blocked, the final set of blocked origins is the one the record gives, every other origin has
   fewer than three failures in a row, and the two counters add up to the number of blocked origins.
   Without it, a rate-limited reply ends the run.
   */
  lemma OriginIsolation(cfg: Config, w: World, ops: seq<Operation>)
    requires cfg.Valid() && RunAll(cfg, w, ops).Reported?
    ensures
      var s := RunAll(cfg, w, ops).state;
      if cfg.continueOnTargetError then
        && (forall j, origin :: 0 <= j < |s.probes| && To(w, s.probes[j], origin)
              ==> !BlockedBy(w, s.probes[..j], origin))
        && (forall origin :: origin in s.circuit.blockedOrigins <==> BlockedBy(w, s.probes, origin))
        && (forall origin :: origin !in s.circuit.blockedOrigins
              ==> Streak(w, s.probes, origin) < MAXIMUM_ORIGIN_ERRORS)
        && |s.circuit.blockedOrigins| == s.circuit.rateLimitedOrigins + s.circuit.transportLimitedOrigins
      else
        forall j :: 0 <= j < |s.probes| && RateLimited(s.probes[j].reply) ==> j == |s.probes| - 1
  {
    RunKeepsCircuit(cfg, w, ops);
    var s := RunAll(cfg, w, ops).state;
    if cfg.continueOnTargetError {
      forall origin: string
        ensures Streak(w, s.probes, origin) >= MAXIMUM_ORIGIN_ERRORS ==> BlockedBy(w, s.probes, origin)
      {
        StreakBlocks(w, s.probes, origin);
      }
      forall j, origin | 0 <= j < |s.probes| && To(w, s.probes[j], origin)
        ensures !BlockedBy(w, s.probes[..j], origin)
      {
        assert Permitted(w, s.probes, j);
      }
    }
  }

  /** A failure that counts against the origin. */
  ghost predicate CountedFailure(w: World, e: Exchange, origin: string) {
    To(w, e, origin) && !RateLimited(e.reply) && e.reply.originFailure
  }

  /** A reply of the origin that ends its streak. */
  ghost predicate EndsStreak(w: World, e: Exchange, origin: string) {
    To(w, e, origin) && !RateLimited(e.reply) && !e.reply.originFailure
  }

  ghost predicate ThreeFailures(w: World, h: seq<Exchange>, origin: string, i: int, j: int, k: int) {
    && 0 <= i < j < k < |h|
    && CountedFailure(w, h[i], origin) && CountedFailure(w, h[j], origin) && CountedFailure(w, h[k], origin)
    && forall m :: i < m < k ==> !EndsStreak(w, h[m], origin)
  }

  /** The last failures of a streak, latest first. */
  lemma {:induction false} LastFailure(w: World, h: seq<Exchange>, origin: string) returns (k: nat)
    requires Streak(w, h, origin) > 0
    ensures k < |h| && CountedFailure(w, h[k], origin)
    ensures Streak(w, h[..k], origin) + 1 == Streak(w, h, origin)
    ensures forall m :: k < m < |h| ==> !EndsStreak(w, h[m], origin)
  {
    if CountedFailure(w, h[|h| - 1], origin) {
      k := |h| - 1;
    } else {
      k := LastFailure(w, h[..|h| - 1], origin);
      assert h[..|h| - 1][..k] == h[..k];
    }
  }

  lemma StreakHasFailures(w: World, h: seq<Exchange>, origin: string) returns (i: nat, j: nat, k: nat)
    requires Streak(w, h, origin) >= 3
    ensures ThreeFailures(w, h, origin, i, j, k)
  {
    k := LastFailure(w, h, origin);
    j := LastFailure(w, h[..k], origin);
    assert h[..k][..j] == h[..j];
    i := LastFailure(w, h[..j], origin);
  }

  /** Failures that nothing ended are all in the streak. */
  lemma {:induction false} StreakGrows(w: World, h: seq<Exchange>, origin: string, m: nat)
    requires m < |h| && CountedFailure(w, h[m], origin)
    requires forall n :: m < n < |h| ==> !EndsStreak(w, h[n], origin)
    ensures Streak(w, h, origin) >= Streak(w, h[..m], origin) + 1
  {
    if m < |h| - 1 {
      StreakGrows(w, h[..|h| - 1], origin, m);
      assert h[..|h| - 1][..m] == h[..m];
    }
  }

  lemma FailuresMakeStreak(w: World, h: seq<Exchange>, origin: string, i: nat, j: nat, k: nat)
    requires ThreeFailures(w, h, origin, i, j, k) && k == |h| - 1
    ensures Streak(w, h, origin) >= 3
  {
    StreakGrows(w, h, origin, k);
    assert !EndsStreak(w, h[j], origin);
    StreakGrows(w, h[..k], origin, j);
    assert h[..k][..j] == h[..j];
    StreakGrows(w, h[..j], origin, i);
    assert h[..j][..i] == h[..i];
  }

  /** Three failures are all before the last exchange, or make a streak that ends with it. */
  lemma EarlierOrStreak(w: World, h: seq<Exchange>, origin: string, i: nat, j: nat, k: nat)
    requires ThreeFailures(w, h, origin, i, j, k)
    ensures ThreeFailures(w, h[..|h| - 1], origin, i, j, k)
         || (k == |h| - 1 && CountedFailure(w, h[k], origin) && Streak(w, h, origin) >= 3)
  {
    if k == |h| - 1 {
      FailuresMakeStreak(w, h, origin, i, j, k);
    }
  }

  /**
   The three reasons in the open: an origin is blocked when the record holds a rate-limited reply from it, or
   three attributable failures of it with no reply between the first and the last that ends the streak.
   */
  lemma {:induction false} BlockedExactlyWhen(w: World, h: seq<Exchange>, origin: string)
    ensures BlockedBy(w, h, origin) <==>
      || (exists i :: 0 <= i < |h| && To(w, h[i], origin) && RateLimited(h[i].reply))
      || (exists i, j, k :: ThreeFailures(w, h, origin, i, j, k))
  {
    if h != [] {
      var rest := h[..|h| - 1];
      BlockedExactlyWhen(w, rest, origin);
      assert forall i :: 0 <= i < |rest| ==> rest[i] == h[i];
      if BlockedBy(w, rest, origin) {
        if exists i :: 0 <= i < |rest| && To(w, rest[i], origin) && RateLimited(rest[i].reply) {
          var i :| 0 <= i < |rest| && To(w, rest[i], origin) && RateLimited(rest[i].reply);
          assert To(w, h[i], origin);
        } else {
          var i, j, k :| ThreeFailures(w, rest, origin, i, j, k);
          assert ThreeFailures(w, h, origin, i, j, k);
        }
      } else if Trips(w, h, origin) {
        if RateLimited(h[|h| - 1].reply) {
          assert To(w, h[|h| - 1], origin);
        } else {
          var i, j, k := StreakHasFailures(w, h, origin);
        }
      } else {
        if i, j, k :| ThreeFailures(w, h, origin, i, j, k) {
          EarlierOrStreak(w, h, origin, i, j, k);
          assert false;
        }
      }
    }
  }
}
