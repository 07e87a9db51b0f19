/**
 Object-identifier probes are only sent after a baseline of their own operation and identity qualified.

 The run keeps one verdict per baseline key.  Here that verdict is shown to be the verdict on the latest
 baseline in the recorded probes, which a guided retry can never be.
 */
module FuzzGate {
  import opened Wrappers
  import opened FuzzModel
  import opened FuzzPlanner
  import opened FuzzRun
  import opened FuzzWorklist

  /** The recorded probe is a baseline for `key`. */
  ghost predicate BaselineFor(e: Exchange, key: BaselineKey) {
    e.plan.qualifiesBaseline && e.plan.baselineKey == key
  }

  /** The verdict on the latest baseline for `key`, if there was one. */
  ghost function LatestVerdict(h: seq<Exchange>, key: BaselineKey): Option<bool> {
    if h == [] then None
    else if BaselineFor(h[|h| - 1], key) then Some(Qualifies(h[|h| - 1].reply))
    else LatestVerdict(h[..|h| - 1], key)
  }

  /** How many baselines qualified, or were rejected. */
  ghost function Verdicts(h: seq<Exchange>, verdict: bool): nat {
    if h == [] then 0
    else
      var last := h[|h| - 1];
      Verdicts(h[..|h| - 1], verdict) + if last.plan.qualifiesBaseline && Qualifies(last.reply) == verdict then 1 else 0
  }

  ghost predicate GateMatches(gate: Gate, h: seq<Exchange>) {
    && (forall key :: key in gate.baselines <==> LatestVerdict(h, key).Some?)
    && (forall key :: key in gate.baselines ==> Some(gate.baselines[key]) == LatestVerdict(h, key))
    && gate.qualified == Verdicts(h, true)
    && gate.rejected == Verdicts(h, false)
  }

  /** A planned probe carries the key of its own baseline, and only an unguided baseline gives a verdict. */
  ghost predicate Keyed(plan: PlannedProbe) {
    && plan.baselineKey == BaselineKey(plan.verb, plan.baselineURL, plan.identity)
    && (plan.qualifiesBaseline ==> plan.category == "baseline" && plan.guidedDepth == 0)
  }

  ghost predicate AllKeyed(plans: seq<PlannedProbe>) {
    forall i :: 0 <= i < |plans| ==> Keyed(plans[i])
  }

  /** What every recorded probe satisfies, given those recorded before it. */
  ghost predicate Gated(h: seq<Exchange>, j: nat)
    requires j < |h|
  {
    var plan := h[j].plan;
    && (plan.qualifiesBaseline || plan.requiresBaseline ==> Keyed(plan))
    && (plan.requiresBaseline ==> LatestVerdict(h[..j], plan.baselineKey) == Some(true))
  }

  ghost predicate AllGated(h: seq<Exchange>) {
    forall j :: 0 <= j < |h| ==> Gated(h, j)
  }

  ghost predicate GateInvariant(s: State) {
    AllKeyed(s.list.plans) && GateMatches(s.gate, s.probes) && AllGated(s.probes)
  }

  lemma GatedAppend(h: seq<Exchange>, e: Exchange)
    requires AllGated(h) && Gated(h + [e], |h|)
    ensures AllGated(h + [e])
  {
    forall j | 0 <= j < |h|
      ensures Gated(h + [e], j)
    {
      assert Gated(h, j);
      assert (h + [e])[..j] == h[..j];
    }
  }

  /** Judging a reply keeps the verdicts those of the record. */
  lemma JudgedMatches(gate: Gate, h: seq<Exchange>, plan: PlannedProbe, reply: Reply)
    requires GateMatches(gate, h)
    ensures GateMatches(Judged(gate, plan, reply), h + [Exchange(plan, reply)])
  {
    var all := h + [Exchange(plan, reply)];
    assert all[..|all| - 1] == h;
    forall key: BaselineKey
      ensures LatestVerdict(all, key) ==
        if BaselineFor(Exchange(plan, reply), key) then Some(Qualifies(reply)) else LatestVerdict(h, key)
    {
    }
  }

  /** A retry is keyed as its parent is, and gives no verdict. */
  lemma ScheduledKeyed(cfg: Config, list: Worklist, plan: PlannedProbe, reply: Reply)
    requires AllKeyed(list.plans) && Keyed(plan)
    ensures AllKeyed(Scheduled(cfg, list, plan, reply).plans)
  {
  }

  lemma TurnKeepsGate(cfg: Config, w: World, s: State, plan: PlannedProbe)
    requires GateInvariant(s) && Keyed(plan)
    ensures GateInvariant(Taken(cfg, w, s, plan).0)
  {
    var reply := w.server(s.tally.requests);
    ScheduledKeyed(cfg, s.list, plan, reply);
    JudgedMatches(s.gate, s.probes, plan, reply);
    if plan.requiresBaseline ==> BaselineValid(s.gate, plan.baselineKey) {
      var all := s.probes + [Exchange(plan, reply)];
      assert all[..|s.probes|] == s.probes;
      assert Gated(all, |s.probes|);
      GatedAppend(s.probes, Exchange(plan, reply));
    }
  }

  lemma {:induction false} PhaseKeepsGate(cfg: Config, w: World, s: State, index: nat)
    requires index <= |s.list.plans| <= cfg.maxRequests && GateInvariant(s)
    ensures GateInvariant(ProbePhase(cfg, w, s, index).state)
    decreases cfg.maxRequests - index
  {
    if index < |s.list.plans| {
      var plan := s.list.plans[index];
      TurnKeepsGate(cfg, w, s, plan);
      var (next, turn) := Taken(cfg, w, s, plan);
      if turn == Next {
        PhaseKeepsGate(cfg, w, next, index + 1);
      }
    }
  }

  // ----- Workflow steps are never gated and never judge -----

  /** A step leaves the list and the verdicts alone, and records at most its own request. */
  lemma StepRecords(cfg: Config, w: World, s: State, workflow: Workflow, step: WorkflowStep, vars: Variables)
    returns (e: Exchange)
    requires cfg.identities != []
    ensures
      var next := StepTaken(cfg, w, s, workflow, step, vars).state;
      && next.list.plans == s.list.plans && next.gate == s.gate
      && (next.probes == s.probes || next.probes == s.probes + [e])
    ensures !e.plan.requiresBaseline && !e.plan.qualifiesBaseline
  {
    var identity := match StepIdentity(cfg, step) case Ok(name) => name case Err(_) => "";
    e := Exchange(StepPlan(w, workflow, step, vars, identity), w.server(s.tally.requests));
  }

  /** A request that needs no baseline and is none changes nothing about gating. */
  lemma UngatedAppend(gate: Gate, h: seq<Exchange>, e: Exchange)
    requires GateMatches(gate, h) && AllGated(h) && !e.plan.requiresBaseline && !e.plan.qualifiesBaseline
    ensures GateMatches(gate, h + [e]) && AllGated(h + [e])
  {
    assert Gated(h + [e], |h|);
    GatedAppend(h, e);
    JudgedMatches(gate, h, e.plan, e.reply);
  }

  lemma StepKeepsGate(cfg: Config, w: World, s: State, workflow: Workflow, step: WorkflowStep, vars: Variables)
    requires cfg.identities != [] && GateInvariant(s)
    ensures GateInvariant(StepTaken(cfg, w, s, workflow, step, vars).state)
  {
    var e := StepRecords(cfg, w, s, workflow, step, vars);
    UngatedAppend(s.gate, s.probes, e);
  }

  lemma {:induction false} StepsKeepGate(cfg: Config, w: World, s: State, workflow: Workflow, i: nat, vars: Variables)
    requires cfg.identities != [] && i <= |workflow.steps| && GateInvariant(s)
    ensures GateInvariant(StepsTaken(cfg, w, s, workflow, i, vars).0)
    decreases |workflow.steps| - i
  {
    if i < |workflow.steps| {
      StepKeepsGate(cfg, w, s, workflow, workflow.steps[i], vars);
      var step := StepTaken(cfg, w, s, workflow, workflow.steps[i], vars);
      if step.outcome == Continue {
        StepsKeepGate(cfg, w, step.state, workflow, i + 1, step.variables);
      }
    }
  }

  lemma {:induction false} WorkflowsKeepGate(cfg: Config, w: World, s: State, k: nat)
    requires cfg.identities != [] && k <= |cfg.workflows| && GateInvariant(s)
    ensures GateInvariant(WorkflowPhase(cfg, w, s, k).0)
    decreases |cfg.workflows| - k
  {
    if k < |cfg.workflows| {
      var (next, ending) := WorkflowTaken(cfg, w, s, cfg.workflows[k]);
      if !Skipped(cfg, cfg.workflows[k]) {
        StepsKeepGate(cfg, w, s, cfg.workflows[k], 0, map[]);
      }
      if ending == Done {
        WorkflowsKeepGate(cfg, w, next, k + 1);
      }
    }
  }

  // ----- The theorem -----

  /** The latest baseline for a key, as a place in the record. */
  lemma {:induction false} VerdictHasPlace(h: seq<Exchange>, key: BaselineKey) returns (i: nat)
    requires LatestVerdict(h, key).Some?
    ensures i < |h| && BaselineFor(h[i], key)
    ensures LatestVerdict(h, key) == Some(Qualifies(h[i].reply))
    ensures forall k :: i < k < |h| ==> !BaselineFor(h[k], key)
  {
    if BaselineFor(h[|h| - 1], key) {
      i := |h| - 1;
    } else {
      i := VerdictHasPlace(h[..|h| - 1], key);
    }
  }

  /** Probe `i` is the latest baseline of probe `j`'s operation and identity before `j`, and it qualified. */
  ghost predicate UnlockedBy(h: seq<Exchange>, i: nat, j: nat)
    requires i < j < |h|
  {
    var probe, baseline := h[j].plan, h[i].plan;
    && baseline.qualifiesBaseline && baseline.category == "baseline" && baseline.guidedDepth == 0
    && baseline.verb == probe.verb
    && baseline.baselineURL == probe.baselineURL
    && baseline.identity == probe.identity
    && Qualifies(h[i].reply)
    && forall k :: i < k < j ==> !BaselineFor(h[k], BaselineKey(probe.verb, probe.baselineURL, probe.identity))
  }

  lemma RunKeepsGate(cfg: Config, w: World, ops: seq<Operation>)
    requires cfg.identities != [] && RunAll(cfg, w, ops).Reported?
    ensures GateInvariant(RunAll(cfg, w, ops).state)
  {
    var start := Initial(BuildFirst(cfg, w, ops, |ops|).value);
    AllPlansStartUnguided(cfg, w, ops, |ops|);
    assert GateMatches(start.gate, []);
    PhaseKeepsGate(cfg, w, start, 0);
    WorkflowsKeepGate(cfg, w, FirstPhase(cfg, w, ops).state, 0);
  }

  /**
   Baseline gating.  In every run, a probe that needs a valid baseline, guided retries included, comes after
   a baseline with its method, baseline URL and identity; the latest such baseline qualified; and the counts
   of qualified and rejected baselines are those of the record.
   */
  lemma BaselineGating(cfg: Config, w: World, ops: seq<Operation>)
    requires cfg.Valid() && RunAll(cfg, w, ops).Reported?
    ensures
      var s := RunAll(cfg, w, ops).state;
      && (forall j :: 0 <= j < |s.probes| && s.probes[j].plan.requiresBaseline ==>
            exists i :: 0 <= i < j && UnlockedBy(s.probes, i, j))
      && (forall j :: 0 <= j < |s.probes| && s.probes[j].plan.guidedDepth > 0 ==> !s.probes[j].plan.qualifiesBaseline)
      && s.gate.qualified == Verdicts(s.probes, true)
      && s.gate.rejected == Verdicts(s.probes, false)
  {
    RunKeepsGate(cfg, w, ops);
    var h := RunAll(cfg, w, ops).state.probes;
    forall j | 0 <= j < |h|
      ensures h[j].plan.guidedDepth > 0 ==> !h[j].plan.qualifiesBaseline
      ensures h[j].plan.requiresBaseline ==> exists i :: 0 <= i < j && UnlockedBy(h, i, j)
    {
      assert Gated(h, j);
      if h[j].plan.requiresBaseline {
        var i := VerdictHasPlace(h[..j], h[j].plan.baselineKey);
        assert Gated(h, i);
        assert forall k :: i < k < j ==> h[..j][k] == h[k];
        assert UnlockedBy(h, i, j);
      }
    }
  }
}
