/**
 Which planned probes a run sends. Each probe of the list has its turn once, and what becomes of it is shown to depend
 on nothing but the record so far: whether its origin is blocked by it, and how the latest baseline in it came out.
 */
module FuzzSends {
  import opened Wrappers
  import opened FuzzModel
  import opened FuzzPlanner
  import opened FuzzRun
  import opened FuzzWorklist
  import opened FuzzGate
  import opened FuzzIsolation
  import opened FuzzTally

  /** The record does not block the probe's origin, or blocked origins do not matter. */
  ghost predicate OpenTo(cfg: Config, w: World, h: seq<Exchange>, plan: PlannedProbe) {
    cfg.continueOnTargetError && w.origin(plan.targetURL).Some? ==> !BlockedBy(w, h, w.origin(plan.targetURL).value)
  }

  /** The probe needs no baseline, or the latest one in the record that it needs qualified. */
  ghost predicate Cleared(h: seq<Exchange>, plan: PlannedProbe) {
    plan.requiresBaseline ==> LatestVerdict(h, plan.baselineKey) == Some(true)
  }

  ghost predicate Due(cfg: Config, w: World, h: seq<Exchange>, plan: PlannedProbe) {
    OpenTo(cfg, w, h, plan) && Cleared(h, plan)
  }

  /** The run is over after this reply. */
  predicate Halts(cfg: Config, w: World, e: Exchange) {
    RateLimited(e.reply) && !(cfg.continueOnTargetError && w.origin(e.plan.targetURL).Some?)
  }

  /** What the state knows is what the record says. */
  ghost predicate Knows(cfg: Config, w: World, s: State) {
    && GateInvariant(s) && CircuitInvariant(cfg, w, s) && (!cfg.continueOnTargetError ==> !s.circuit.rateLimited)
    && Agrees(s.tally, s.probes)
  }

  // ----- One turn -----

  lemma OpenExactly(cfg: Config, w: World, s: State, plan: PlannedProbe)
    requires Knows(cfg, w, s)
    ensures OpenTo(cfg, w, s.probes, plan)
       <==> !(cfg.continueOnTargetError && OriginBlocked(w, s.circuit, plan.targetURL))
  {
  }

  lemma ClearedExactly(cfg: Config, w: World, s: State, plan: PlannedProbe)
    requires Knows(cfg, w, s)
    ensures Cleared(s.probes, plan) <==> !(plan.requiresBaseline && !BaselineValid(s.gate, plan.baselineKey))
  {
  }

  lemma HaltsExactly(cfg: Config, w: World, c: Circuit, e: Exchange)
    ensures Observed(cfg, w, c, e.plan.targetURL, e.reply).1 == Halt <==> Halts(cfg, w, e)
  {
  }

  /** What one turn does, in terms of the record. */
  lemma TurnExactly(cfg: Config, w: World, s: State, plan: PlannedProbe)
    requires Knows(cfg, w, s) && Keyed(plan)
    ensures
      var (next, turn) := Taken(cfg, w, s, plan);
      var e := Exchange(plan, w.server(|s.probes|));
      if !OpenTo(cfg, w, s.probes, plan) then
        turn == Next && next == s.(skips := s.skips.(isolated := s.skips.isolated + 1))
      else if !Cleared(s.probes, plan) then
        turn == Next && next == s.(skips := s.skips.(invalidIDOR := s.skips.invalidIDOR + 1))
      else if |s.probes| > 0 && w.canceled(|s.probes|) then turn == Abort && next == s
      else
        && next.probes == s.probes + [e] && next.skips == s.skips
        && turn == (if Halts(cfg, w, e) then Break else Next)
  {
    OpenExactly(cfg, w, s, plan);
    ClearedExactly(cfg, w, s, plan);
    HaltsExactly(cfg, w, s.circuit, Exchange(plan, w.server(|s.probes|)));
  }

  lemma TurnKeepsKnowing(cfg: Config, w: World, s: State, plan: PlannedProbe)
    requires Knows(cfg, w, s) && Keyed(plan)
    ensures Taken(cfg, w, s, plan).1 != Break ==> Knows(cfg, w, Taken(cfg, w, s, plan).0)
    ensures s.list.plans <= Taken(cfg, w, s, plan).0.list.plans
  {
    TurnKeepsGate(cfg, w, s, plan);
    TurnKeepsCircuit(cfg, w, s, plan);
    TurnKeepsTally(cfg, w, s, plan);
  }

  // ----- The whole phase -----

  /** Between two places in the record the probe has its turn: it is sent if it is due, and else nothing is. */
  ghost predicate VisitAt(cfg: Config, w: World, plan: PlannedProbe, h: seq<Exchange>, before: nat, after: nat) {
    && before <= after <= |h|
    && if Due(cfg, w, h[..before], plan) then
         && after == before + 1 && h[before] == Exchange(plan, w.server(before))
         && (before > 0 ==> !w.canceled(before))
       else after == before
  }

  /** Every visited probe, from number `index` on, has its turn between two of the places. */
  ghost predicate VisitsAt(cfg: Config, w: World, plans: seq<PlannedProbe>, h: seq<Exchange>, index: nat,
                           places: seq<nat>)
  {
    && places != [] && index + |places| - 1 <= |plans|
    && forall v :: 0 <= v < |places| - 1 ==> VisitAt(cfg, w, plans[index + v], h, places[v], places[v + 1])
  }

  predicate Inside(places: seq<nat>, n: nat) {
    forall k :: 0 <= k < |places| ==> places[k] <= n
  }

  /** The visited probes that were skipped because their origin was blocked. */
  ghost function IsolatedVisits(cfg: Config, w: World, plans: seq<PlannedProbe>, h: seq<Exchange>, index: nat,
                                places: seq<nat>): nat
    requires places != [] && index + |places| - 1 <= |plans| && Inside(places, |h|)
    decreases |places|
  {
    if |places| == 1 then 0
    else
      (if !OpenTo(cfg, w, h[..places[0]], plans[index]) then 1 else 0)
      + IsolatedVisits(cfg, w, plans, h, index + 1, places[1..])
  }

  /** The visited probes of open origins whose latest baseline did not qualify, or that had none. */
  ghost function UnclearedVisits(cfg: Config, w: World, plans: seq<PlannedProbe>, h: seq<Exchange>, index: nat,
                                 places: seq<nat>): nat
    requires places != [] && index + |places| - 1 <= |plans| && Inside(places, |h|)
    decreases |places|
  {
    if |places| == 1 then 0
    else
      (if OpenTo(cfg, w, h[..places[0]], plans[index]) && !Cleared(h[..places[0]], plans[index]) then 1 else 0)
      + UnclearedVisits(cfg, w, plans, h, index + 1, places[1..])
  }

  /** Why the phase ended where it did. */
  ghost predicate EndsFor(cfg: Config, w: World, plans: seq<PlannedProbe>, h: seq<Exchange>, visited: nat, exit: Exit) {
    match exit
    case Finished => visited == |plans|
    case Stopped => h != [] && Halts(cfg, w, h[|h| - 1])
    case Canceled => visited < |plans| && Due(cfg, w, h, plans[visited]) && h != [] && w.canceled(|h|)
  }

  /** The phase from probe `index` on, told by its list, its record and the places of its visits. */
  ghost predicate Told(cfg: Config, w: World, s: State, index: nat, phase: Phase, places: seq<nat>) {
    var plans, h := phase.state.list.plans, phase.state.probes;
    && s.list.plans <= plans && s.probes <= h
    && index + |places| - 1 == phase.visited && VisitsAt(cfg, w, plans, h, index, places)
    && places[0] == |s.probes| && places[|places| - 1] == |h| && Inside(places, |h|)
    && phase.state.skips.isolated == s.skips.isolated + IsolatedVisits(cfg, w, plans, h, index, places)
    && phase.state.skips.invalidIDOR == s.skips.invalidIDOR + UnclearedVisits(cfg, w, plans, h, index, places)
    && EndsFor(cfg, w, plans, h, phase.visited, phase.exit)
  }

  ghost predicate Tellable(cfg: Config, w: World, s: State, index: nat, phase: Phase) {
    exists places: seq<nat> :: places != [] && places[0] == |s.probes| && Told(cfg, w, s, index, phase, places)
  }

  lemma ToldHere(cfg: Config, w: World, s: State, index: nat, phase: Phase)
    requires phase.state == s && phase.visited == index <= |s.list.plans|
    requires EndsFor(cfg, w, s.list.plans, s.probes, index, phase.exit)
    ensures Tellable(cfg, w, s, index, phase)
  {
    var places: seq<nat> := [|s.probes|];
    assert Told(cfg, w, s, index, phase, places);
  }

  /** One more visit in front. */
  lemma ToldFrom(cfg: Config, w: World, s: State, next: State, index: nat, phase: Phase, places: seq<nat>)
    requires index < |s.list.plans| && s.list.plans <= next.list.plans && s.probes <= next.probes
    requires places != [] && places[0] == |next.probes| && Told(cfg, w, next, index + 1, phase, places)
    requires VisitAt(cfg, w, s.list.plans[index], next.probes, |s.probes|, |next.probes|)
    requires next.skips.isolated
          == s.skips.isolated + (if !OpenTo(cfg, w, s.probes, s.list.plans[index]) then 1 else 0)
    requires next.skips.invalidIDOR
          == s.skips.invalidIDOR
             + (if OpenTo(cfg, w, s.probes, s.list.plans[index]) && !Cleared(s.probes, s.list.plans[index]) then 1
                else 0)
    ensures Told(cfg, w, s, index, phase, [|s.probes|] + places)
  {
    var plans, h, all := phase.state.list.plans, phase.state.probes, [|s.probes|] + places;
    assert all[1..] == places && h[..|s.probes|] == s.probes == next.probes[..|s.probes|];
    assert plans[index] == s.list.plans[index];
    assert VisitAt(cfg, w, plans[index], h, all[0], all[1]);
    forall v | 0 <= v < |all| - 1
      ensures VisitAt(cfg, w, plans[index + v], h, all[v], all[v + 1])
    {
      if v > 0 {
        assert VisitAt(cfg, w, plans[index + 1 + (v - 1)], h, places[v - 1], places[v]);
      }
    }
  }

  /** A turn that leaves the run going, or ends it with a reply, is a visit. */
  lemma TurnIsVisit(cfg: Config, w: World, s: State, plan: PlannedProbe)
    requires Knows(cfg, w, s) && Keyed(plan) && Taken(cfg, w, s, plan).1 != Abort
    ensures
      var next := Taken(cfg, w, s, plan).0;
      && s.probes <= next.probes
      && VisitAt(cfg, w, plan, next.probes, |s.probes|, |next.probes|)
      && next.skips.isolated == s.skips.isolated + (if !OpenTo(cfg, w, s.probes, plan) then 1 else 0)
      && next.skips.invalidIDOR
         == s.skips.invalidIDOR + (if OpenTo(cfg, w, s.probes, plan) && !Cleared(s.probes, plan) then 1 else 0)
      && (Taken(cfg, w, s, plan).1 == Break ==>
            next.probes != [] && Halts(cfg, w, next.probes[|next.probes| - 1]))
  {
    TurnExactly(cfg, w, s, plan);
    var next := Taken(cfg, w, s, plan).0;
    assert next.probes[..|s.probes|] == s.probes;
  }

  lemma TurnIsAbort(cfg: Config, w: World, s: State, plan: PlannedProbe)
    requires Knows(cfg, w, s) && Keyed(plan) && Taken(cfg, w, s, plan).1 == Abort
    ensures Taken(cfg, w, s, plan).0 == s && Due(cfg, w, s.probes, plan) && s.probes != [] && w.canceled(|s.probes|)
  {
    TurnExactly(cfg, w, s, plan);
  }

  /** The rest of the phase with this turn in front. */
  lemma VisitTold(cfg: Config, w: World, s: State, index: nat, phase: Phase)
    requires index < |s.list.plans| && Knows(cfg, w, s)
    requires
      var (next, turn) := Taken(cfg, w, s, s.list.plans[index]);
      turn != Abort && Tellable(cfg, w, next, index + 1, phase)
    ensures Tellable(cfg, w, s, index, phase)
  {
    var next := Taken(cfg, w, s, s.list.plans[index]).0;
    var rest: seq<nat> :| rest != [] && rest[0] == |next.probes| && Told(cfg, w, next, index + 1, phase, rest);
    TurnKeepsKnowing(cfg, w, s, s.list.plans[index]);
    TurnIsVisit(cfg, w, s, s.list.plans[index]);
    ToldFrom(cfg, w, s, next, index, phase, rest);
    var places: seq<nat> := [|s.probes|] + rest;
    assert Told(cfg, w, s, index, phase, places);
  }

  lemma BreakTold(cfg: Config, w: World, s: State, index: nat)
    requires index < |s.list.plans| && Knows(cfg, w, s)
    requires Taken(cfg, w, s, s.list.plans[index]).1 == Break
    ensures Tellable(cfg, w, s, index, Phase(Taken(cfg, w, s, s.list.plans[index]).0, index + 1, Stopped))
  {
    var next := Taken(cfg, w, s, s.list.plans[index]).0;
    TurnKeepsKnowing(cfg, w, s, s.list.plans[index]);
    TurnIsVisit(cfg, w, s, s.list.plans[index]);
    ToldHere(cfg, w, next, index + 1, Phase(next, index + 1, Stopped));
    VisitTold(cfg, w, s, index, Phase(next, index + 1, Stopped));
  }

  lemma AbortTold(cfg: Config, w: World, s: State, index: nat)
    requires index < |s.list.plans| && Knows(cfg, w, s)
    requires Taken(cfg, w, s, s.list.plans[index]).1 == Abort
    ensures Tellable(cfg, w, s, index, Phase(Taken(cfg, w, s, s.list.plans[index]).0, index, Canceled))
  {
    TurnIsAbort(cfg, w, s, s.list.plans[index]);
    ToldHere(cfg, w, s, index, Phase(s, index, Canceled));
  }

  lemma {:induction false} PhaseTold(cfg: Config, w: World, s: State, index: nat)
    requires index <= |s.list.plans| <= cfg.maxRequests && Knows(cfg, w, s)
    ensures Tellable(cfg, w, s, index, ProbePhase(cfg, w, s, index))
    decreases cfg.maxRequests - index
  {
    if index == |s.list.plans| {
      ToldHere(cfg, w, s, index, ProbePhase(cfg, w, s, index));
    } else {
      var (next, turn) := Taken(cfg, w, s, s.list.plans[index]);
      match turn
      case Abort => AbortTold(cfg, w, s, index);
      case Break => BreakTold(cfg, w, s, index);
      case Next =>
        TurnKeepsKnowing(cfg, w, s, s.list.plans[index]);
        PhaseTold(cfg, w, next, index + 1);
        VisitTold(cfg, w, s, index, ProbePhase(cfg, w, s, index));
    }
  }

  lemma StartKnows(cfg: Config, w: World, ops: seq<Operation>)
    requires cfg.Valid() && BuildFirst(cfg, w, ops, |ops|).Ok?
    ensures Knows(cfg, w, Initial(BuildFirst(cfg, w, ops, |ops|).value))
  {
    AllPlansStartUnguided(cfg, w, ops, |ops|);
    assert GateMatches(Initial(BuildFirst(cfg, w, ops, |ops|).value).gate, []);
  }

  /**
   Exactly what is sent.  In the probe phase of every run each visited probe of the final list has its turn at a place
   in the record, one after the other.  It is sent there if and only if the record before that place does not block
   its origin, where that matters, and the latest baseline it needs qualified; any other leaves the record as it is.
   The skipped probes are counted by the reason, and the phase goes on to the end of the list unless pacing is canceled
   before a probe that is due, or the last reply ends the run.
   */
  lemma SendsExactly(cfg: Config, w: World, ops: seq<Operation>) returns (places: seq<nat>)
    requires cfg.Valid() && BuildFirst(cfg, w, ops, |ops|).Ok?
    ensures
      var phase := FirstPhase(cfg, w, ops);
      var plans, h := phase.state.list.plans, phase.state.probes;
      && |places| == phase.visited + 1 && phase.visited <= |plans|
      && places[0] == 0 && places[phase.visited] == |h| && Inside(places, |h|)
      && (forall v :: 0 <= v < phase.visited ==> VisitAt(cfg, w, plans[v], h, places[v], places[v + 1]))
      && phase.state.skips.isolated == IsolatedVisits(cfg, w, plans, h, 0, places)
      && phase.state.skips.invalidIDOR == UnclearedVisits(cfg, w, plans, h, 0, places)
      && EndsFor(cfg, w, plans, h, phase.visited, phase.exit)
  {
    StartKnows(cfg, w, ops);
    var phase := FirstPhase(cfg, w, ops);
    var start := Initial(BuildFirst(cfg, w, ops, |ops|).value);
    PhaseTold(cfg, w, start, 0);
    places :| places != [] && places[0] == |start.probes| && Told(cfg, w, start, 0, phase, places);
    forall v | 0 <= v < phase.visited
      ensures VisitAt(cfg, w, phase.state.list.plans[v], phase.state.probes, places[v], places[v + 1])
    {
      assert VisitAt(cfg, w, phase.state.list.plans[0 + v], phase.state.probes, places[v], places[v + 1]);
    }
  }
}
