/**
 Which guided retries a run plans. A reply that offers a repair gets its retry, once for each request and while there
 is room, and every probe that was added to the list is such a retry.
 */
module FuzzRepairs {
  import opened FuzzModel
  import opened FuzzPlanner
  import opened FuzzRun
  import opened FuzzWorklist
  import opened FuzzGate
  import opened FuzzIsolation
  import opened FuzzSends

  // ----- What the record calls for -----

  /** Exchange `j` neither ends the run nor blocks its origin. */
  ghost predicate GoesOn(cfg: Config, w: World, h: seq<Exchange>, j: nat)
    requires j < |h|
  {
    var origin := w.origin(h[j].plan.targetURL);
    && !RateLimited(h[j].reply)
    && (cfg.continueOnTargetError && origin.Some? ==> !Trips(w, h[..j + 1], origin.value))
  }

  /** The hint in exchange `j` is looked at. */
  ghost predicate Heard(cfg: Config, w: World, h: seq<Exchange>, j: nat)
    requires j < |h|
  {
    cfg.responseGuided && h[j].plan.guidedDepth < cfg.maxGuidedRetries && GoesOn(cfg, w, h, j)
  }

  ghost predicate Offers(cfg: Config, w: World, h: seq<Exchange>, j: nat) {
    j < |h| && Heard(cfg, w, h, j) && h[j].reply.decision.Repair?
  }

  /** The hint leads nowhere. */
  ghost predicate Puzzles(cfg: Config, w: World, h: seq<Exchange>, j: nat) {
    j < |h| && Heard(cfg, w, h, j) && h[j].reply.decision.Unresolved?
  }

  /** The request that the reply asks for: the probe's own, with the repaired URL and body. */
  function Repaired(e: Exchange): Fingerprint
    requires e.reply.decision.Repair?
  {
    Fingerprint(e.plan.verb, e.reply.decision.url, e.plan.identity, e.reply.decision.body)
  }

  /** The probe is the retry that the reply asks for: one level deeper, and bound to the same baseline. */
  ghost predicate RetryOf(e: Exchange, p: PlannedProbe) {
    && e.reply.decision.Repair? && p.Print() == Repaired(e)
    && p.contentType == e.reply.decision.contentType && p.category == "response_guided"
    && p.guidedDepth == e.plan.guidedDepth + 1 && p.guidedRoot == e.plan.guidedRoot
    && (p.guidedFromFailure <==> ApplicationFailure(e.reply))
    && p.baselineURL == e.plan.baselineURL && p.baselineKey == e.plan.baselineKey
    && p.requiresBaseline == e.plan.requiresBaseline && !p.qualifiesBaseline
  }

  ghost predicate Listed(plans: seq<PlannedProbe>, wanted: Fingerprint) {
    exists k :: 0 <= k < |plans| && plans[k].Print() == wanted
  }

  predicate Full(cfg: Config, list: Worklist) {
    |list.plans| == cfg.maxRequests && list.requestBudgetHit
  }

  /** Every repair on offer is on the list, or the list is full. */
  ghost predicate AllListed(cfg: Config, w: World, h: seq<Exchange>, list: Worklist) {
    forall j: nat :: Offers(cfg, w, h, j) ==> Listed(list.plans, Repaired(h[j])) || Full(cfg, list)
  }

  ghost predicate FromOffer(cfg: Config, w: World, h: seq<Exchange>, p: PlannedProbe) {
    exists j: nat :: Offers(cfg, w, h, j) && RetryOf(h[j], p)
  }

  /** Every probe behind the first ones is a retry that a reply asks for. */
  ghost predicate AllOffered(cfg: Config, w: World, h: seq<Exchange>, list: Worklist, base: nat) {
    forall k :: base <= k < |list.plans| ==> FromOffer(cfg, w, h, list.plans[k])
  }

  ghost predicate Puzzling(cfg: Config, w: World, h: seq<Exchange>, root: Fingerprint) {
    exists j: nat :: Puzzles(cfg, w, h, j) && h[j].plan.guidedRoot == root
  }

  /** The hints that lead nowhere are counted once for the probe they started from. */
  ghost predicate AllNoted(cfg: Config, w: World, h: seq<Exchange>, list: Worklist) {
    && (forall root :: root in list.unresolvedRoots <==> Puzzling(cfg, w, h, root))
    && list.unresolvedHints == |list.unresolvedRoots|
  }

  ghost predicate Repairing(cfg: Config, w: World, s: State, base: nat) {
    && s.list.seenPlans == Prints(s.list.plans) && |s.list.plans| <= cfg.maxRequests
    && AllListed(cfg, w, s.probes, s.list)
    && AllOffered(cfg, w, s.probes, s.list, base)
    && AllNoted(cfg, w, s.probes, s.list)
  }

  // ----- One exchange -----

  lemma HeardStays(cfg: Config, w: World, h: seq<Exchange>, e: Exchange, j: nat)
    requires j < |h|
    ensures Heard(cfg, w, h + [e], j) <==> Heard(cfg, w, h, j)
    ensures Offers(cfg, w, h + [e], j) <==> Offers(cfg, w, h, j)
    ensures Puzzles(cfg, w, h + [e], j) <==> Puzzles(cfg, w, h, j)
  {
    assert (h + [e])[..j + 1] == h[..j + 1];
  }

  /** The circuit lets the run go on with the origin exactly when the record does. */
  lemma ProceedsExactly(cfg: Config, w: World, s: State, e: Exchange)
    requires Knows(cfg, w, s) && OpenTo(cfg, w, s.probes, e.plan)
    ensures Observed(cfg, w, s.circuit, e.plan.targetURL, e.reply).1 == Proceed
       <==> GoesOn(cfg, w, s.probes + [e], |s.probes|)
  {
    var all := s.probes + [e];
    assert all[..|all| - 1] == s.probes && all[..|s.probes| + 1] == all;
  }

  lemma LastHeard(cfg: Config, w: World, s: State, e: Exchange)
    requires Knows(cfg, w, s) && OpenTo(cfg, w, s.probes, e.plan)
    ensures Heard(cfg, w, s.probes + [e], |s.probes|)
       <==> Observed(cfg, w, s.circuit, e.plan.targetURL, e.reply).1 == Proceed && MayRetry(cfg, e.plan)
  {
    ProceedsExactly(cfg, w, s, e);
  }

  /** The list after the exchange. */
  ghost function After(cfg: Config, list: Worklist, e: Exchange, heard: bool): Worklist {
    if heard then Scheduled(cfg, list, e.plan, e.reply) else list
  }

  lemma InPrints(plans: seq<PlannedProbe>, wanted: Fingerprint)
    ensures wanted in Prints(plans) <==> Listed(plans, wanted)
  {
  }

  lemma AppendedListed(plans: seq<PlannedProbe>, p: PlannedProbe, wanted: Fingerprint)
    ensures Listed(plans + [p], wanted) <==> Listed(plans, wanted) || p.Print() == wanted
  {
    var all := plans + [p];
    assert all[|plans|] == p;
    if k :| 0 <= k < |plans| && plans[k].Print() == wanted {
      assert all[k].Print() == wanted;
    }
  }

  /** Scheduling a retry: the list keeps what it has, and has the repaired request then, or is full. */
  lemma RetryListed(cfg: Config, list: Worklist, e: Exchange)
    requires e.reply.decision.Repair? && list.seenPlans == Prints(list.plans) && |list.plans| <= cfg.maxRequests
    ensures
      var next := WithRetry(cfg, list, Retry(e.plan, e.reply));
      && next.seenPlans == Prints(next.plans) && |next.plans| <= cfg.maxRequests
      && (Listed(next.plans, Repaired(e)) || Full(cfg, next))
      && (forall wanted :: Listed(list.plans, wanted) ==> Listed(next.plans, wanted))
      && (Full(cfg, list) ==> Full(cfg, next))
      && next.unresolvedRoots == list.unresolvedRoots && next.unresolvedHints == list.unresolvedHints
      && (next.plans == list.plans
          || (exists p :: next.plans == list.plans + [p] && RetryOf(e, p)))
  {
    var retry := Retry(e.plan, e.reply);
    var next := WithRetry(cfg, list, retry);
    assert retry.Print() == Repaired(e);
    InPrints(list.plans, Repaired(e));
    if next.plans != list.plans {
      assert next.plans == list.plans + [retry] && RetryOf(e, retry);
      PrintsOfAppend(list.plans, retry);
      forall wanted
        ensures Listed(next.plans, wanted) <==> Listed(list.plans, wanted) || retry.Print() == wanted
      {
        AppendedListed(list.plans, retry, wanted);
      }
    }
  }

  // ----- What one exchange keeps -----

  lemma OfferStays(cfg: Config, w: World, h: seq<Exchange>, e: Exchange, p: PlannedProbe)
    requires FromOffer(cfg, w, h, p)
    ensures FromOffer(cfg, w, h + [e], p)
  {
    var j: nat :| Offers(cfg, w, h, j) && RetryOf(h[j], p);
    HeardStays(cfg, w, h, e, j);
    assert (h + [e])[j] == h[j];
  }

  lemma PuzzlingNext(cfg: Config, w: World, h: seq<Exchange>, e: Exchange, root: Fingerprint)
    ensures Puzzling(cfg, w, h + [e], root)
       <==> Puzzling(cfg, w, h, root) || (Puzzles(cfg, w, h + [e], |h|) && e.plan.guidedRoot == root)
  {
    if j: nat :| Puzzles(cfg, w, h, j) && h[j].plan.guidedRoot == root {
      HeardStays(cfg, w, h, e, j);
      assert (h + [e])[j].plan.guidedRoot == root;
    }
    if j: nat :| Puzzles(cfg, w, h + [e], j) && (h + [e])[j].plan.guidedRoot == root && j < |h| {
      HeardStays(cfg, w, h, e, j);
      assert h[j].plan.guidedRoot == root;
    }
    assert (h + [e])[|h|] == e;
  }

  lemma RootsStay(cfg: Config, list: Worklist, retry: PlannedProbe)
    ensures
      var next := WithRetry(cfg, list, retry);
      next.unresolvedRoots == list.unresolvedRoots && next.unresolvedHints == list.unresolvedHints
  {
  }

  lemma NotedRoots(cfg: Config, list: Worklist, e: Exchange, heard: bool)
    ensures
      var next := After(cfg, list, e, heard);
      && next.unresolvedRoots
         == list.unresolvedRoots
            + (if heard && e.reply.decision.Unresolved? then {e.plan.guidedRoot} else {})
      && (list.unresolvedHints == |list.unresolvedRoots| ==> next.unresolvedHints == |next.unresolvedRoots|)
  {
    match e.reply.decision
    case NoHint =>
    case Unresolved =>
    case Repair(_, _, _, _) => RootsStay(cfg, list, Retry(e.plan, e.reply));
  }

  lemma NotedNext(cfg: Config, w: World, h: seq<Exchange>, list: Worklist, e: Exchange)
    requires AllNoted(cfg, w, h, list)
    ensures AllNoted(cfg, w, h + [e], After(cfg, list, e, Heard(cfg, w, h + [e], |h|)))
  {
    var all, heard := h + [e], Heard(cfg, w, h + [e], |h|);
    assert all[|h|] == e && (Puzzles(cfg, w, all, |h|) <==> heard && e.reply.decision.Unresolved?);
    NotedRoots(cfg, list, e, heard);
    var next := After(cfg, list, e, heard);
    forall root
      ensures root in next.unresolvedRoots <==> Puzzling(cfg, w, all, root)
    {
      PuzzlingNext(cfg, w, h, e, root);
      assert root in list.unresolvedRoots <==> Puzzling(cfg, w, h, root);
    }
  }

  lemma ListedNext(cfg: Config, w: World, h: seq<Exchange>, list: Worklist, e: Exchange)
    requires AllListed(cfg, w, h, list) && list.seenPlans == Prints(list.plans) && |list.plans| <= cfg.maxRequests
    ensures AllListed(cfg, w, h + [e], After(cfg, list, e, Heard(cfg, w, h + [e], |h|)))
  {
    var all, next := h + [e], After(cfg, list, e, Heard(cfg, w, h + [e], |h|));
    assert all[|h|] == e;
    if e.reply.decision.Repair? {
      RetryListed(cfg, list, e);
    }
    forall j: nat | Offers(cfg, w, all, j)
      ensures Listed(next.plans, Repaired(all[j])) || Full(cfg, next)
    {
      if j < |h| {
        HeardStays(cfg, w, h, e, j);
        assert Listed(list.plans, Repaired(h[j])) || Full(cfg, list);
      }
    }
  }

  lemma OfferedNext(cfg: Config, w: World, h: seq<Exchange>, list: Worklist, e: Exchange, base: nat)
    requires AllOffered(cfg, w, h, list, base) && list.seenPlans == Prints(list.plans)
    requires |list.plans| <= cfg.maxRequests
    ensures AllOffered(cfg, w, h + [e], After(cfg, list, e, Heard(cfg, w, h + [e], |h|)), base)
  {
    var all, next := h + [e], After(cfg, list, e, Heard(cfg, w, h + [e], |h|));
    assert all[|h|] == e;
    if e.reply.decision.Repair? {
      RetryListed(cfg, list, e);
    }
    forall k | base <= k < |next.plans|
      ensures FromOffer(cfg, w, all, next.plans[k])
    {
      if k < |list.plans| {
        assert next.plans[k] == list.plans[k];
        OfferStays(cfg, w, h, e, list.plans[k]);
      } else {
        assert Offers(cfg, w, all, |h|) && RetryOf(all[|h|], next.plans[k]);
      }
    }
  }

  lemma TurnKeepsRepairing(cfg: Config, w: World, s: State, plan: PlannedProbe, base: nat)
    requires Knows(cfg, w, s) && Keyed(plan) && Repairing(cfg, w, s, base)
    ensures Repairing(cfg, w, Taken(cfg, w, s, plan).0, base)
  {
    TurnExactly(cfg, w, s, plan);
    var next := Taken(cfg, w, s, plan).0;
    if next.probes != s.probes {
      var e := Exchange(plan, w.server(|s.probes|));
      var heard := Heard(cfg, w, s.probes + [e], |s.probes|);
      LastHeard(cfg, w, s, e);
      assert next.probes == s.probes + [e] && next.list == After(cfg, s.list, e, heard);
      NotedNext(cfg, w, s.probes, s.list, e);
      ListedNext(cfg, w, s.probes, s.list, e);
      OfferedNext(cfg, w, s.probes, s.list, e, base);
      if e.reply.decision.Repair? {
        RetryListed(cfg, s.list, e);
      }
    }
  }

  lemma {:induction false} PhaseKeepsRepairing(cfg: Config, w: World, s: State, index: nat, base: nat)
    requires index <= |s.list.plans| <= cfg.maxRequests && Knows(cfg, w, s) && Repairing(cfg, w, s, base)
    ensures Repairing(cfg, w, ProbePhase(cfg, w, s, index).state, base)
    decreases cfg.maxRequests - index
  {
    if index < |s.list.plans| {
      var plan := s.list.plans[index];
      TurnKeepsRepairing(cfg, w, s, plan, base);
      TurnKeepsKnowing(cfg, w, s, plan);
      var (next, turn) := Taken(cfg, w, s, plan);
      if turn == Next {
        PhaseKeepsRepairing(cfg, w, next, index + 1, base);
      }
    }
  }

  /**
   Exactly the retries.  In the probe phase of every run the list starts with the planned probes.  For every reply that
   offers a repair, while the depth allows another and neither a rate limit nor a third failure stops it, the repaired
   request is on the list, unless the list is full; every further probe of the list is such a retry; and hints that
   lead nowhere are counted once for each probe they started from.
   */
  lemma RepairsExactly(cfg: Config, w: World, ops: seq<Operation>)
    requires cfg.Valid() && BuildFirst(cfg, w, ops, |ops|).Ok?
    ensures
      var planned, s := BuildFirst(cfg, w, ops, |ops|).value.plans, FirstPhase(cfg, w, ops).state;
      && planned <= s.list.plans
      && AllListed(cfg, w, s.probes, s.list)
      && AllOffered(cfg, w, s.probes, s.list, |planned|)
      && AllNoted(cfg, w, s.probes, s.list)
  {
    var start := Initial(BuildFirst(cfg, w, ops, |ops|).value);
    StartKnows(cfg, w, ops);
    PhaseKeepsRepairing(cfg, w, start, 0, |start.list.plans|);
    PhaseTold(cfg, w, start, 0);
  }
}
