/**
 The per-origin circuit breaker of request execution.

 A run goes through its plans in order: each is allowed or skipped, and the response to an allowed plan is
 observed.  What happens to an origin depends on nothing but that origin's own plans and responses.
 */
module TargetCircuit {
  import opened Text
  import opened Wrappers

  datatype Reason = RateLimited | TransportUnavailable

  /** `depleted` says that a rate-limit header leaves at most one request. */
  datatype Response = Response(status: int, depleted: bool, originFailure: bool, sent: bool)

  /** A plan, by its origin, with the response it gets if it is sent. */
  datatype Plan = Plan(origin: Option<string>, response: Response)

  const MAXIMUM_CONSECUTIVE_ERRORS := 3

  predicate Limits(r: Response) {
    r.status == 429 || r.depleted
  }

  predicate Fails(r: Response) {
    !Limits(r) && r.status == 0 && r.originFailure
  }

  predicate Recovers(r: Response) {
    !Limits(r) && !(r.status == 0 && r.originFailure) && r.status >= 100 && r.sent
  }

  // ----- One origin -----

  /** What the circuit knows about one origin. */
  datatype Memory = Memory(blocked: Option<Reason>, failures: nat, skipped: nat)

  const FORGOTTEN := Memory(None, 0, 0)

  function Observed(m: Memory, r: Response): Memory {
    if Limits(r) then m.(blocked := Some(RateLimited))
    else if Fails(r) then
      m.(failures := m.failures + 1,
         blocked := if m.failures + 1 >= MAXIMUM_CONSECUTIVE_ERRORS then Some(TransportUnavailable) else m.blocked)
    else if Recovers(r) then m.(failures := 0)
    else m
  }

  /** One turn: a blocked origin only counts what it skips. */
  function Turned(m: Memory, r: Response): Memory {
    if m.blocked.Some? then m.(skipped := m.skipped + 1) else Observed(m, r)
  }

  /** The memory of an origin after the responses that its own plans would get. */
  function Remembered(rs: seq<Response>): Memory {
    if rs == [] then FORGOTTEN else Turned(Remembered(rs[..|rs| - 1]), rs[|rs| - 1])
  }

  /** The responses to an origin's plans, in order. */
  function Own(plans: seq<Plan>, origin: string): seq<Response> {
    if plans == [] then []
    else
      var before, last := Own(plans[..|plans| - 1], origin), plans[|plans| - 1];
      if last.origin == Some(origin) then before + [last.response] else before
  }

  function MemoryOf(plans: seq<Plan>, origin: string): Memory {
    Remembered(Own(plans, origin))
  }

  /** The memory of `origin` after a plan had its turn. */
  function AfterTurn(m: Memory, plan: Plan, origin: string): Memory {
    if plan.origin == Some(origin) then Turned(m, plan.response) else m
  }

  /** Whether a plan is sent after the plans before it: a function of those of its own origin alone. */
  predicate SentAfter(before: seq<Plan>, plan: Plan) {
    plan.origin.Some? ==> MemoryOf(before, plan.origin.value).blocked.None?
  }

  /** Whether plan `i` of a run is sent. */
  predicate Sends(plans: seq<Plan>, i: nat)
    requires i < |plans|
  {
    SentAfter(plans[..i], plans[i])
  }

  // ----- The breaker in place -----

  class Circuit {
    var blocked: map<string, Reason>
    var transportFailures: map<string, nat>
    var skipped: map<string, nat>

    function Knows(origin: string): Memory
      reads this
    {
      Memory(
        if origin in blocked then Some(blocked[origin]) else None,
        if origin in transportFailures then transportFailures[origin] else 0,
        if origin in skipped then skipped[origin] else 0)
    }

    constructor ()
      ensures Remembers(this, []) && Reported(this)
      ensures Sum(skipped, skipped.Keys) == 0
    {
      blocked, transportFailures, skipped := map[], map[], map[];
    }

    method Allow(origin: Option<string>) returns (allowed: bool)
      modifies this`skipped
      ensures origin.None? ==> allowed && skipped == old(skipped)
      ensures origin.Some? ==> allowed == old(Knows(origin.value)).blocked.None?
      ensures forall o :: Knows(o) == if !allowed && origin == Some(o)
                                      then old(Knows(o)).(skipped := old(Knows(o)).skipped + 1) else old(Knows(o))
      ensures skipped == if allowed then old(skipped)
                         else old(skipped)[origin.value := old(Knows(origin.value)).skipped + 1]
    {
      if origin.None? {
        return true;
      }
      if origin.value !in blocked {
        return true;
      }
      skipped := skipped[origin.value := (if origin.value in skipped then skipped[origin.value] else 0) + 1];
      return false;
    }

    method Observe(origin: Option<string>, r: Response)
      modifies this`blocked, this`transportFailures
      ensures forall o :: Knows(o) == if origin == Some(o) then Observed(old(Knows(o)), r) else old(Knows(o))
      ensures old(blocked).Keys <= blocked.Keys
    {
      if origin.None? {
        return;
      }
      var o := origin.value;
      if r.status == 429 || r.depleted {
        blocked := blocked[o := RateLimited];
      } else if r.status == 0 && r.originFailure {
        transportFailures := transportFailures[o := (if o in transportFailures then transportFailures[o] else 0) + 1];
        if transportFailures[o] >= MAXIMUM_CONSECUTIVE_ERRORS {
          blocked := blocked[o := TransportUnavailable];
        }
      } else if r.status >= 100 && r.sent {
        transportFailures := transportFailures[o := 0];
      }
    }

    /** The blocked origins in order, each with its reason and what was skipped. */
    method CoverageGaps() returns (gaps: seq<Gap>)
      ensures Lists(gaps, blocked, skipped)
    {
      var origins := SortedTexts(blocked.Keys);
      gaps := [];
      for i := 0 to |origins|
        invariant |gaps| == i
        invariant forall k :: 0 <= k < i ==> gaps[k] == GapOf(origins[k], blocked, skipped)
      {
        assert origins[i] in origins;
        gaps := gaps + [Gap(origins[i], blocked[origins[i]], if origins[i] in skipped then skipped[origins[i]] else 0)];
      }
      forall o | o in blocked
        ensures exists i :: 0 <= i < |gaps| && gaps[i].origin == o
      {
        var i :| 0 <= i < |origins| && origins[i] == o;
        assert gaps[i].origin == o;
      }
    }
  }

  // ----- The report -----

  datatype Gap = Gap(origin: string, reason: Reason, skipped: nat)

  function GapOf(origin: string, blocked: map<string, Reason>, skipped: map<string, nat>): Gap
    requires origin in blocked
  {
    Gap(origin, blocked[origin], if origin in skipped then skipped[origin] else 0)
  }

  /** One gap for each blocked origin, in the order of the origins. */
  ghost predicate Lists(gaps: seq<Gap>, blocked: map<string, Reason>, skipped: map<string, nat>) {
    && (forall i, j :: 0 <= i < j < |gaps| ==> TextLess(gaps[i].origin, gaps[j].origin))
    && (forall i :: 0 <= i < |gaps| ==> gaps[i].origin in blocked && gaps[i] == GapOf(gaps[i].origin, blocked, skipped))
    && (forall o :: o in blocked ==> exists i :: 0 <= i < |gaps| && gaps[i].origin == o)
  }

  /** What the gaps report as skipped, all together. */
  function SkippedIn(gaps: seq<Gap>): nat {
    if gaps == [] then 0 else SkippedIn(gaps[..|gaps| - 1]) + gaps[|gaps| - 1].skipped
  }

  ghost function Sum(m: map<string, nat>, keys: set<string>): nat
    requires keys <= m.Keys
  {
    if keys == {} then 0
    else
      var key :| key in keys;
      m[key] + Sum(m, keys - {key})
  }

  lemma {:induction false} SumAnyOrder(m: map<string, nat>, keys: set<string>, key: string)
    requires keys <= m.Keys && key in keys
    ensures Sum(m, keys) == m[key] + Sum(m, keys - {key})
    decreases |keys|
  {
    var first :| first in keys && Sum(m, keys) == m[first] + Sum(m, keys - {first});
    if first != key {
      SumAnyOrder(m, keys - {first}, key);
      SumAnyOrder(m, keys - {key}, first);
      assert keys - {first} - {key} == keys - {key} - {first};
    }
  }

  lemma {:induction false} SumSame(m: map<string, nat>, n: map<string, nat>, keys: set<string>)
    requires keys <= m.Keys && keys <= n.Keys && forall key :: key in keys ==> m[key] == n[key]
    ensures Sum(m, keys) == Sum(n, keys)
    decreases |keys|
  {
    if keys != {} {
      var key :| key in keys;
      SumAnyOrder(m, keys, key);
      SumAnyOrder(n, keys, key);
      SumSame(m, n, keys - {key});
    }
  }

  lemma SumOfIncrement(m: map<string, nat>, key: string)
    ensures
      var n := m[key := (if key in m then m[key] else 0) + 1];
      Sum(n, n.Keys) == Sum(m, m.Keys) + 1
  {
    var n := m[key := (if key in m then m[key] else 0) + 1];
    SumAnyOrder(n, n.Keys, key);
    if key in m {
      SumAnyOrder(m, m.Keys, key);
      assert n.Keys - {key} == m.Keys - {key};
    } else {
      assert n.Keys - {key} == m.Keys;
    }
    SumSame(m, n, n.Keys - {key});
  }

  /** The origins of the first gaps that have something to report. */
  ghost function Covered(gaps: seq<Gap>, skipped: map<string, nat>): set<string> {
    set i | 0 <= i < |gaps| && gaps[i].origin in skipped :: gaps[i].origin
  }

  lemma {:induction false} GapsAddUpTo(gaps: seq<Gap>, skipped: map<string, nat>)
    requires forall i, j :: 0 <= i < j < |gaps| ==> gaps[i].origin != gaps[j].origin
    requires forall i :: 0 <= i < |gaps| ==>
               gaps[i].skipped == if gaps[i].origin in skipped then skipped[gaps[i].origin] else 0
    ensures SkippedIn(gaps) == Sum(skipped, Covered(gaps, skipped))
  {
    if gaps != [] {
      var front, last := gaps[..|gaps| - 1], gaps[|gaps| - 1];
      GapsAddUpTo(front, skipped);
      var before, all := Covered(front, skipped), Covered(gaps, skipped);
      CoveredNext(gaps, skipped);
      if last.origin in skipped {
        assert last.origin !in before;
        SumAnyOrder(skipped, all, last.origin);
        assert all - {last.origin} == before;
      } else {
        assert all == before;
      }
    }
  }

  lemma CoveredNext(gaps: seq<Gap>, skipped: map<string, nat>)
    requires gaps != []
    ensures
      var last := gaps[|gaps| - 1];
      Covered(gaps, skipped)
      == Covered(gaps[..|gaps| - 1], skipped) + (if last.origin in skipped then {last.origin} else {})
  {
    var front := gaps[..|gaps| - 1];
    forall o | o in Covered(front, skipped)
      ensures o in Covered(gaps, skipped)
    {
      var i :| 0 <= i < |front| && front[i].origin == o && o in skipped;
      assert gaps[i].origin == o;
    }
    forall o | o in Covered(gaps, skipped)
      ensures o in Covered(front, skipped) || o == gaps[|gaps| - 1].origin
    {
      var i :| 0 <= i < |gaps| && gaps[i].origin == o && o in skipped;
      if i < |front| {
        assert front[i].origin == o;
      }
    }
  }

  /** The skipped plans that the gaps list are all that were skipped. */
  lemma GapsAddUp(gaps: seq<Gap>, blocked: map<string, Reason>, skipped: map<string, nat>)
    requires Lists(gaps, blocked, skipped) && skipped.Keys <= blocked.Keys
    ensures SkippedIn(gaps) == Sum(skipped, skipped.Keys)
  {
    forall i, j | 0 <= i < j < |gaps|
      ensures gaps[i].origin != gaps[j].origin
    {
      TextLessIrreflexive(gaps[i].origin);
    }
    GapsAddUpTo(gaps, skipped);
    forall o | o in skipped
      ensures o in Covered(gaps, skipped)
    {
      var i :| 0 <= i < |gaps| && gaps[i].origin == o;
    }
    assert Covered(gaps, skipped) == skipped.Keys;
  }

  /** How many of the plans were sent. */
  function SentCount(sent: seq<bool>): nat {
    if sent == [] then 0 else SentCount(sent[..|sent| - 1]) + (if sent[|sent| - 1] then 1 else 0)
  }

  /** Everything skipped is reported: only blocked origins have anything to report. */
  ghost predicate Reported(c: Circuit)
    reads c
  {
    c.skipped.Keys <= c.blocked.Keys
  }

  /** Asks the circuit about one plan, and lets it observe the response if the plan is sent.  A request that
      fails outright is not observed; it ends the run. */
  method TakeTurn(c: Circuit, plan: Plan, fails: bool) returns (allowed: bool, aborted: bool)
    requires Reported(c)
    modifies c
    ensures plan.origin.None? ==> allowed
    ensures plan.origin.Some? ==> allowed == old(c.Knows(plan.origin.value)).blocked.None?
    ensures aborted == (allowed && fails)
    ensures forall o :: c.Knows(o) == if aborted then old(c.Knows(o)) else AfterTurn(old(c.Knows(o)), plan, o)
    ensures Reported(c)
    ensures Sum(c.skipped, c.skipped.Keys) == old(Sum(c.skipped, c.skipped.Keys)) + if allowed then 0 else 1
  {
    ghost var skipped := c.skipped;
    allowed := c.Allow(plan.origin);
    if !allowed {
      SumOfIncrement(skipped, plan.origin.value);
      return allowed, false;
    }
    if fails {
      return allowed, true;
    }
    c.Observe(plan.origin, plan.response);
    return allowed, false;
  }

  /** The circuit remembers exactly what the plans that had their turn so far make it remember. */
  ghost predicate Remembers(c: Circuit, before: seq<Plan>)
    reads c
  {
    forall origin :: c.Knows(origin) == MemoryOf(before, origin)
  }

  lemma MemoryNext(before: seq<Plan>, plan: Plan, origin: string)
    ensures MemoryOf(before + [plan], origin) == AfterTurn(MemoryOf(before, origin), plan, origin)
  {
    assert (before + [plan])[..|before|] == before;
    var own := Own(before, origin);
    assert (own + [plan.response])[..|own|] == own;
  }

  /** The verdict on one plan of the history. */
  ghost predicate VerdictAt(history: seq<Plan>, i: int, sent: bool) {
    0 <= i < |history| && sent == Sends(history, i)
  }

  /** The last verdicts of the history are these. */
  ghost predicate VerdictsOf(history: seq<Plan>, sent: seq<bool>) {
    && |sent| <= |history|
    && forall i :: 0 <= i < |sent| ==> VerdictAt(history, |history| - |sent| + i, sent[i])
  }

  lemma VerdictStays(history: seq<Plan>, plan: Plan, i: int, sent: bool)
    requires VerdictAt(history, i, sent)
    ensures VerdictAt(history + [plan], i, sent)
  {
    assert (history + [plan])[..i] == history[..i];
  }

  lemma OneMoreVerdict(history: seq<Plan>, sent: seq<bool>, plan: Plan)
    requires VerdictsOf(history, sent)
    ensures VerdictsOf(history + [plan], sent + [SentAfter(history, plan)])
  {
    var longer, verdicts := history + [plan], sent + [SentAfter(history, plan)];
    assert longer[..|history|] == history;
    forall i | 0 <= i < |verdicts|
      ensures VerdictAt(longer, |longer| - |verdicts| + i, verdicts[i])
    {
      if i < |sent| {
        VerdictStays(history, plan, |history| - |sent| + i, sent[i]);
      }
    }
  }

  lemma SentCountNext(sent: seq<bool>, allowed: bool)
    ensures SentCount(sent + [allowed]) == SentCount(sent) + (if allowed then 1 else 0)
  {
    assert (sent + [allowed])[..|sent|] == sent;
  }

  /**
   The circuit remembers the plans of the history, of which the last ones had these verdicts; and of those, the ones
   that were not sent are what was skipped on top of `skippedBefore`.
   */
  ghost predicate Accounts(c: Circuit, history: seq<Plan>, sent: seq<bool>, skippedBefore: nat)
    reads c
  {
    && Remembers(c, history) && Reported(c)
    && VerdictsOf(history, sent)
    && SentCount(sent) + Sum(c.skipped, c.skipped.Keys) == |sent| + skippedBefore
  }

  /** One plan's turn. */
  method NextTurn(c: Circuit, plan: Plan, fails: bool, ghost history: seq<Plan>, ghost sent: seq<bool>,
                  ghost skippedBefore: nat)
    returns (allowed: bool, aborted: bool)
    requires Accounts(c, history, sent, skippedBefore)
    modifies c
    ensures allowed == SentAfter(history, plan) && aborted == (allowed && fails)
    ensures aborted ==> Accounts(c, history, sent, skippedBefore)
    ensures !aborted ==> Accounts(c, history + [plan], sent + [allowed], skippedBefore)
  {
    forall origin: string
      ensures MemoryOf(history + [plan], origin) == AfterTurn(MemoryOf(history, origin), plan, origin)
    {
      MemoryNext(history, plan, origin);
    }
    OneMoreVerdict(history, sent, plan);
    SentCountNext(sent, SentAfter(history, plan));
    allowed, aborted := TakeTurn(c, plan, fails);
  }

  /**
   Runs the plans in order, until the context is canceled or a request fails, on a circuit that comes from whatever
   plans had their turn before.  Which plans are sent is as the pure functions say of the whole history, each origin
   is remembered as its own responses make it, and what was sent and what was skipped on top add up to the plans that
   had their turn: to all of them in a completed run.
   */
  method ExecutePlans(plans: seq<Plan>, c: Circuit, canceled: int -> bool, fails: int -> bool,
                      ghost before: seq<Plan>)
    returns (sent: seq<bool>, completed: bool)
    requires Remembers(c, before) && Reported(c)
    modifies c
    ensures |sent| <= |plans| && (completed <==> |sent| == |plans|)
    ensures !completed ==>
              canceled(|sent|) || (fails(|sent|) && SentAfter(before + plans[..|sent|], plans[|sent|]))
    ensures Accounts(c, before + plans[..|sent|], sent, old(Sum(c.skipped, c.skipped.Keys)))
  {
    sent := [];
    ghost var skippedBefore := Sum(c.skipped, c.skipped.Keys);
    assert before + plans[..0] == before;
    for i := 0 to |plans|
      invariant |sent| == i && Accounts(c, before + plans[..i], sent, skippedBefore)
    {
      if canceled(i) {
        return sent, false;
      }
      assert before + plans[..i] + [plans[i]] == before + plans[..i + 1];
      var allowed, aborted := NextTurn(c, plans[i], fails(i), before + plans[..i], sent, skippedBefore);
      if aborted {
        return sent, false;
      }
      sent := sent + [allowed];
    }
    return sent, true;
  }

  // ----- A batch of specifications on one circuit -----

  /**
   A specification: fetched from a URL, with the response to that, or read from elsewhere; whether the client can be
   set up and the specification loaded; and its plans.
   */
  datatype Source = Source(fetch: Option<Plan>, connects: bool, loads: bool, plans: seq<Plan>)

  /** The turns that a specification stands for: its own, if it is fetched, and those of its plans. */
  function TurnsOf(source: Source): seq<Plan> {
    (if source.fetch.Some? then [source.fetch.value] else []) + source.plans
  }

  /** The circuit refuses the specification itself, and its plans get no turn. */
  predicate Refused(history: seq<Plan>, source: Source, turns: seq<Plan>) {
    source.fetch.Some? && !SentAfter(history, source.fetch.value) && turns == [source.fetch.value]
  }

  /** Asks the circuit for the specification itself; says whether its plans are up. */
  method FetchSource(source: Source, c: Circuit, ghost history: seq<Plan>, sentBefore: seq<bool>)
    returns (ghost turns: seq<Plan>, sent: seq<bool>, refused: bool, failed: bool)
    requires Accounts(c, history, sentBefore, 0)
    modifies c
    ensures Accounts(c, history + turns, sent, 0) && |sent| == |sentBefore| + |turns|
    ensures turns <= TurnsOf(source)
    ensures !refused && !failed ==> turns + source.plans == TurnsOf(source)
    ensures refused ==> Refused(history, source, turns)
    ensures failed ==> !source.connects || !source.loads
  {
    turns, sent := [], sentBefore;
    assert history + [] == history;
    if source.fetch.Some? {
      var allowed, aborted := NextTurn(c, source.fetch.value, !source.connects, history, sent, 0);
      if aborted {
        return turns, sent, false, true;
      }
      turns, sent := [source.fetch.value], sent + [allowed];
      if !allowed {
        return turns, sent, true, false;
      }
    } else if !source.connects {
      return turns, sent, false, true;
    }
    return turns, sent, false, !source.loads;
  }

  /** The plans of a specification, after all the turns before them. */
  method ContinueWith(plans: seq<Plan>, c: Circuit, canceled: int -> bool, fails: int -> bool,
                      ghost history: seq<Plan>, sentBefore: seq<bool>)
    returns (sent: seq<bool>, done: nat)
    requires Accounts(c, history, sentBefore, 0)
    modifies c
    ensures done <= |plans| && |sent| == |sentBefore| + done
    ensures Accounts(c, history + plans[..done], sent, 0)
    ensures done < |plans| ==> canceled(done) || (fails(done) && SentAfter(history + plans[..done], plans[done]))
  {
    var verdicts, completed := ExecutePlans(plans, c, canceled, fails, history);
    VerdictsTogether(history, sentBefore, plans[..|verdicts|], verdicts);
    SentCountTogether(sentBefore, verdicts);
    return sentBefore + verdicts, |verdicts|;
  }

  /** Why a specification stops short: it cannot be had, or the run was canceled or a request failed at its plan. */
  ghost predicate StopsShort(source: Source, k: int, turns: seq<Plan>, canceled: (int, int) -> bool,
                             fails: (int, int) -> bool) {
    || !source.connects || !source.loads
    || exists i :: 0 <= i < |source.plans| && turns + source.plans[i..] == TurnsOf(source)
                   && (canceled(k, i) || fails(k, i))
  }

  lemma PartOfTurns(history: seq<Plan>, fetched: seq<Plan>, plans: seq<Plan>, done: nat)
    requires done <= |plans|
    ensures history + (fetched + plans[..done]) == history + fetched + plans[..done]
    ensures fetched + plans[..done] <= fetched + plans
    ensures fetched + plans[..done] + plans[done..] == fetched + plans
  {
  }

  /** A specification and then its plans, unless the circuit refuses it or it cannot be had. */
  method ExecuteSource(source: Source, k: int, c: Circuit, canceled: (int, int) -> bool, fails: (int, int) -> bool,
                       ghost history: seq<Plan>, sentBefore: seq<bool>)
    returns (ghost turns: seq<Plan>, sent: seq<bool>, failed: bool)
    requires Accounts(c, history, sentBefore, 0)
    modifies c
    ensures Accounts(c, history + turns, sent, 0) && |sent| == |sentBefore| + |turns|
    ensures turns <= TurnsOf(source)
    ensures !failed ==> turns == TurnsOf(source) || Refused(history, source, turns)
    ensures failed ==> StopsShort(source, k, turns, canceled, fails)
  {
    var refused;
    turns, sent, refused, failed := FetchSource(source, c, history, sentBefore);
    if refused || failed {
      return;
    }
    ghost var fetched := turns;
    var done;
    sent, done := ContinueWith(source.plans, c, i => canceled(k, i), i => fails(k, i), history + fetched, sent);
    PartOfTurns(history, fetched, source.plans, done);
    turns := fetched + source.plans[..done];
    failed := done < |source.plans|;
  }

  lemma {:induction false} SentCountTogether(sent: seq<bool>, more: seq<bool>)
    ensures SentCount(sent + more) == SentCount(sent) + SentCount(more)
  {
    if more == [] {
      assert sent + more == sent;
    } else {
      assert (sent + more)[..|sent + more| - 1] == sent + more[..|more| - 1];
      SentCountTogether(sent, more[..|more| - 1]);
    }
  }

  lemma VerdictsTogether(earlier: seq<Plan>, sent: seq<bool>, plans: seq<Plan>, verdicts: seq<bool>)
    requires VerdictsOf(earlier, sent) && VerdictsOf(earlier + plans, verdicts) && |verdicts| == |plans|
    ensures VerdictsOf(earlier + plans, sent + verdicts)
  {
    var all, both := earlier + plans, sent + verdicts;
    forall i | 0 <= i < |both|
      ensures VerdictAt(all, |all| - |both| + i, both[i])
    {
      if i < |sent| {
        assert VerdictAt(earlier, |earlier| - |sent| + i, sent[i]);
        assert all[..|earlier| - |sent| + i] == earlier[..|earlier| - |sent| + i];
      } else {
        assert VerdictAt(all, |all| - |verdicts| + (i - |sent|), verdicts[i - |sent|]);
      }
    }
  }

  /** The gaps report, for each origin, what the history of the whole run makes of it. */
  ghost predicate Reports(gaps: seq<Gap>, history: seq<Plan>) {
    && (forall i, j :: 0 <= i < j < |gaps| ==> TextLess(gaps[i].origin, gaps[j].origin))
    && (forall i :: 0 <= i < |gaps| ==> IsGapOf(gaps[i], MemoryOf(history, gaps[i].origin)))
    && (forall o :: MemoryOf(history, o).blocked.Some? ==> exists i :: 0 <= i < |gaps| && gaps[i].origin == o)
  }

  predicate IsGapOf(gap: Gap, memory: Memory) {
    memory.blocked == Some(gap.reason) && memory.skipped == gap.skipped
  }

  lemma GapsReport(c: Circuit, gaps: seq<Gap>, history: seq<Plan>)
    requires Remembers(c, history) && Lists(gaps, c.blocked, c.skipped)
    ensures Reports(gaps, history)
  {
    forall i | 0 <= i < |gaps|
      ensures IsGapOf(gaps[i], MemoryOf(history, gaps[i].origin))
    {
      assert c.Knows(gaps[i].origin) == MemoryOf(history, gaps[i].origin);
    }
    forall o | MemoryOf(history, o).blocked.Some?
      ensures exists i :: 0 <= i < |gaps| && gaps[i].origin == o
    {
      assert c.Knows(o) == MemoryOf(history, o);
      assert o in c.blocked;
    }
  }

  /**
   These are the turns of the specifications one after the other: each has all of them, or is refused by the circuit
   as it stands, or, if there are several, stops short.
   */
  ghost predicate TurnsInOrder(sources: seq<Source>, batch: bool, canceled: (int, int) -> bool,
                               fails: (int, int) -> bool, history: seq<Plan>)
  {
    if sources == [] then history == []
    else
      exists n :: 0 <= n <= |history|
        && TurnsInOrder(sources[..|sources| - 1], batch, canceled, fails, history[..n])
        && HadTurns(sources, batch, canceled, fails, history, n)
  }

  /** What the last specification added to the history from `n` on. */
  ghost predicate HadTurns(sources: seq<Source>, batch: bool, canceled: (int, int) -> bool,
                           fails: (int, int) -> bool, history: seq<Plan>, n: nat)
    requires sources != [] && n <= |history|
  {
    var source, turns := sources[|sources| - 1], history[n..];
    && turns <= TurnsOf(source)
    && (|| turns == TurnsOf(source)
        || Refused(history[..n], source, turns)
        || (batch && StopsShort(source, |sources| - 1, turns, canceled, fails)))
  }

  lemma TurnsNext(sources: seq<Source>, k: nat, batch: bool, canceled: (int, int) -> bool, fails: (int, int) -> bool,
                  history: seq<Plan>, turns: seq<Plan>)
    requires k < |sources| && TurnsInOrder(sources[..k], batch, canceled, fails, history)
    requires turns <= TurnsOf(sources[k])
    requires turns == TurnsOf(sources[k]) || Refused(history, sources[k], turns)
             || (batch && StopsShort(sources[k], k, turns, canceled, fails))
    ensures TurnsInOrder(sources[..k + 1], batch, canceled, fails, history + turns)
  {
    var all := history + turns;
    assert sources[..k + 1][..k] == sources[..k];
    assert all[..|history|] == history && all[|history|..] == turns;
    assert HadTurns(sources[..k + 1], batch, canceled, fails, all, |history|);
  }

  /**
   All specifications of a batch on one circuit, and the report at the end.  A failing specification ends the run
   unless there are several.  Every plan of the batch gets the verdict that the whole history gives it, the gaps say
   what became of each blocked origin, and what was sent and what the gaps report as skipped add up to all plans that
   had their turn.
   */
  method ExecuteSources(sources: seq<Source>, batch: bool, canceled: (int, int) -> bool, fails: (int, int) -> bool,
                        gone: int -> bool)
    returns (gaps: Option<seq<Gap>>, ghost history: seq<Plan>, sent: seq<bool>)
    ensures |sent| == |history| && VerdictsOf(history, sent)
    ensures gaps.Some? ==> TurnsInOrder(sources, batch, canceled, fails, history)
    ensures gaps.Some? ==> Reports(gaps.value, history)
    ensures gaps.Some? ==> SentCount(sent) + SkippedIn(gaps.value) == |history|
  {
    var c := new Circuit();
    history, sent, gaps := [], [], None;
    for k := 0 to |sources|
      invariant fresh(c) && Accounts(c, history, sent, 0) && |sent| == |history|
      invariant TurnsInOrder(sources[..k], batch, canceled, fails, history)
    {
      if gone(2 * k) {
        return;
      }
      ghost var turns;
      var failed;
      ghost var before := history;
      turns, sent, failed := ExecuteSource(sources[k], k, c, canceled, fails, history, sent);
      history := history + turns;
      if failed && (gone(2 * k + 1) || !batch) {
        return;
      }
      TurnsNext(sources, k, batch, canceled, fails, before, turns);
    }
    assert sources[..|sources|] == sources;
    var report := c.CoverageGaps();
    GapsReport(c, report, history);
    GapsAddUp(report, c.blocked, c.skipped);
    gaps := Some(report);
  }

  // ----- Verdicts depend on the origin's own history -----

  /** The plans of one origin. */
  function Only(plans: seq<Plan>, origin: string): seq<Plan> {
    if plans == [] then []
    else
      var before, last := Only(plans[..|plans| - 1], origin), plans[|plans| - 1];
      if last.origin == Some(origin) then before + [last] else before
  }

  lemma {:induction false} OwnOfOnly(plans: seq<Plan>, origin: string)
    ensures Own(Only(plans, origin), origin) == Own(plans, origin)
  {
    if plans != [] {
      var before, last := plans[..|plans| - 1], plans[|plans| - 1];
      OwnOfOnly(before, origin);
      assert (Only(before, origin) + [last])[..|Only(before, origin)|] == Only(before, origin);
    }
  }

  lemma {:induction false} OnlyOfPrefix(plans: seq<Plan>, origin: string, i: nat)
    requires i < |plans| && plans[i].origin == Some(origin)
    ensures |Only(plans[..i], origin)| < |Only(plans, origin)|
    ensures Only(plans, origin)[|Only(plans[..i], origin)|] == plans[i]
    ensures Only(plans, origin)[..|Only(plans[..i], origin)|] == Only(plans[..i], origin)
  {
    var before := plans[..|plans| - 1];
    if i < |plans| - 1 {
      OnlyOfPrefix(before, origin, i);
      assert before[..i] == plans[..i];
    }
  }

  /**
   Isolation.  Take any run and leave out every plan of every other origin: the plans of this origin are sent
   or skipped exactly as before.
   */
  lemma VerdictIsOwn(plans: seq<Plan>, origin: string, i: nat)
    requires i < |plans| && plans[i].origin == Some(origin)
    ensures
      var alone := Only(plans, origin);
      var k := |Only(plans[..i], origin)|;
      k < |alone| && alone[k] == plans[i] && Sends(alone, k) == Sends(plans, i)
  {
    OnlyOfPrefix(plans, origin, i);
    OwnOfOnly(plans[..i], origin);
  }

  // ----- When exactly an origin is blocked -----

  /** Blocking is permanent. */
  lemma {:induction false} BlockedForGood(rs: seq<Response>, n: nat)
    requires n <= |rs| && Remembered(rs[..n]).blocked.Some?
    ensures Remembered(rs).blocked.Some?
  {
    if n < |rs| {
      assert rs[..|rs| - 1][..n] == rs[..n];
      BlockedForGood(rs[..|rs| - 1], n);
    } else {
      assert rs[..n] == rs;
    }
  }

  /** Three target failures, with no sent response between the first and the last. */
  ghost predicate ThreeFailures(rs: seq<Response>, i: int, j: int, k: int) {
    && 0 <= i < j < k < |rs|
    && Fails(rs[i]) && Fails(rs[j]) && Fails(rs[k])
    && forall m :: i < m < k ==> !Recovers(rs[m])
  }

  /** Failures since the last recovery. */
  function Streak(rs: seq<Response>): nat {
    if rs == [] then 0
    else if Fails(rs[|rs| - 1]) then Streak(rs[..|rs| - 1]) + 1
    else if Recovers(rs[|rs| - 1]) then 0
    else Streak(rs[..|rs| - 1])
  }

  lemma {:induction false} OpenMeansStreak(rs: seq<Response>)
    requires Remembered(rs).blocked.None?
    ensures Remembered(rs).failures == Streak(rs) < MAXIMUM_CONSECUTIVE_ERRORS
    ensures Remembered(rs).skipped == 0
  {
    if rs != [] {
      OpenMeansStreak(rs[..|rs| - 1]);
    }
  }

  lemma {:induction false} LastFailure(rs: seq<Response>) returns (k: nat)
    requires Streak(rs) > 0
    ensures k < |rs| && Fails(rs[k]) && Streak(rs[..k]) + 1 == Streak(rs)
    ensures forall m :: k < m < |rs| ==> !Recovers(rs[m])
  {
    if Fails(rs[|rs| - 1]) {
      k := |rs| - 1;
    } else {
      k := LastFailure(rs[..|rs| - 1]);
      assert rs[..|rs| - 1][..k] == rs[..k];
    }
  }

  lemma {:induction false} StreakGrows(rs: seq<Response>, m: nat)
    requires m < |rs| && Fails(rs[m]) && forall n :: m < n < |rs| ==> !Recovers(rs[n])
    ensures Streak(rs) >= Streak(rs[..m]) + 1
  {
    if m < |rs| - 1 {
      StreakGrows(rs[..|rs| - 1], m);
      assert rs[..|rs| - 1][..m] == rs[..m];
    }
  }

  lemma FailuresMakeStreak(rs: seq<Response>, i: nat, j: nat, k: nat)
    requires ThreeFailures(rs, i, j, k)
    ensures Streak(rs[..k + 1]) >= MAXIMUM_CONSECUTIVE_ERRORS
  {
    var upTo := rs[..k + 1];
    StreakGrows(upTo, k);
    assert upTo[..k] == rs[..k];
    assert !Recovers(rs[j]);
    StreakGrows(rs[..k], j);
    assert rs[..k][..j] == rs[..j];
    StreakGrows(rs[..j], i);
  }

  /** The stored reason is one that the origin's own responses give. */
  ghost predicate HasReason(rs: seq<Response>, reason: Reason) {
    match reason
    case RateLimited => exists i :: 0 <= i < |rs| && Limits(rs[i])
    case TransportUnavailable => exists i, j, k :: ThreeFailures(rs, i, j, k)
  }

  lemma {:induction false} BlockedHasCause(rs: seq<Response>)
    requires Remembered(rs).blocked.Some?
    ensures HasReason(rs, Remembered(rs).blocked.value)
  {
    var before := rs[..|rs| - 1];
    if Remembered(before).blocked.Some? {
      BlockedHasCause(before);
      match Remembered(before).blocked.value {
        case RateLimited =>
          var i :| 0 <= i < |before| && Limits(before[i]);
          assert Limits(rs[i]);
        case TransportUnavailable =>
          var i, j, k :| ThreeFailures(before, i, j, k);
          assert ThreeFailures(rs, i, j, k);
      }
    } else if Limits(rs[|rs| - 1]) {
    } else {
      OpenMeansStreak(before);
      var k := LastFailure(rs);
      var j := LastFailure(rs[..k]);
      assert rs[..k][..j] == rs[..j];
      var i := LastFailure(rs[..j]);
      forall m | i < m < k
        ensures !Recovers(rs[m])
      {
        assert m < j ==> rs[..j][m] == rs[m];
        assert rs[..k][m] == rs[m];
      }
      assert ThreeFailures(rs, i, j, k);
    }
  }

  /**
   An origin is blocked exactly when its own responses hold a rate-limit signal or three target failures
   with no sent response between them.
   */
  lemma {:induction false} BlockedExactlyWhen(rs: seq<Response>)
    ensures Remembered(rs).blocked.Some? <==>
      (exists i :: 0 <= i < |rs| && Limits(rs[i])) || (exists i, j, k :: ThreeFailures(rs, i, j, k))
  {
    if Remembered(rs).blocked.Some? {
      BlockedHasCause(rs);
    }
    if exists i :: 0 <= i < |rs| && Limits(rs[i]) {
      var i :| 0 <= i < |rs| && Limits(rs[i]);
      assert rs[..i + 1][..i] == rs[..i];
      BlockedForGood(rs, i + 1);
    }
    if exists i, j, k :: ThreeFailures(rs, i, j, k) {
      var i, j, k :| ThreeFailures(rs, i, j, k);
      FailuresMakeStreak(rs, i, j, k);
      if Remembered(rs[..k + 1]).blocked.None? {
        OpenMeansStreak(rs[..k + 1]);
        assert false;
      }
      BlockedForGood(rs, k + 1);
    }
  }
}
