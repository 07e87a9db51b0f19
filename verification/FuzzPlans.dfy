/**
 What is planned: every case of an operation for every identity, each as a probe that carries the case's own request.
 */
module FuzzPlans {
  import opened Text
  import opened FuzzModel
  import opened FuzzPlanner

  /** The request of case `c`: the operation's own first, then those of its mutations. */
  predicate HasRequest(op: Operation, mutations: seq<Mutation>, c: nat, p: PlannedProbe)
    requires c <= |mutations|
  {
    if c == 0 then p.targetURL == op.url && p.body == op.requestBody && p.category == "baseline"
    else
      && p.targetURL == mutations[c - 1].url && p.body == mutations[c - 1].body
      && p.category == mutations[c - 1].category
  }

  /**
   The probe sends the case's request with the operation's verb as the identity. Object-identifier cases need a
   baseline of the same verb, operation and identity; the baseline is looked at for that when there are such cases.
   */
  predicate IsPlanOf(op: Operation, mutations: seq<Mutation>, c: nat, identity: string, p: PlannedProbe)
    requires c <= |mutations|
  {
    && HasRequest(op, mutations, c, p)
    && p.verb == ToUpper(op.verb) && p.contentType == op.contentType && p.identity == identity
    && p.guidedDepth == 0 && !p.guidedFromFailure && p.guidedRoot == p.Print()
    && p.baselineURL == op.url && p.baselineKey == BaselineKey(ToUpper(op.verb), op.url, identity)
    && (p.requiresBaseline <==> p.category == "idor" || p.category == "idor_range")
    && (p.qualifiesBaseline <==>
          p.category == "baseline"
          && exists m :: 0 <= m < |mutations| && IDORCategory(mutations[m].category))
  }

  lemma {:induction false} RowsAt(op: Operation, cases: seq<Mutation>, ids: seq<string>, hasIDOR: bool, n: nat, c: nat,
                                  i: nat)
    requires c < n <= |cases| && i < |ids|
    ensures c * |ids| + i < |Rows(op, cases, ids, hasIDOR, n)|
    ensures Rows(op, cases, ids, hasIDOR, n)[c * |ids| + i] == MakePlan(op, cases[c], ids[i], hasIDOR)
  {
    if c < n - 1 {
      RowsAt(op, cases, ids, hasIDOR, n - 1, c, i);
    }
  }

  /** The plans of an operation are exactly its cases, each for every identity in order. */
  lemma PlansAreTheProduct(op: Operation, mutations: seq<Mutation>, ids: seq<string>, c: nat, i: nat)
    requires c <= |mutations| && i < |ids|
    ensures
      var plans := OperationPlans(op, mutations, ids);
      && |plans| == (1 + |mutations|) * |ids| && c * |ids| + i < |plans|
      && IsPlanOf(op, mutations, c, ids[i], plans[c * |ids| + i])
  {
    var cases := [Baseline(op)] + mutations;
    RowsAt(op, cases, ids, HasIDOR(mutations), |cases|, c, i);
    assert c > 0 ==> cases[c] == mutations[c - 1];
  }

  lemma {:induction false} PlansStartWith(cfg: Config, w: World, ops: seq<Operation>, m: nat, n: nat)
    requires m <= n <= |ops| && Plannable(cfg, w, ops, n)
    ensures AllPlans(cfg, w, ops, m) <= AllPlans(cfg, w, ops, n)
  {
    if m < n {
      PlansStartWith(cfg, w, ops, m, n - 1);
    }
  }

  lemma PlaceOf(op: Operation, mutations: seq<Mutation>, ids: seq<string>, c: nat, i: nat) returns (at: nat)
    requires c <= |mutations| && i < |ids|
    ensures at < |OperationPlans(op, mutations, ids)|
    ensures IsPlanOf(op, mutations, c, ids[i], OperationPlans(op, mutations, ids)[at])
  {
    PlansAreTheProduct(op, mutations, ids, c, i);
    at := c * |ids| + i;
  }

  /** Every case of every operation that may be sent is planned for every identity. */
  lemma EveryCaseIsPlanned(cfg: Config, w: World, ops: seq<Operation>, k: nat, c: nat, i: nat) returns (v: nat)
    requires Plannable(cfg, w, ops, |ops|) && k < |ops| && !cfg.Refuses(ops[k].verb)
    requires c <= |Generated(w, ops[k]).value| && i < |cfg.identities|
    ensures
      var plans := AllPlans(cfg, w, ops, |ops|);
      v < |plans| && IsPlanOf(ops[k], Generated(w, ops[k]).value, c, cfg.identities[i], plans[v])
  {
    var at := PlaceOf(ops[k], Generated(w, ops[k]).value, cfg.identities, c, i);
    PlansStartWith(cfg, w, ops, k + 1, |ops|);
    v := |AllPlans(cfg, w, ops, k)| + at;
    assert AllPlans(cfg, w, ops, k + 1)[v] == OperationPlans(ops[k], Generated(w, ops[k]).value, cfg.identities)[at];
  }

  lemma Divided(v: nat, width: nat, rows: nat) returns (c: nat, i: nat)
    requires v < rows * width
    ensures c < rows && i < width && c * width + i == v
  {
    c, i := 0, v;
    while i >= width
      invariant c < rows && c * width + i == v
      decreases i
    {
      c, i := c + 1, i - width;
      if c >= rows {
        Widest(c, rows, width);
      }
    }
  }

  lemma Widest(c: nat, rows: nat, width: nat)
    requires c >= rows
    ensures c * width >= rows * width
  {
  }

  /** And nothing else is planned. */
  lemma {:induction false} EveryPlanIsCase(cfg: Config, w: World, ops: seq<Operation>, n: nat, v: nat)
    returns (k: nat, c: nat, i: nat)
    requires n <= |ops| && Plannable(cfg, w, ops, n) && v < |AllPlans(cfg, w, ops, n)|
    ensures k < n && !cfg.Refuses(ops[k].verb) && c <= |Generated(w, ops[k]).value| && i < |cfg.identities|
    ensures IsPlanOf(ops[k], Generated(w, ops[k]).value, c, cfg.identities[i], AllPlans(cfg, w, ops, n)[v])
  {
    var before := AllPlans(cfg, w, ops, n - 1);
    if v < |before| {
      k, c, i := EveryPlanIsCase(cfg, w, ops, n - 1, v);
    } else {
      k := n - 1;
      var mutations := Generated(w, ops[k]).value;
      c, i := Divided(v - |before|, |cfg.identities|, 1 + |mutations|);
      PlansAreTheProduct(ops[k], mutations, cfg.identities, c, i);
    }
  }
}
