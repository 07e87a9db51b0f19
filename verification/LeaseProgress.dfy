/**
 What the lease lets its clients do: exactly when acquisitions, renewals, releases and leased writes succeed, over
 runs of any clients.
 */
module LeaseProgress {
  import opened Text
  import opened Lease

  // ----- Acquiring, renewing and releasing -----

  /** Nothing that anybody asks about `a` succeeds strictly between `i` and `j`. */
  ghost predicate Quiet(t: Tables, es: seq<Event>, a: string, i: int, j: nat)
    requires j <= |es|
  {
    forall k :: i < k < j && 0 <= k && es[k].request.Target() == a ==> !Succeeds(t, es, k)
  }

  lemma LeaseUntouched(t: Tables, e: Event, a: string)
    requires e.request.Target() == a ==> Apply(t, e).1 != Done
    ensures a in Apply(t, e).0.leases <==> a in t.leases
    ensures a in t.leases ==> Apply(t, e).0.leases[a] == t.leases[a]
  {
  }

  /** While nothing about `a` succeeds, its lease stays as it is, expired or not. */
  lemma {:induction false} LeaseStays(t: Tables, es: seq<Event>, a: string, i: nat, n: nat)
    requires i <= n <= |es| && Quiet(t, es, a, i - 1, n)
    ensures a in After(t, es[..n]).leases <==> a in After(t, es[..i]).leases
    ensures a in After(t, es[..i]).leases ==> After(t, es[..n]).leases[a] == After(t, es[..i]).leases[a]
  {
    if i < n {
      LeaseStays(t, es, a, i, n - 1);
      AfterNext(t, es, n - 1);
      LeaseUntouched(After(t, es[..n - 1]), es[n - 1], a);
    }
  }

  lemma GrantStays(t: Tables, es: seq<Event>, a: string, o: string, d: int, i: nat, n: nat)
    requires i < n <= |es| && Grants(t, es, i, a, o, d) && Quiet(t, es, a, i, n)
    ensures Stands(After(t, es[..n]), a, o, d)
  {
    AfterNext(t, es, i);
    GrantStarts(After(t, es[..i]), es[i]);
    LeaseStays(t, es, a, i + 1, n);
  }

  /** A well-formed acquisition of a stored assessment's lease. */
  ghost predicate Asks(t: Tables, es: seq<Event>, j: nat, a: string)
    requires j < |es|
  {
    && es[j].request.Acquire? && es[j].request.Target() == a && a != "" && es[j].request.ttl > 0
    && a in After(t, es[..j]).rows.assessments
  }

  lemma AcquireOutcome(t: Tables, e: Event, a: string)
    requires e.request.Acquire? && e.request.Target() == a && a != "" && e.request.ttl > 0 && a in t.rows.assessments
    ensures Apply(t, e).1 == Done <==> (a in t.leases ==> t.leases[a].expires <= e.now)
  {
  }

  /**
   Taking over.  After a grant until `d` with nothing successful since, the next acquisition, by whomever, succeeds
   exactly from `d` on; and then it is a grant of its own.
   */
  lemma TakeOverExactly(t: Tables, es: seq<Event>, a: string, o: string, d: int, i: nat, j: nat)
    requires i < j < |es| && Grants(t, es, i, a, o, d) && Quiet(t, es, a, i, j) && Asks(t, es, j, a)
    ensures Succeeds(t, es, j) <==> es[j].now >= d
    ensures es[j].now >= d ==> Grants(t, es, j, a, es[j].request.owner, es[j].now + es[j].request.ttl)
  {
    GrantStays(t, es, a, o, d, i, j);
    AcquireOutcome(After(t, es[..j]), es[j], a);
  }

  /** After a successful release with nothing successful since, an acquisition succeeds at any time. */
  lemma FreeAfterRelease(t: Tables, es: seq<Event>, a: string, i: nat, j: nat)
    requires i < j < |es| && Succeeds(t, es, i) && es[i].request.Release? && es[i].request.Target() == a
    requires Quiet(t, es, a, i, j) && Asks(t, es, j, a)
    ensures Succeeds(t, es, j)
  {
    AfterNext(t, es, i);
    assert a !in After(t, es[..i + 1]).leases;
    LeaseStays(t, es, a, i + 1, j);
    AcquireOutcome(After(t, es[..j]), es[j], a);
  }

  /** A lease that nobody ever had is free. */
  lemma FreeAtFirst(t: Tables, es: seq<Event>, a: string, j: nat)
    requires j < |es| && a !in t.leases && Quiet(t, es, a, -1, j) && Asks(t, es, j, a)
    ensures Succeeds(t, es, j)
  {
    assert es[..0] == [];
    LeaseStays(t, es, a, 0, j);
    AcquireOutcome(After(t, es[..j]), es[j], a);
  }

  lemma HolderOutcome(t: Tables, e: Event, a: string, o: string, d: int)
    requires Stands(t, a, o, d) && e.request.Target() == a && e.request.By() == o
    ensures e.request.Renew? ==> (Apply(t, e).1 == Done <==> a != "" && o != "" && e.request.ttl > 0 && e.now < d)
    ensures e.request.Release? ==> Apply(t, e).1 == Done
  {
  }

  /** The holder renews exactly before its deadline, and may release at any time. */
  lemma HolderSucceeds(t: Tables, es: seq<Event>, a: string, o: string, d: int, i: nat, j: nat)
    requires i < j < |es| && Grants(t, es, i, a, o, d) && Quiet(t, es, a, i, j)
    requires es[j].request.Target() == a && es[j].request.By() == o
    ensures es[j].request.Renew? ==>
              (Succeeds(t, es, j) <==> a != "" && o != "" && es[j].request.ttl > 0 && es[j].now < d)
    ensures es[j].request.Release? ==> Succeeds(t, es, j)
  {
    GrantStays(t, es, a, o, d, i, j);
    HolderOutcome(After(t, es[..j]), es[j], a, o, d);
  }

  // ----- Leased writes -----

  /** Rows that a write may finish: running, and for nodes also waiting. */
  predicate MayFinish(rows: Rows, row: RowName) {
    match row
    case AttemptRow(id) => id in rows.attempts && rows.attempts[id].status.Running?
    case NodeRow(id) => id in rows.nodes && rows.nodes[id].status.Stage() < 2
    case AssessmentRow(id) => id in rows.assessments && rows.assessments[id].status.Running?
  }

  function StatusOf(rows: Rows, row: RowName): Status
    requires Stored(rows, row)
  {
    match row
    case AttemptRow(id) => rows.attempts[id].status
    case NodeRow(id) => rows.nodes[id].status
    case AssessmentRow(id) => rows.assessments[id].status
  }

  lemma FinishOutcome(t: Tables, e: Event, a: string, o: string, d: int, row: RowName)
    requires Stands(t, a, o, d) && e.request.Write? && e.request.assessment == a && e.request.owner == o
    requires TrimSpace(o) != "" && e.request.ttl > 0 && Acceptable(e.request.change)
    requires Finishes(e.request.change, a, row) && Stored(t.rows, row)
    ensures Apply(t, e).1 == Done <==> e.now < d && AssessmentOf(t.rows, row) == a && MayFinish(t.rows, row)
    ensures Apply(t, e).1 == Done ==>
              Stored(Apply(t, e).0.rows, row) && StatusOf(Apply(t, e).0.rows, row) == e.request.change.status
  {
  }

  /**
   The holder finishes a row of its assessment exactly before the deadline and while the row may be finished, and the
   row has the reported status then.
   */
  lemma HolderFinishes(t: Tables, es: seq<Event>, a: string, o: string, d: int, i: nat, j: nat, row: RowName)
    requires i < j < |es| && Grants(t, es, i, a, o, d) && Quiet(t, es, a, i, j)
    requires es[j].request.Write? && es[j].request.assessment == a && es[j].request.owner == o
    requires TrimSpace(o) != "" && es[j].request.ttl > 0 && Acceptable(es[j].request.change)
    requires Finishes(es[j].request.change, a, row) && Stored(After(t, es[..j]).rows, row)
    ensures Succeeds(t, es, j) <==>
              && es[j].now < d && AssessmentOf(After(t, es[..j]).rows, row) == a
              && MayFinish(After(t, es[..j]).rows, row)
    ensures Succeeds(t, es, j) ==>
              && Stored(After(t, es[..j + 1]).rows, row)
              && StatusOf(After(t, es[..j + 1]).rows, row) == es[j].request.change.status
  {
    GrantStays(t, es, a, o, d, i, j);
    FinishOutcome(After(t, es[..j]), es[j], a, o, d, row);
    AfterNext(t, es, j);
  }

  lemma StartOutcome(t: Tables, e: Event, a: string, o: string, d: int, id: string)
    requires Stands(t, a, o, d) && e.request.Write? && e.request.assessment == a && e.request.owner == o
    requires e.request.change == StartNode(id) && TrimSpace(o) != "" && e.request.ttl > 0
    requires id in t.rows.nodes && t.rows.nodes[id].status.Stage() == 0
    ensures Apply(t, e).1 == Done <==> e.now < d && t.rows.nodes[id].assessment == a
    ensures Apply(t, e).1 == Done ==>
              Apply(t, e).0.rows.nodes == t.rows.nodes[id := t.rows.nodes[id].(status := Running, startedAt := e.now)]
  {
  }

  /** The holder starts a waiting node of its assessment exactly before the deadline, and the node runs from then on. */
  lemma HolderStarts(t: Tables, es: seq<Event>, a: string, o: string, d: int, i: nat, j: nat, id: string)
    requires i < j < |es| && Grants(t, es, i, a, o, d) && Quiet(t, es, a, i, j)
    requires es[j].request.Write? && es[j].request.assessment == a && es[j].request.owner == o
    requires es[j].request.change == StartNode(id) && TrimSpace(o) != "" && es[j].request.ttl > 0
    requires id in After(t, es[..j]).rows.nodes && After(t, es[..j]).rows.nodes[id].status.Stage() == 0
    ensures Succeeds(t, es, j) <==> es[j].now < d && After(t, es[..j]).rows.nodes[id].assessment == a
    ensures Succeeds(t, es, j) ==>
              var nodes := After(t, es[..j]).rows.nodes;
              After(t, es[..j + 1]).rows.nodes == nodes[id := nodes[id].(status := Running, startedAt := es[j].now)]
  {
    GrantStays(t, es, a, o, d, i, j);
    StartOutcome(After(t, es[..j]), es[j], a, o, d, id);
    AfterNext(t, es, j);
  }

  lemma PublishOutcome(t: Tables, e: Event, a: string, o: string, d: int)
    requires Stands(t, a, o, d) && e.request.Write? && e.request.assessment == a && e.request.owner == o
    requires e.request.change.Publish? && TrimSpace(o) != "" && e.request.ttl > 0
    ensures
      var change := e.request.change;
      && (Apply(t, e).1 == Done
          <==> e.now < d && change.valid && change.storable && (change.kind, change.id) !in t.rows.published)
      && (Apply(t, e).1 == Done ==>
            Apply(t, e).0.rows.published
            == t.rows.published[(change.kind, change.id) := Publication(a, change.content)])
  {
  }

  /** The holder publishes exactly before the deadline, what is valid and was not published yet. */
  lemma HolderPublishes(t: Tables, es: seq<Event>, a: string, o: string, d: int, i: nat, j: nat)
    requires i < j < |es| && Grants(t, es, i, a, o, d) && Quiet(t, es, a, i, j)
    requires es[j].request.Write? && es[j].request.assessment == a && es[j].request.owner == o
    requires es[j].request.change.Publish? && TrimSpace(o) != "" && es[j].request.ttl > 0
    ensures
      var change, published := es[j].request.change, After(t, es[..j]).rows.published;
      && (Succeeds(t, es, j)
          <==> es[j].now < d && change.valid && change.storable && (change.kind, change.id) !in published)
      && (Succeeds(t, es, j) ==>
            After(t, es[..j + 1]).rows.published
            == published[(change.kind, change.id) := Publication(a, change.content)])
  {
    GrantStays(t, es, a, o, d, i, j);
    PublishOutcome(After(t, es[..j]), es[j], a, o, d);
    AfterNext(t, es, j);
  }
}
