/**
 The assessment execution lease, as atomic steps on shared tables.

 Many clients share one lease row per assessment.  Each database transaction is one step at one time
 `now`; a step that fails leaves the tables as they were.  Module LeaseStore runs the steps in place.
 */
module Lease {
  import opened Text

  /** A status as stored; `Other` is any text that is none of those the program writes. */
  datatype Status =
    | Planned | Ready | Running | Succeeded | Failing | Skipped | Canceled | Inconclusive
    | Other(text: string)
  {
    predicate Live() {
      Planned? || Ready? || Running?
    }

    /** How far a row has come: waiting, running, finished. */
    function Stage(): nat {
      if Planned? || Ready? then 0 else if Running? then 1 else 2
    }
  }

  /** One row of assessment_execution_leases. */
  datatype LeaseRow = LeaseRow(owner: string, expires: int, updatedAt: int)

  datatype Attempt = Attempt(
    assessment: string, status: Status, errorClass: string, httpStatus: int,
    responseFingerprint: string, message: string, completedAt: int)

  datatype Node = Node(assessment: string, status: Status, message: string, startedAt: int, completedAt: int)

  datatype Assessment = Assessment(status: Status, message: string, completedAt: int)

  datatype Publication = Publication(assessment: string, content: string)

  datatype Kind = Artifact | Coverage | Comparison | Finding

  type Leases = map<string, LeaseRow>

  /** The tables that leased writes change. */
  datatype Rows = Rows(
    attempts: map<string, Attempt>, nodes: map<string, Node>, assessments: map<string, Assessment>,
    published: map<(Kind, string), Publication>)

  datatype Tables = Tables(leases: Leases, rows: Rows)

  /** A write that is fenced by the lease.  `valid` and `storable` stand for the checks on a publication's
      own fields, before the transaction and by the table's constraints. */
  datatype Change =
    | FinishAttempt(id: string, status: Status, errorClass: string, httpStatus: int, fingerprint: string,
                    message: string)
    | StartNode(id: string)
    | FinishNode(id: string, status: Status, message: string)
    | FinishAssessment(status: Status, message: string)
    | Publish(kind: Kind, id: string, content: string, valid: bool, storable: bool)

  /** A request of a client.  An acquisition draws the owner it will report if it succeeds. */
  datatype Request =
    | Acquire(assessment: string, owner: string, ttl: int)
    | Renew(assessment: string, owner: string, ttl: int)
    | Release(assessment: string, owner: string)
    | Write(assessment: string, owner: string, ttl: int, change: Change)
  {
    /** The row the request is about: all but the fenced writes trim what they are given. */
    function Target(): string {
      if Write? then assessment else TrimSpace(assessment)
    }

    function By(): string {
      if Renew? || Release? then TrimSpace(owner) else owner
    }
  }

  datatype Event = Event(request: Request, now: int)

  datatype Error = InvalidRequest | LeaseHeld | NotLive | Constraint

  datatype Outcome = Done | Failed(error: Error)

  predicate Acceptable(change: Change) {
    match change
    case FinishAttempt(_, status, _, httpStatus, _, _) =>
      (status.Succeeded? || status.Failing? || status.Canceled? || status.Inconclusive?) && 0 <= httpStatus <= 999
    case StartNode(_) => true
    case FinishNode(_, status, _) => status.Succeeded? || status.Failing? || status.Skipped? || status.Canceled?
    case FinishAssessment(status, _) => status.Succeeded? || status.Failing? || status.Canceled?
    case Publish(_, _, _, valid, _) => valid
  }

  /** The owner holds an unexpired lease. */
  predicate Holds(leases: Leases, assessment: string, owner: string, now: int) {
    && assessment in leases
    && leases[assessment].owner == owner
    && leases[assessment].expires > now
  }

  function Extended(leases: Leases, assessment: string, owner: string, ttl: int, now: int): Leases {
    leases[assessment := LeaseRow(owner, now + ttl, now)]
  }

  /** What the request does to the leases; for a write, this is its fence. */
  function Leased(leases: Leases, e: Event, known: bool): (Leases, Outcome) {
    var assessment, owner := e.request.Target(), e.request.By();
    match e.request
    case Acquire(_, _, ttl) =>
      if assessment == "" || ttl <= 0 then (leases, Failed(InvalidRequest))
      else if !known then (leases, Failed(Constraint))
      else if assessment in leases && leases[assessment].expires > e.now then (leases, Failed(LeaseHeld))
      else (Extended(leases, assessment, owner, ttl, e.now), Done)
    case Renew(_, _, ttl) =>
      if assessment == "" || owner == "" || ttl <= 0 then (leases, Failed(InvalidRequest))
      else if Holds(leases, assessment, owner, e.now) then (Extended(leases, assessment, owner, ttl, e.now), Done)
      else (leases, Failed(LeaseHeld))
    case Release(_, _) =>
      if assessment in leases && leases[assessment].owner == owner then (leases - {assessment}, Done)
      else (leases, Failed(LeaseHeld))
    case Write(_, _, ttl, change) =>
      if !Acceptable(change) then (leases, Failed(InvalidRequest))
      else if TrimSpace(owner) == "" || ttl <= 0 || !Holds(leases, assessment, owner, e.now) then
        (leases, Failed(LeaseHeld))
      else (Extended(leases, assessment, owner, ttl, e.now), Done)
  }

  /** The row the write is about is there, belongs to the assessment and may still be changed. */
  predicate Applies(rows: Rows, assessment: string, change: Change) {
    match change
    case FinishAttempt(id, _, _, _, _, _) =>
      id in rows.attempts && rows.attempts[id].assessment == assessment && rows.attempts[id].status.Running?
    case StartNode(id) =>
      id in rows.nodes && rows.nodes[id].assessment == assessment && rows.nodes[id].status.Live()
    case FinishNode(id, _, _) =>
      id in rows.nodes && rows.nodes[id].assessment == assessment && rows.nodes[id].status.Live()
    case FinishAssessment(_, _) =>
      assessment in rows.assessments && rows.assessments[assessment].status.Running?
    case Publish(kind, id, _, _, storable) =>
      (kind, id) !in rows.published && storable
  }

  function AttemptsAfter(attempts: map<string, Attempt>, assessment: string, change: Change, now: int)
    : map<string, Attempt>
  {
    match change
    case FinishAttempt(id, status, errorClass, httpStatus, fingerprint, message) =>
      attempts[id := Attempt(assessment, status, errorClass, httpStatus, fingerprint, message, now)]
    case _ => attempts
  }

  /** Starting a node that runs already changes nothing. */
  function NodesAfter(nodes: map<string, Node>, change: Change, now: int): map<string, Node> {
    match change
    case StartNode(id) =>
      if id in nodes && !nodes[id].status.Running? then nodes[id := nodes[id].(status := Running, startedAt := now)]
      else nodes
    case FinishNode(id, status, message) =>
      if id in nodes then nodes[id := nodes[id].(status := status, message := message, completedAt := now)] else nodes
    case _ => nodes
  }

  function AssessmentsAfter(
    assessments: map<string, Assessment>, assessment: string, change: Change, now: int): map<string, Assessment>
  {
    match change
    case FinishAssessment(status, message) => assessments[assessment := Assessment(status, message, now)]
    case _ => assessments
  }

  function PublishedAfter(
    published: map<(Kind, string), Publication>, assessment: string, change: Change): map<(Kind, string), Publication>
  {
    match change
    case Publish(kind, id, content, _, _) => published[(kind, id) := Publication(assessment, content)]
    case _ => published
  }

  /** The rows after a write whose fence has passed. */
  function Changed(rows: Rows, assessment: string, change: Change, now: int): (Rows, Outcome) {
    if Applies(rows, assessment, change) then
      (Rows(AttemptsAfter(rows.attempts, assessment, change, now), NodesAfter(rows.nodes, change, now),
            AssessmentsAfter(rows.assessments, assessment, change, now),
            PublishedAfter(rows.published, assessment, change)),
       Done)
    else (rows, Failed(if change.Publish? then Constraint else NotLive))
  }

  /** One atomic step: a request that fails anywhere is rolled back. */
  function Apply(t: Tables, e: Event): (Tables, Outcome) {
    var (leases, granted) := Leased(t.leases, e, e.request.Target() in t.rows.assessments);
    if granted.Failed? then (t, granted)
    else if !e.request.Write? then (t.(leases := leases), Done)
    else
      var (rows, outcome) := Changed(t.rows, e.request.assessment, e.request.change, e.now);
      if outcome == Done then (Tables(leases, rows), Done) else (t, outcome)
  }

  // ----- Runs: any interleaving of any clients' requests -----

  ghost function After(t: Tables, es: seq<Event>): Tables {
    if es == [] then t else Apply(After(t, es[..|es| - 1]), es[|es| - 1]).0
  }

  /** Event `i` of the run succeeds. */
  ghost predicate Succeeds(t: Tables, es: seq<Event>, i: nat)
    requires i < |es|
  {
    Apply(After(t, es[..i]), es[i]).1 == Done
  }

  lemma AfterNext(t: Tables, es: seq<Event>, i: nat)
    requires i < |es|
    ensures After(t, es[..i + 1]) == Apply(After(t, es[..i]), es[i]).0
  {
    assert es[..i + 1][..i] == es[..i];
  }

  ghost predicate HeldBy(t: Tables, assessment: string, owner: string) {
    assessment in t.leases && t.leases[assessment].owner == owner
  }

  /** The rows of other assessments are untouched. */
  ghost predicate OnlyAbout(a: string, rows: Rows, next: Rows) {
    && AssessmentsElsewhereKept(a, rows.assessments, next.assessments)
    && AttemptsElsewhereKept(a, rows.attempts, next.attempts)
    && NodesElsewhereKept(a, rows.nodes, next.nodes)
    && PublishedElsewhereKept(a, rows.published, next.published)
  }

  ghost predicate AssessmentsElsewhereKept(a: string, was: map<string, Assessment>, now: map<string, Assessment>) {
    forall x :: x != a ==> (x in was <==> x in now) && (x in was ==> now[x] == was[x])
  }

  ghost predicate AttemptsElsewhereKept(a: string, was: map<string, Attempt>, now: map<string, Attempt>) {
    forall x :: x in was && was[x].assessment != a ==> x in now && now[x] == was[x]
  }

  ghost predicate NodesElsewhereKept(a: string, was: map<string, Node>, now: map<string, Node>) {
    forall x :: x in was && was[x].assessment != a ==> x in now && now[x] == was[x]
  }

  /** Publications are only ever added, and only to this assessment. */
  ghost predicate PublishedElsewhereKept(
    a: string, was: map<(Kind, string), Publication>, now: map<(Kind, string), Publication>)
  {
    && (forall x :: x in was ==> x in now && now[x] == was[x])
    && (forall x :: x in now && x !in was ==> now[x].assessment == a)
  }

  ghost predicate LeasesElsewhereKept(a: string, leases: Leases, next: Leases) {
    forall x :: x != a ==> (x in leases <==> x in next) && (x in leases ==> next[x] == leases[x])
  }

  lemma ChangeStaysInside(rows: Rows, a: string, change: Change, now: int)
    ensures OnlyAbout(a, rows, Changed(rows, a, change, now).0)
  {
  }

  /** A failed step changes nothing; a successful write was fenced by a live lease, which it renews; any
      other successful step changes only the lease; and no step touches another assessment. */
  lemma AllOrNothing(t: Tables, e: Event)
    ensures
      var (next, outcome) := Apply(t, e);
      && (outcome.Failed? ==> next == t)
      && LeasesElsewhereKept(e.request.Target(), t.leases, next.leases)
      && OnlyAbout(e.request.Target(), t.rows, next.rows)
      && (outcome == Done && e.request.Write? ==>
            && Holds(t.leases, e.request.assessment, e.request.owner, e.now)
            && next.leases == Extended(t.leases, e.request.assessment, e.request.owner, e.request.ttl, e.now))
      && (outcome == Done && !e.request.Write? ==> next.rows == t.rows)
  {
    if e.request.Write? {
      ChangeStaysInside(t.rows, e.request.assessment, e.request.change, e.now);
    }
  }

  /** The events of the run that succeed, in order. */
  ghost function Successes(t: Tables, es: seq<Event>): seq<Event> {
    if es == [] then []
    else if Succeeds(t, es, |es| - 1) then Successes(t, es[..|es| - 1]) + [es[|es| - 1]]
    else Successes(t, es[..|es| - 1])
  }

  ghost predicate AllSucceed(t: Tables, es: seq<Event>) {
    forall i :: 0 <= i < |es| ==> Succeeds(t, es, i)
  }

  lemma OneMoreSuccess(t: Tables, es: seq<Event>, e: Event)
    requires AllSucceed(t, es) && Apply(After(t, es), e).1 == Done
    ensures AllSucceed(t, es + [e]) && After(t, es + [e]) == Apply(After(t, es), e).0
  {
    var longer := es + [e];
    assert longer[..|es|] == es;
    forall i | 0 <= i < |longer|
      ensures Succeeds(t, longer, i)
    {
      if i < |es| {
        assert longer[..i] == es[..i] && longer[i] == es[i];
        assert Succeeds(t, es, i);
      }
    }
  }

  /**
   All or nothing, over every run: leaving out all the requests that fail gives a run in which everything succeeds,
   with the same tables at the end.
   */
  lemma {:induction false} FailuresLeaveNoTrace(t: Tables, es: seq<Event>)
    ensures After(t, Successes(t, es)) == After(t, es)
    ensures AllSucceed(t, Successes(t, es))
  {
    if es != [] {
      var front, last := es[..|es| - 1], es[|es| - 1];
      FailuresLeaveNoTrace(t, front);
      AllOrNothing(After(t, front), last);
      if Succeeds(t, es, |es| - 1) {
        OneMoreSuccess(t, Successes(t, front), last);
      }
    }
  }

  /** Every acquisition draws an owner that no lease had before and no other acquisition draws. */
  ghost predicate FreshOwners(t: Tables, es: seq<Event>) {
    && (forall i, a :: 0 <= i < |es| && es[i].request.Acquire? && a in t.leases ==>
          t.leases[a].owner != es[i].request.owner)
    && (forall i, j :: 0 <= i < j < |es| && es[i].request.Acquire? && es[j].request.Acquire? ==>
          es[i].request.owner != es[j].request.owner)
  }

  /** The request is one that only the holder of the lease can have granted. */
  predicate ByHolder(r: Request) {
    r.Renew? || r.Release? || r.Write?
  }

  /** Only an acquisition makes its owner the holder. */
  lemma HoldersComeFromAcquisitions(t: Tables, e: Event, a: string, o: string)
    requires HeldBy(Apply(t, e).0, a, o)
    ensures HeldBy(t, a, o) || (e.request.Acquire? && e.request.owner == o)
  {
  }

  /** Whoever holds a lease drew its name in an earlier acquisition, or held it from the start. */
  lemma {:induction false} HolderWasIssued(t: Tables, es: seq<Event>, n: nat, a: string, o: string)
    requires n <= |es| && HeldBy(After(t, es[..n]), a, o)
    ensures HeldBy(t, a, o) || exists i :: 0 <= i < n && es[i].request.Acquire? && es[i].request.owner == o
  {
    if n > 0 {
      AfterNext(t, es, n - 1);
      HoldersComeFromAcquisitions(After(t, es[..n - 1]), es[n - 1], a, o);
      if HeldBy(After(t, es[..n - 1]), a, o) {
        HolderWasIssued(t, es, n - 1, a, o);
      }
    } else {
      assert es[..0] == [];
    }
  }

  /** A lease, once lost, is lost for good. */
  lemma {:induction false} LostForGood(t: Tables, es: seq<Event>, a: string, o: string, m: nat, n: nat)
    requires FreshOwners(t, es) && m <= n <= |es|
    requires HeldBy(t, a, o) || exists i :: 0 <= i < m && es[i].request.Acquire? && es[i].request.owner == o
    requires !HeldBy(After(t, es[..m]), a, o)
    ensures !HeldBy(After(t, es[..n]), a, o)
  {
    if m < n {
      LostForGood(t, es, a, o, m, n - 1);
      AfterNext(t, es, n - 1);
      if HeldBy(After(t, es[..n]), a, o) {
        HoldersComeFromAcquisitions(After(t, es[..n - 1]), es[n - 1], a, o);
        assert false;
      }
    }
  }

  /** The owner's last hold on the assessment ends at event `i`: it releases, or another owner acquires. */
  ghost predicate Loses(t: Tables, es: seq<Event>, i: nat, a: string, o: string)
    requires i < |es|
  {
    && HeldBy(After(t, es[..i]), a, o)
    && Succeeds(t, es, i)
    && es[i].request.Target() == a
    && (es[i].request.Release? || (es[i].request.Acquire? && es[i].request.By() != o))
  }

  lemma NotHeldAfterwards(t: Tables, es: seq<Event>, i: nat, a: string, o: string)
    requires i < |es| && Loses(t, es, i, a, o)
    ensures !HeldBy(After(t, es[..i + 1]), a, o)
  {
    AfterNext(t, es, i);
  }

  lemma NeedsHold(t: Tables, e: Event, a: string, o: string)
    requires ByHolder(e.request) && e.request.Target() == a && e.request.By() == o && !HeldBy(t, a, o)
    ensures Apply(t, e).1 != Done
  {
  }

  /**
   Fencing.  Over every interleaving, once an owner has released its lease or another owner has acquired it,
   each later renewal, release and leased write of the earlier owner fails.
   */
  lemma Fencing(t: Tables, es: seq<Event>, a: string, o: string, i: nat, j: nat)
    requires FreshOwners(t, es) && i < j < |es|
    requires Loses(t, es, i, a, o)
    requires ByHolder(es[j].request) && es[j].request.Target() == a && es[j].request.By() == o
    ensures !Succeeds(t, es, j)
  {
    HolderWasIssued(t, es, i, a, o);
    NotHeldAfterwards(t, es, i, a, o);
    LostForGood(t, es, a, o, i + 1, j);
    NeedsHold(After(t, es[..j]), es[j], a, o);
  }

  /** Event `i` is a successful write on `a` by `o`. */
  ghost predicate Wrote(t: Tables, es: seq<Event>, i: nat, a: string, o: string)
    requires i < |es|
  {
    es[i].request.Write? && es[i].request.assessment == a && es[i].request.owner == o && Succeeds(t, es, i)
  }

  /** The successful writes of an assessment form one contiguous block for each owner. */
  lemma WritesFormBlocks(t: Tables, es: seq<Event>, a: string, o: string, p: string, i: nat, j: nat, k: nat)
    requires FreshOwners(t, es) && i < j < k < |es|
    requires Wrote(t, es, i, a, o) && Wrote(t, es, j, a, p) && Wrote(t, es, k, a, o)
    ensures p == o
  {
    if p != o {
      HolderWasIssued(t, es, i, a, o);
      assert !HeldBy(After(t, es[..j]), a, o);
      LostForGood(t, es, a, o, j, k);
      assert false;
    }
  }

  // ----- Deadlines -----

  ghost predicate ClockNeverGoesBack(es: seq<Event>) {
    forall i, j :: 0 <= i < j < |es| ==> es[i].now <= es[j].now
  }

  /** Event `i` leaves `o` holding the lease on `a` until `deadline`. */
  ghost predicate Grants(t: Tables, es: seq<Event>, i: nat, a: string, o: string, deadline: int)
    requires i < |es|
  {
    && Succeeds(t, es, i)
    && !es[i].request.Release?
    && es[i].request.Target() == a && es[i].request.By() == o
    && es[i].now + es[i].request.ttl == deadline
  }

  /** Nothing that `o` asks about `a` succeeds strictly between `i` and `j`. */
  ghost predicate Idle(t: Tables, es: seq<Event>, a: string, o: string, i: nat, j: nat)
    requires j <= |es|
  {
    forall k :: i < k < j && es[k].request.Target() == a && es[k].request.By() == o ==> !Succeeds(t, es, k)
  }

  /** A step that leaves the lease row alone, or succeeds about it. */
  lemma RowChangesOnlyBySuccess(t: Tables, e: Event, a: string)
    requires a in t.leases
    ensures
      var (next, outcome) := Apply(t, e);
      || (a in next.leases && next.leases[a] == t.leases[a])
      || (outcome == Done && e.request.Target() == a
          && (e.request.By() == t.leases[a].owner || (e.request.Acquire? && e.now >= t.leases[a].expires)))
  {
  }

  ghost predicate Stands(t: Tables, a: string, o: string, deadline: int) {
    a in t.leases && t.leases[a].owner == o && t.leases[a].expires == deadline
  }

  /** A grant is removed only by a success of its own owner, or at or after its deadline. */
  lemma GrantStep(t: Tables, e: Event, a: string, o: string, deadline: int)
    requires Stands(t, a, o, deadline)
    requires e.request.Target() == a && e.request.By() == o ==> Apply(t, e).1 != Done
    ensures Stands(Apply(t, e).0, a, o, deadline) || e.now >= deadline
  {
    RowChangesOnlyBySuccess(t, e, a);
  }

  lemma GrantStarts(t: Tables, e: Event)
    requires Apply(t, e).1 == Done && !e.request.Release?
    ensures Stands(Apply(t, e).0, e.request.Target(), e.request.By(), e.now + e.request.ttl)
  {
  }

  /** A grant stands until its deadline: only an acquisition at or after the deadline removes it. */
  lemma {:induction false} GrantStands(t: Tables, es: seq<Event>, a: string, o: string, d: int, i: nat, n: nat)
    requires i < n <= |es| && Grants(t, es, i, a, o, d) && Idle(t, es, a, o, i, n)
    ensures Stands(After(t, es[..n]), a, o, d) || exists k :: i < k < n && es[k].now >= d
  {
    AfterNext(t, es, n - 1);
    if i + 1 < n {
      GrantStands(t, es, a, o, d, i, n - 1);
      if Stands(After(t, es[..n - 1]), a, o, d) {
        GrantStep(After(t, es[..n - 1]), es[n - 1], a, o, d);
      }
    } else {
      GrantStarts(After(t, es[..i]), es[i]);
    }
  }

  /**
   Mutual exclusion in time.  With a clock that never goes back, if `o` was granted the lease until `d` and
   asks for nothing more, not even to release it, then no other owner gets anything done before `d`.
   */
  lemma NoOtherOwnerBeforeDeadline(t: Tables, es: seq<Event>, a: string, o: string, d: int, i: nat, j: nat)
    requires i < j < |es| && ClockNeverGoesBack(es)
    requires Grants(t, es, i, a, o, d) && Idle(t, es, a, o, i, j)
    requires Succeeds(t, es, j) && es[j].request.Target() == a && es[j].request.By() != o
    ensures es[j].now >= d
  {
    GrantStands(t, es, a, o, d, i, j);
  }

  // ----- All or nothing, and only forward -----

  ghost predicate AttemptsForward(was: map<string, Attempt>, now: map<string, Attempt>) {
    forall x :: x in was ==>
      && x in now && now[x].assessment == was[x].assessment
      && was[x].status.Stage() <= now[x].status.Stage()
      && (was[x].status.Stage() == now[x].status.Stage() ==> now[x] == was[x])
  }

  ghost predicate NodesForward(was: map<string, Node>, now: map<string, Node>) {
    forall x :: x in was ==>
      && x in now && now[x].assessment == was[x].assessment
      && was[x].status.Stage() <= now[x].status.Stage()
      && (was[x].status.Stage() == now[x].status.Stage() ==> now[x] == was[x])
  }

  ghost predicate AssessmentsForward(was: map<string, Assessment>, now: map<string, Assessment>) {
    forall x :: x in was ==>
      && x in now
      && was[x].status.Stage() <= now[x].status.Stage()
      && (was[x].status.Stage() == now[x].status.Stage() ==> now[x] == was[x])
  }

  /** No row is lost or goes back, and a row changes only when it reaches its next stage. */
  ghost predicate Forward(rows: Rows, next: Rows) {
    && AttemptsForward(rows.attempts, next.attempts)
    && NodesForward(rows.nodes, next.nodes)
    && AssessmentsForward(rows.assessments, next.assessments)
    && (forall x :: x in rows.published ==> x in next.published && next.published[x] == rows.published[x])
  }

  lemma ForwardIsTransitive(first: Rows, second: Rows, third: Rows)
    requires Forward(first, second) && Forward(second, third)
    ensures Forward(first, third)
  {
  }

  lemma AttemptsGoForward(rows: Rows, a: string, change: Change, now: int)
    requires Acceptable(change) && Applies(rows, a, change)
    ensures AttemptsForward(rows.attempts, AttemptsAfter(rows.attempts, a, change, now))
  {
  }

  lemma NodesGoForward(rows: Rows, a: string, change: Change, now: int)
    requires Acceptable(change) && Applies(rows, a, change)
    ensures NodesForward(rows.nodes, NodesAfter(rows.nodes, change, now))
  {
  }

  lemma ChangeIsForward(rows: Rows, a: string, change: Change, now: int)
    requires Acceptable(change)
    ensures Forward(rows, Changed(rows, a, change, now).0)
  {
    if Applies(rows, a, change) {
      AttemptsGoForward(rows, a, change, now);
      NodesGoForward(rows, a, change, now);
    }
  }

  lemma StepIsForward(t: Tables, e: Event)
    ensures Forward(t.rows, Apply(t, e).0.rows)
  {
    if e.request.Write? && Acceptable(e.request.change) {
      ChangeIsForward(t.rows, e.request.assessment, e.request.change, e.now);
    }
  }

  lemma ForwardOnce(first: Rows, t: Tables, e: Event, next: Tables)
    requires Forward(first, t.rows) && next == Apply(t, e).0
    ensures Forward(first, next.rows)
  {
    StepIsForward(t, e);
    ForwardIsTransitive(first, t.rows, next.rows);
  }

  lemma ForwardNext(t: Tables, es: seq<Event>, first: Rows, i: nat)
    requires i < |es| && Forward(first, After(t, es[..i]).rows)
    ensures Forward(first, After(t, es[..i + 1]).rows)
  {
    AfterNext(t, es, i);
    ForwardOnce(first, After(t, es[..i]), es[i], After(t, es[..i + 1]));
  }

  /**
   Over every run, rows only move forward: a running row is left alone until it is finished, whoever starts it again,
   and a finished row never changes.
   */
  lemma {:induction false} OnlyForward(t: Tables, es: seq<Event>, m: nat, n: nat)
    requires m <= n <= |es|
    ensures Forward(After(t, es[..m]).rows, After(t, es[..n]).rows)
  {
    if m < n {
      OnlyForward(t, es, m, n - 1);
      ForwardNext(t, es, After(t, es[..m]).rows, n - 1);
    }
  }

  // ----- Who ends a row -----

  datatype RowName = AttemptRow(id: string) | NodeRow(id: string) | AssessmentRow(id: string)

  predicate Stored(rows: Rows, row: RowName) {
    match row
    case AttemptRow(id) => id in rows.attempts
    case NodeRow(id) => id in rows.nodes
    case AssessmentRow(id) => id in rows.assessments
  }

  function StageOf(rows: Rows, row: RowName): nat
    requires Stored(rows, row)
  {
    match row
    case AttemptRow(id) => rows.attempts[id].status.Stage()
    case NodeRow(id) => rows.nodes[id].status.Stage()
    case AssessmentRow(id) => rows.assessments[id].status.Stage()
  }

  function AssessmentOf(rows: Rows, row: RowName): string
    requires Stored(rows, row)
  {
    match row
    case AttemptRow(id) => rows.attempts[id].assessment
    case NodeRow(id) => rows.nodes[id].assessment
    case AssessmentRow(id) => id
  }

  /** The write is the one that finishes the row. */
  predicate Finishes(change: Change, assessment: string, row: RowName) {
    match row
    case AttemptRow(id) => change.FinishAttempt? && change.id == id
    case NodeRow(id) => change.FinishNode? && change.id == id
    case AssessmentRow(id) => change.FinishAssessment? && assessment == id
  }

  ghost predicate Unfinished(rows: Rows, row: RowName) {
    Stored(rows, row) && StageOf(rows, row) < 2
  }

  lemma RestartOnce(t: Tables, e: Event, id: string)
    requires id in t.rows.nodes && t.rows.nodes[id].status.Running?
    requires e.request.Write? && e.request.change == StartNode(id)
    ensures Apply(t, e).0.rows == t.rows
    ensures Apply(t, e).1 == Done <==>
      && e.request.assessment == t.rows.nodes[id].assessment
      && Holds(t.leases, e.request.assessment, e.request.owner, e.now)
      && e.request.ttl > 0 && TrimSpace(e.request.owner) != ""
  {
  }

  /**
   Taking up where another client left off: a node that somebody started and nobody finished, whatever happened in
   between, may be started again by the holder of its assessment's lease and by no one else, and is then as it was
   when it was first started.
   */
  lemma RestartResumes(t: Tables, es: seq<Event>, m: nat, n: nat, id: string)
    requires m <= n < |es|
    requires id in After(t, es[..m]).rows.nodes && After(t, es[..m]).rows.nodes[id].status.Running?
    requires Unfinished(After(t, es[..n]).rows, NodeRow(id))
    requires es[n].request.Write? && es[n].request.change == StartNode(id)
    ensures After(t, es[..n + 1]).rows == After(t, es[..n]).rows
    ensures id in After(t, es[..n + 1]).rows.nodes
    ensures After(t, es[..n + 1]).rows.nodes[id] == After(t, es[..m]).rows.nodes[id]
    ensures Succeeds(t, es, n) <==>
      && es[n].request.assessment == After(t, es[..m]).rows.nodes[id].assessment
      && Holds(After(t, es[..n]).leases, es[n].request.assessment, es[n].request.owner, es[n].now)
      && es[n].request.ttl > 0 && TrimSpace(es[n].request.owner) != ""
  {
    OnlyForward(t, es, m, n);
    AfterNext(t, es, n);
    RestartOnce(After(t, es[..n]), es[n], id);
  }

  /** Only a successful write that finishes the row brings it to its end. */
  lemma RowEndsByWrite(t: Tables, e: Event, row: RowName)
    requires Unfinished(t.rows, row) && !Unfinished(Apply(t, e).0.rows, row)
    ensures Apply(t, e).1 == Done && e.request.Write? && e.request.assessment == AssessmentOf(t.rows, row)
    ensures Finishes(e.request.change, e.request.assessment, row)
    ensures Holds(t.leases, e.request.assessment, e.request.owner, e.now)
  {
    StepIsForward(t, e);
  }

  lemma AssessmentStays(rows: Rows, next: Rows, row: RowName)
    requires Forward(rows, next) && Stored(rows, row)
    ensures Stored(next, row) && AssessmentOf(next, row) == AssessmentOf(rows, row)
  {
  }

  /**
   An attempt, node or assessment that a run brings to its end was ended by a write of the owner that held the lease
   then.
   */
  lemma {:induction false} EndedByHolder(t: Tables, es: seq<Event>, n: nat, row: RowName) returns (i: nat)
    requires n <= |es| && Unfinished(t.rows, row) && !Unfinished(After(t, es[..n]).rows, row)
    ensures i < n && es[i].request.Write? && Finishes(es[i].request.change, es[i].request.assessment, row)
    ensures Wrote(t, es, i, AssessmentOf(t.rows, row), es[i].request.owner)
    ensures Holds(After(t, es[..i]).leases, AssessmentOf(t.rows, row), es[i].request.owner, es[i].now)
  {
    assert es[..0] == [];
    if n > 0 {
      if !Unfinished(After(t, es[..n - 1]).rows, row) {
        i := EndedByHolder(t, es, n - 1, row);
      } else {
        i := n - 1;
        AfterNext(t, es, i);
        OnlyForward(t, es, 0, i);
        AssessmentStays(t.rows, After(t, es[..i]).rows, row);
        RowEndsByWrite(After(t, es[..i]), es[i], row);
      }
    }
  }
}
