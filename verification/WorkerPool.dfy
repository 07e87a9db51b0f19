/**
 Scanning a batch of targets with several workers. The dispatcher and the workers take steps in any order, and the
 context may be canceled at any point; what the batch reports does not depend on the order.
 */
module WorkerPool {
  import opened Wrappers

  datatype Report = Blank | Filled(content: string)

  /** What scanning one target gives. */
  datatype Scanned = Scanned(report: Report, failure: Option<string>)

  /** The failure of one target, with its place in the batch. */
  datatype TargetError = TargetError(index: int, failure: string)

  /** `scan` is what each target's scan gives when it is not canceled. */
  datatype Batch = Batch(count: nat, workers: nat, scan: int -> Scanned)

  /** The shared state; `scans` records which targets were handed to workers, in order. */
  datatype Pool = Pool(next: int, busy: map<int, int>, reports: seq<Report>, errors: seq<Option<string>>,
                       canceled: bool, stopped: bool, scans: seq<int>)

  datatype Step = Dispatch(worker: int) | Finish(worker: int, result: Scanned) | Cancel | StopDispatch

  function Start(batch: Batch): Pool {
    Pool(0, map[], seq(batch.count, _ => Blank), seq(batch.count, _ => None), false, false, [])
  }

  predicate Dispatching(batch: Batch, pool: Pool) {
    !pool.stopped && pool.next < batch.count
  }

  /**
   The dispatcher hands the next target to an idle worker. A worker that finishes brings the scan's result, or, once
   the context is canceled, any result. The dispatcher may stop once the context is canceled, but need not.
   */
  predicate Enabled(batch: Batch, pool: Pool, step: Step) {
    match step
    case Dispatch(worker) => Dispatching(batch, pool) && 0 <= worker < batch.workers && worker !in pool.busy
    case Finish(worker, result) => worker in pool.busy && (pool.canceled || result == batch.scan(pool.busy[worker]))
    case Cancel => !pool.canceled
    case StopDispatch => pool.canceled && Dispatching(batch, pool)
  }

  function Written<T>(values: seq<T>, i: int, value: T): seq<T> {
    if 0 <= i < |values| then values[i := value] else values
  }

  function Next(pool: Pool, step: Step): Pool {
    match step
    case Dispatch(worker) =>
      pool.(next := pool.next + 1, busy := pool.busy[worker := pool.next], scans := pool.scans + [pool.next])
    case Finish(worker, result) =>
      if worker !in pool.busy then pool
      else
        var index := pool.busy[worker];
        pool.(busy := pool.busy - {worker}, reports := Written(pool.reports, index, result.report),
              errors := Written(pool.errors, index, result.failure))
    case Cancel => pool.(canceled := true)
    case StopDispatch => pool.(stopped := true)
  }

  ghost predicate Runs(batch: Batch, steps: seq<Step>) {
    steps != [] ==>
      && Runs(batch, steps[..|steps| - 1])
      && Enabled(batch, After(batch, steps[..|steps| - 1]), steps[|steps| - 1])
  }

  function After(batch: Batch, steps: seq<Step>): Pool {
    if steps == [] then Start(batch) else Next(After(batch, steps[..|steps| - 1]), steps[|steps| - 1])
  }

  /** Nothing is left to dispatch, and every worker is idle. */
  predicate Over(batch: Batch, pool: Pool) {
    !Dispatching(batch, pool) && forall w :: 0 <= w < batch.workers ==> w !in pool.busy
  }

  // ----- What every step keeps -----

  ghost predicate Busy(pool: Pool, i: int) {
    exists w :: w in pool.busy && pool.busy[w] == i
  }

  /**
   Targets are handed out in order, each to one worker; what was handed out and is not being scanned has its own
   result, and what was not handed out has none.
   */
  ghost predicate Valid(batch: Batch, pool: Pool) {
    && 0 <= pool.next <= batch.count && |pool.reports| == |pool.errors| == batch.count
    && |pool.scans| == pool.next && (forall i :: 0 <= i < pool.next ==> pool.scans[i] == i)
    && (forall w :: w in pool.busy ==> 0 <= w < batch.workers && 0 <= pool.busy[w] < pool.next)
    && (forall v, w :: v in pool.busy && w in pool.busy && pool.busy[v] == pool.busy[w] ==> v == w)
    && (pool.stopped ==> pool.canceled)
    && Filed(batch, pool)
  }

  ghost predicate Filed(batch: Batch, pool: Pool)
    requires 0 <= pool.next <= batch.count && |pool.reports| == |pool.errors| == batch.count
  {
    && (forall i :: pool.next <= i < batch.count ==> pool.reports[i] == Blank && pool.errors[i] == None)
    && (!pool.canceled ==>
          forall i :: 0 <= i < pool.next && !Busy(pool, i) ==>
            pool.reports[i] == batch.scan(i).report && pool.errors[i] == batch.scan(i).failure)
  }

  lemma DispatchKeepsValid(batch: Batch, pool: Pool, worker: int)
    requires Valid(batch, pool) && Enabled(batch, pool, Dispatch(worker))
    ensures Valid(batch, Next(pool, Dispatch(worker)))
  {
    var after := Next(pool, Dispatch(worker));
    assert after.busy[worker] == pool.next;
    forall i | Busy(pool, i)
      ensures Busy(after, i)
    {
      var w :| w in pool.busy && pool.busy[w] == i;
      assert after.busy[w] == i;
    }
    assert Filed(batch, after);
  }

  lemma FinishKeepsFiled(batch: Batch, pool: Pool, worker: int, result: Scanned)
    requires Valid(batch, pool) && Enabled(batch, pool, Finish(worker, result))
    ensures
      var after := Next(pool, Finish(worker, result));
      && |after.reports| == |after.errors| == batch.count
      && Filed(batch, after)
  {
    var after, index := Next(pool, Finish(worker, result)), pool.busy[worker];
    forall i | Busy(pool, i) && i != index
      ensures Busy(after, i)
    {
      var w :| w in pool.busy && pool.busy[w] == i;
      assert after.busy[w] == i;
    }
  }

  lemma StepKeepsValid(batch: Batch, pool: Pool, step: Step)
    requires Valid(batch, pool) && Enabled(batch, pool, step)
    ensures Valid(batch, Next(pool, step))
  {
    match step
    case Dispatch(worker) => DispatchKeepsValid(batch, pool, worker);
    case Finish(worker, result) => FinishKeepsFiled(batch, pool, worker, result);
    case Cancel => assert forall i :: Busy(Next(pool, step), i) ==> Busy(pool, i);
    case StopDispatch => assert forall i :: Busy(pool, i) ==> Busy(Next(pool, step), i);
  }

  lemma {:induction false} RunsKeepValid(batch: Batch, steps: seq<Step>)
    requires Runs(batch, steps)
    ensures Valid(batch, After(batch, steps))
  {
    if steps != [] {
      RunsKeepValid(batch, steps[..|steps| - 1]);
      StepKeepsValid(batch, After(batch, steps[..|steps| - 1]), steps[|steps| - 1]);
    }
  }

  /**
   However the steps interleave: a batch that was not canceled has scanned every target exactly once, and holds each
   target's own report and failure at the target's place.
   */
  lemma UncanceledBatch(batch: Batch, steps: seq<Step>)
    requires Runs(batch, steps) && Over(batch, After(batch, steps)) && !After(batch, steps).canceled
    ensures
      var pool := After(batch, steps);
      && pool.scans == seq(batch.count, i => i)
      && pool.reports == seq(batch.count, i requires 0 <= i < batch.count => batch.scan(i).report)
      && pool.errors == seq(batch.count, i requires 0 <= i < batch.count => batch.scan(i).failure)
  {
    RunsKeepValid(batch, steps);
    var pool := After(batch, steps);
    forall i | 0 <= i < batch.count
      ensures !Busy(pool, i)
    {
    }
  }

  /**
   Canceled or not, the scanned targets are a prefix of the batch, each scanned once, and the entries after it are
   untouched.
   */
  lemma CanceledBatch(batch: Batch, steps: seq<Step>)
    requires Runs(batch, steps) && Over(batch, After(batch, steps))
    ensures
      var pool := After(batch, steps);
      && 0 <= pool.next <= batch.count
      && pool.scans == seq(pool.next, i => i)
      && |pool.reports| == |pool.errors| == batch.count
      && (forall i :: pool.next <= i < batch.count ==> pool.reports[i] == Blank && pool.errors[i] == None)
      && (pool.next < batch.count ==> pool.canceled)
  {
    RunsKeepValid(batch, steps);
  }

  // ----- The batch ends -----

  /** How many steps a run can still take: each target is handed out and finished once. */
  function Remaining(batch: Batch, pool: Pool): int {
    2 * (batch.count - pool.next) + |pool.busy| + (if pool.canceled then 0 else 1) + (if pool.stopped then 0 else 1)
  }

  lemma OneMoreBusy(busy: map<int, int>, worker: int, index: int)
    requires worker !in busy
    ensures |busy[worker := index]| == |busy| + 1
  {
    assert busy[worker := index].Keys == busy.Keys + {worker};
    assert |busy[worker := index].Keys| == |busy[worker := index]| && |busy.Keys| == |busy|;
  }

  lemma OneFewerBusy(busy: map<int, int>, worker: int)
    requires worker in busy
    ensures |busy - {worker}| == |busy| - 1
  {
    assert (busy - {worker}).Keys == busy.Keys - {worker};
    assert |(busy - {worker}).Keys| == |busy - {worker}| && |busy.Keys| == |busy|;
  }

  lemma StepUsesUp(batch: Batch, pool: Pool, step: Step)
    requires Enabled(batch, pool, step)
    ensures Remaining(batch, Next(pool, step)) < Remaining(batch, pool)
  {
    match step
    case Dispatch(worker) => OneMoreBusy(pool.busy, worker, pool.next);
    case Finish(worker, result) => OneFewerBusy(pool.busy, worker);
    case Cancel =>
    case StopDispatch =>
  }

  /** Every run is finite. */
  lemma {:induction false} RunsAreBounded(batch: Batch, steps: seq<Step>)
    requires Runs(batch, steps)
    ensures |steps| <= 2 * batch.count + 2 - Remaining(batch, After(batch, steps))
    ensures |steps| <= 2 * batch.count + 2
  {
    if steps != [] {
      RunsAreBounded(batch, steps[..|steps| - 1]);
      StepUsesUp(batch, After(batch, steps[..|steps| - 1]), steps[|steps| - 1]);
    }
    RunsKeepValid(batch, steps);
  }

  /** As long as the batch is not over, the dispatcher or a worker can go on: nobody waits for ever. */
  lemma NeverStuck(batch: Batch, steps: seq<Step>) returns (step: Step)
    requires Runs(batch, steps) && !Over(batch, After(batch, steps)) && batch.workers > 0
    ensures Enabled(batch, After(batch, steps), step) && (step.Dispatch? || step.Finish?)
  {
    RunsKeepValid(batch, steps);
    var pool := After(batch, steps);
    if worker :| 0 <= worker < batch.workers && worker in pool.busy {
      step := Finish(worker, batch.scan(pool.busy[worker]));
    } else {
      step := Dispatch(0);
    }
  }

  // ----- The outcome -----

  datatype Outcome = Complete | Partial(failures: seq<TargetError>) | Interrupted(failures: seq<TargetError>)

  /** The failing targets among the first `n`, in the order of the batch. */
  function FailuresOf(errors: seq<Option<string>>, n: nat): seq<TargetError>
    requires n <= |errors|
  {
    if n == 0 then []
    else
      FailuresOf(errors, n - 1)
      + (if errors[n - 1].Some? then [TargetError(n - 1, errors[n - 1].value)] else [])
  }

  /** Gathers the failures once all workers are done. */
  method Summarize(errors: seq<Option<string>>, canceled: bool) returns (outcome: Outcome)
    ensures
      var failures := FailuresOf(errors, |errors|);
      outcome == if canceled then Interrupted(failures) else if failures == [] then Complete else Partial(failures)
  {
    var failures := [];
    for i := 0 to |errors|
      invariant failures == FailuresOf(errors, i)
    {
      if errors[i].Some? {
        failures := failures + [TargetError(i, errors[i].value)];
      }
    }
    if canceled {
      return Interrupted(failures);
    }
    return if |failures| > 0 then Partial(failures) else Complete;
  }

  ghost predicate InOrder(failures: seq<TargetError>, n: int) {
    && (forall i :: 0 <= i < |failures| ==> failures[i].index < n)
    && (forall i, j :: 0 <= i < j < |failures| ==> failures[i].index < failures[j].index)
  }

  /** The failures are listed in input order. */
  lemma {:induction false} FailuresInOrder(errors: seq<Option<string>>, n: nat)
    requires n <= |errors|
    ensures InOrder(FailuresOf(errors, n), n)
  {
    if n > 0 {
      FailuresInOrder(errors, n - 1);
      assert InOrder(FailuresOf(errors, n - 1), n);
    }
  }

  /** A failure is listed exactly when its target's scan failed. */
  lemma {:induction false} FailuresExactly(errors: seq<Option<string>>, n: nat)
    requires n <= |errors|
    ensures forall f :: f in FailuresOf(errors, n)
                <==> 0 <= f.index < n && errors[f.index] == Some(f.failure)
  {
    if n > 0 {
      FailuresExactly(errors, n - 1);
    }
  }

  /** So the outcome of a batch that was not canceled is a function of its targets alone. */
  lemma OutcomeIsDetermined(batch: Batch, steps: seq<Step>, others: seq<Step>)
    requires Runs(batch, steps) && Over(batch, After(batch, steps)) && !After(batch, steps).canceled
    requires Runs(batch, others) && Over(batch, After(batch, others)) && !After(batch, others).canceled
    ensures After(batch, steps).reports == After(batch, others).reports
    ensures After(batch, steps).errors == After(batch, others).errors
  {
    UncanceledBatch(batch, steps);
    UncanceledBatch(batch, others);
  }
}
