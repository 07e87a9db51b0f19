/**
 A whole scan of one target: candidates in order, and after each one everything that its pages put in the queue.
 Whatever the server answers, the scan ends, fetches each URL at most once, and stops with the fetch that trips a
 limit.
 */
module CrawlRun {
  import opened Wrappers
  import opened CrawlModel

  /** Where the scan is: the queue, the fetches so far, and how often it looked whether it was canceled. */
  datatype Scan = Scan(frontier: Frontier, trace: seq<Candidate>, polls: int)

  datatype Outcome = Canceled | Stopped | Finished

  /** Fetching one URL that was not tested before. */
  function Fetch(config: Config, scan: Scan, candidate: Candidate): Scan {
    Scan(Followed(Tested(scan.frontier, candidate.url), config, candidate, config.web(|scan.trace|)),
         scan.trace + [candidate], scan.polls)
  }

  /** A URL that was tested already is only taken off the marks. */
  function Process(config: Config, scan: Scan, candidate: Candidate): Scan {
    if candidate.url in scan.frontier.tested then
      scan.(frontier := scan.frontier.(queued := scan.frontier.queued - {candidate.url}))
    else Fetch(config, scan, candidate)
  }

  predicate Limited(config: Config, scan: Scan) {
    TrippedAfter(config, |scan.trace|)
  }

  /** After each URL: was the scan canceled, and was a limit reached? A limit drops the queue. */
  function Check(config: Config, scan: Scan): (Scan, Option<Outcome>) {
    var polled := scan.(polls := scan.polls + 1);
    if config.canceled(scan.polls) then (polled, Some(Canceled))
    else if Limited(config, scan) then (polled.(frontier := scan.frontier.(queue := [])), Some(Stopped))
    else (polled, None)
  }

  function Popped(scan: Scan): Scan
    requires scan.frontier.queue != []
  {
    scan.(frontier := scan.frontier.(queue := scan.frontier.queue[1..]))
  }

  // ----- What every fetch keeps -----

  /** The trace has distinct URLs at depths up to three, and they are the tested ones. */
  ghost predicate TraceOf(trace: seq<Candidate>, tested: set<Url>) {
    && (forall i, j :: 0 <= i < j < |trace| ==> trace[i].url != trace[j].url)
    && (forall i :: 0 <= i < |trace| ==> trace[i].url in tested && 0 <= trace[i].depth <= MAX_REFERENCE_DEPTH)
    && |tested| == |trace|
  }

  /** No limit was reached before the fetch number `n`. */
  ghost predicate Unlimited(config: Config, n: nat) {
    forall k :: 0 <= k < n ==> !TrippedAfter(config, k)
  }

  /** The candidates are known, and whatever else is known is tested or queued. */
  ghost predicate Covers(f: Frontier, candidates: seq<Url>) {
    && (forall u :: u in candidates ==> u in f.known)
    && (forall u :: u in f.known ==> u in f.tested || u in f.queued || u in candidates)
  }

  /** What holds wherever the scan is, and wherever it ends. */
  ghost predicate Safe(config: Config, scan: Scan) {
    && TraceOf(scan.trace, scan.frontier.tested)
    && Unlimited(config, |scan.trace|)
    && scan.frontier.tested <= scan.frontier.known && |scan.frontier.known| <= config.max
  }

  /** What holds between two fetches. */
  ghost predicate Good(config: Config, scan: Scan) {
    Safe(config, scan) && Sound(scan.frontier, config.max) && Covers(scan.frontier, config.candidates)
  }

  lemma TraceLonger(trace: seq<Candidate>, tested: set<Url>, candidate: Candidate)
    requires TraceOf(trace, tested) && candidate.url !in tested && 0 <= candidate.depth <= MAX_REFERENCE_DEPTH
    ensures TraceOf(trace + [candidate], tested + {candidate.url})
  {
  }

  lemma UnlimitedLonger(config: Config, n: nat)
    requires Unlimited(config, n) && !TrippedAfter(config, n)
    ensures Unlimited(config, n + 1)
  {
  }

  lemma StillCovers(before: Frontier, url: Url, after: Frontier, candidates: seq<Url>)
    requires Covers(before, candidates) && Grows(Tested(before, url), after)
    ensures Covers(after, candidates)
  {
  }

  /** Fetching an untested URL that is not in the queue keeps everything. */
  lemma FetchGood(config: Config, scan: Scan, candidate: Candidate)
    requires Safe(config, scan) && !Limited(config, scan) && Covers(scan.frontier, config.candidates)
    requires Sound(Tested(scan.frontier, candidate.url), config.max)
    requires candidate.url !in scan.frontier.tested && 0 <= candidate.depth <= MAX_REFERENCE_DEPTH
    ensures Good(config, Fetch(config, scan, candidate))
    ensures Fetch(config, scan, candidate).frontier.tested == scan.frontier.tested + {candidate.url}
  {
    var page := config.web(|scan.trace|);
    var before := Tested(scan.frontier, candidate.url);
    var after := Followed(before, config, candidate, page);
    assert Sound(after, config.max) && Grows(before, after) by {
      FollowedSound(before, config, candidate, page);
    }
    UnlimitedLonger(config, |scan.trace|);
    StillCovers(scan.frontier, candidate.url, after, config.candidates);
    TraceLonger(scan.trace, scan.frontier.tested, candidate);
  }

  lemma PoppedSound(f: Frontier, max: int)
    requires Sound(f, max) && f.queue != []
    ensures f.queue[0].url !in f.tested && f.queue[0].url in f.known
    ensures 0 <= f.queue[0].depth <= MAX_REFERENCE_DEPTH
    ensures Sound(Tested(f.(queue := f.queue[1..]), f.queue[0].url), max)
  {
    assert f.queue[0] in f.queue;
    UrlsPopped(f.queue);
    assert f.queue[0].url in f.known;
    assert Tested(f, f.queue[0].url).known == f.known;
  }

  /** What holds when the scan ends early. */
  ghost predicate Ended(config: Config, scan: Scan, outcome: Outcome) {
    && Safe(config, scan)
    && outcome != Finished
    && (outcome == Stopped ==> Limited(config, scan) && scan.frontier.queue == [])
  }

  lemma CheckGood(config: Config, scan: Scan)
    requires Good(config, scan)
    ensures
      var (checked, outcome) := Check(config, scan);
      && (outcome.None? ==> Good(config, checked) && !Limited(config, checked))
      && (outcome.Some? ==> Ended(config, checked, outcome.value))
      && checked.frontier.tested == scan.frontier.tested
  {
  }

  /** Taking the first URL off the queue, fetching it, and checking. */
  lemma DrainStep(config: Config, scan: Scan)
    requires Good(config, scan) && scan.frontier.queue != [] && !Limited(config, scan)
    ensures
      var fetched := Process(config, Popped(scan), scan.frontier.queue[0]);
      var (checked, outcome) := Check(config, fetched);
      && (outcome.None? ==> Good(config, checked) && !Limited(config, checked))
      && (outcome.Some? ==> Ended(config, checked, outcome.value))
      && checked.frontier.tested == scan.frontier.tested + {scan.frontier.queue[0].url}
      && |scan.frontier.tested| < |checked.frontier.tested| <= config.max
  {
    var candidate := scan.frontier.queue[0];
    PoppedSound(scan.frontier, config.max);
    FetchGood(config, Popped(scan), candidate);
    var fetched := Fetch(config, Popped(scan), candidate);
    assert Process(config, Popped(scan), candidate) == fetched;
    SubsetSize(fetched.frontier.tested, fetched.frontier.known);
    CheckGood(config, fetched);
  }

  lemma SubsetSize<T>(a: set<T>, b: set<T>)
    requires a <= b
    ensures |a| <= |b|
  {
    if a != {} {
      var x :| x in a;
      SubsetSize(a - {x}, b - {x});
    }
  }

  /** Works through the queue until it is empty or the scan ends. */
  function Drain(config: Config, scan: Scan): (Scan, Option<Outcome>)
    requires Good(config, scan) && !Limited(config, scan)
    decreases config.max - |scan.frontier.tested|
  {
    if scan.frontier.queue == [] then (scan, None)
    else
      DrainStep(config, scan);
      var (checked, outcome) := Check(config, Process(config, Popped(scan), scan.frontier.queue[0]));
      if outcome.Some? then (checked, outcome) else Drain(config, checked)
  }

  lemma {:induction false} DrainGood(config: Config, scan: Scan)
    requires Good(config, scan) && !Limited(config, scan)
    ensures
      var (after, outcome) := Drain(config, scan);
      && (outcome.None? ==> Good(config, after) && !Limited(config, after) && after.frontier.queue == [])
      && (outcome.Some? ==> Ended(config, after, outcome.value))
      && scan.frontier.tested <= after.frontier.tested
    decreases config.max - |scan.frontier.tested|
  {
    if scan.frontier.queue != [] {
      DrainStep(config, scan);
      var (checked, outcome) := Check(config, Process(config, Popped(scan), scan.frontier.queue[0]));
      if outcome.None? {
        DrainGood(config, checked);
      }
    }
  }

  // ----- The whole scan -----

  /** Whether one of the first `n` pages holds a specification. */
  predicate AnySpec(config: Config, n: nat) {
    exists i :: 0 <= i < n && HasSpec(config.web(i))
  }

  /** Fetching the candidate at `index`, and checking. */
  function Turn(config: Config, scan: Scan, index: nat): (Scan, Option<Outcome>)
    requires index < |config.candidates|
  {
    var polled := scan.(polls := scan.polls + 1);
    if config.canceled(scan.polls) then (polled, Some(Canceled))
    else Check(config, Process(config, polled, Candidate(config.candidates[index], 0)))
  }

  lemma ProcessGood(config: Config, scan: Scan, candidate: Candidate)
    requires Good(config, scan) && !Limited(config, scan) && scan.frontier.queue == []
    requires candidate.url in config.candidates && candidate.depth == 0
    ensures Good(config, Process(config, scan, candidate))
    ensures Process(config, scan, candidate).frontier.tested == scan.frontier.tested + {candidate.url}
  {
    var f := scan.frontier;
    assert f.queued == {};
    if candidate.url in f.tested {
      assert Process(config, scan, candidate) == scan;
    } else {
      assert Tested(f, candidate.url) == f.(tested := f.tested + {candidate.url});
      FetchGood(config, scan, candidate);
    }
  }

  lemma TurnGood(config: Config, scan: Scan, index: nat)
    requires Good(config, scan) && !Limited(config, scan) && scan.frontier.queue == []
    requires index < |config.candidates|
    ensures
      var (after, outcome) := Turn(config, scan, index);
      && (outcome.None? ==> Good(config, after) && !Limited(config, after)
                            && config.candidates[index] in after.frontier.tested)
      && (outcome.Some? ==> Ended(config, after, outcome.value))
      && scan.frontier.tested <= after.frontier.tested
  {
    var polled, candidate := scan.(polls := scan.polls + 1), Candidate(config.candidates[index], 0);
    assert Good(config, polled);
    var after := Turn(config, scan, index).0;
    if config.canceled(scan.polls) {
      assert after == polled;
    } else {
      ProcessGood(config, polled, candidate);
      CheckGood(config, Process(config, polled, candidate));
      assert after.frontier.tested == scan.frontier.tested + {candidate.url};
    }
  }

  /** One candidate and all that it puts in the queue; after a specification the rest need not be tried. */
  function Round(config: Config, scan: Scan, index: nat): (Scan, Option<Outcome>)
    requires Good(config, scan) && !Limited(config, scan) && scan.frontier.queue == [] && index < |config.candidates|
  {
    TurnGood(config, scan, index);
    var (turned, stopped) := Turn(config, scan, index);
    if stopped.Some? then (turned, stopped)
    else
      var (drained, ended) := Drain(config, turned);
      if ended.Some? then (drained, ended)
      else (drained, if AnySpec(config, |drained.trace|) && index >= config.priority then Some(Finished) else None)
  }

  /** The candidates before `index` were fetched. */
  ghost predicate TestedUpTo(config: Config, scan: Scan, index: nat)
    requires index <= |config.candidates|
  {
    forall k :: 0 <= k < index ==> config.candidates[k] in scan.frontier.tested
  }

  /** Ready for the candidate at `index`: the queue is empty, and the candidates before it were fetched. */
  ghost predicate Resumable(config: Config, scan: Scan, index: nat) {
    && index <= |config.candidates|
    && Good(config, scan) && !Limited(config, scan) && scan.frontier.queue == []
    && TestedUpTo(config, scan, index)
  }

  // Rounds in general: what one round keeps, all of them keep.

  /** Rounds from `index` to `n`, until one of them ends the scan. */
  function Rounds<S>(round: (S, int) -> (S, Option<Outcome>), s: S, index: int, n: int): (S, Outcome)
    decreases n - index
  {
    if index >= n then (s, Finished)
    else
      var (after, outcome) := round(s, index);
      if outcome.Some? then (after, outcome.value) else Rounds(round, after, index + 1, n)
  }

  /** A round either ends the scan in a state that is `over`, or goes on from one that is ready for the next. */
  predicate RoundKeeps<S>(round: (S, int) -> (S, Option<Outcome>), ready: (S, int) -> bool,
                          over: (S, Outcome) -> bool, s: S, index: int)
  {
    var (after, outcome) := round(s, index);
    match outcome case None => ready(after, index + 1) case Some(o) => over(after, o)
  }

  lemma {:induction false} RoundsKeep<S(!new)>(round: (S, int) -> (S, Option<Outcome>), ready: (S, int) -> bool,
                                               over: (S, Outcome) -> bool, s: S, index: int, n: int)
    requires index <= n && ready(s, index)
    requires forall x, i :: i < n && ready(x, i) ==> RoundKeeps(round, ready, over, x, i)
    requires forall x :: ready(x, n) ==> over(x, Finished)
    ensures over(Rounds(round, s, index, n).0, Rounds(round, s, index, n).1)
    decreases n - index
  {
    if index < n {
      assert RoundKeeps(round, ready, over, s, index);
      var (after, outcome) := round(s, index);
      if outcome.None? {
        RoundsKeep(round, ready, over, after, index + 1, n);
      }
    }
  }

  /** The round of a scan, where there is one. */
  ghost function RoundOf(config: Config): (Scan, int) -> (Scan, Option<Outcome>) {
    (scan: Scan, index: int) =>
      if 0 <= index < |config.candidates| && Resumable(config, scan, index) then Round(config, scan, index)
      else (scan, None)
  }

  /** From the candidate at `index` on, with an empty queue. */
  ghost function ScanFrom(config: Config, scan: Scan, index: nat): (Scan, Outcome) {
    Rounds(RoundOf(config), scan, index, |config.candidates|)
  }

  /** Either every known URL was fetched, or a specification was found and all priority candidates were fetched. */
  ghost predicate Complete(config: Config, scan: Scan) {
    && Safe(config, scan) && !Limited(config, scan)
    && (|| scan.frontier.known == scan.frontier.tested
        || (&& AnySpec(config, |scan.trace|)
            && forall k :: 0 <= k <= config.priority && k < |config.candidates|
                   ==> config.candidates[k] in scan.frontier.tested))
  }

  ghost predicate Settled(config: Config, scan: Scan, outcome: Outcome) {
    if outcome == Finished then Complete(config, scan) else Ended(config, scan, outcome)
  }

  lemma TestedFurther(config: Config, scan: Scan, after: Scan, index: nat)
    requires index < |config.candidates| && TestedUpTo(config, scan, index)
    requires scan.frontier.tested <= after.frontier.tested && config.candidates[index] in after.frontier.tested
    ensures TestedUpTo(config, after, index + 1)
  {
  }

  /** The early end: the priority candidates come first in the list. */
  lemma EarlyComplete(config: Config, scan: Scan, index: nat)
    requires Good(config, scan) && !Limited(config, scan) && scan.frontier.queue == []
    requires index < |config.candidates| && TestedUpTo(config, scan, index + 1)
    requires AnySpec(config, |scan.trace|) && index >= config.priority
    ensures Complete(config, scan)
  {
  }

  lemma AllKnownTested(config: Config, scan: Scan)
    requires Good(config, scan) && scan.frontier.queue == [] && TestedUpTo(config, scan, |config.candidates|)
    ensures scan.frontier.known == scan.frontier.tested
  {
  }

  /** A round put together from its turn and what came of the queue. */
  lemma RoundFrom(config: Config, scan: Scan, index: nat, turned: Scan, drained: Scan, ended: Option<Outcome>)
    requires Resumable(config, scan, index) && index < |config.candidates|
    requires Turn(config, scan, index) == (turned, None)
    ensures Good(config, turned) && !Limited(config, turned)
    ensures (drained, ended) == Drain(config, turned) ==>
              Round(config, scan, index)
              == if ended.Some? then (drained, ended)
                 else if AnySpec(config, |drained.trace|) && index >= config.priority then (drained, Some(Finished))
                 else (drained, None)
  {
    TurnGood(config, scan, index);
  }

  /** The queue is worked through: on to the next candidate, or the end. */
  lemma DrainedGood(config: Config, scan: Scan, drained: Scan, index: nat)
    requires Resumable(config, scan, index) && index < |config.candidates|
    requires Good(config, drained) && !Limited(config, drained) && drained.frontier.queue == []
    requires scan.frontier.tested <= drained.frontier.tested
    requires config.candidates[index] in drained.frontier.tested
    ensures Resumable(config, drained, index + 1)
    ensures AnySpec(config, |drained.trace|) && index >= config.priority ==> Settled(config, drained, Finished)
  {
    TestedFurther(config, scan, drained, index);
    if AnySpec(config, |drained.trace|) && index >= config.priority {
      EarlyComplete(config, drained, index);
    }
  }

  lemma RoundGood(config: Config, scan: Scan, index: nat)
    requires Resumable(config, scan, index) && index < |config.candidates|
    ensures
      var (after, outcome) := Round(config, scan, index);
      && (outcome.Some? ==> Settled(config, after, outcome.value))
      && (outcome.None? ==> Resumable(config, after, index + 1))
  {
    TurnGood(config, scan, index);
    var (turned, stopped) := Turn(config, scan, index);
    if stopped.None? {
      DrainGood(config, turned);
      var (drained, ended) := Drain(config, turned);
      if ended.None? {
        DrainedGood(config, scan, drained, index);
      }
    }
  }

  ghost function IsResumable(config: Config): (Scan, int) -> bool {
    (scan: Scan, index: int) => index >= 0 && Resumable(config, scan, index)
  }

  ghost function IsSettled(config: Config): (Scan, Outcome) -> bool {
    (scan: Scan, outcome: Outcome) => Settled(config, scan, outcome)
  }

  lemma RoundOfKeeps(config: Config, scan: Scan, index: int)
    requires index < |config.candidates| && IsResumable(config)(scan, index)
    ensures RoundKeeps(RoundOf(config), IsResumable(config), IsSettled(config), scan, index)
  {
    RoundGood(config, scan, index);
  }

  /** What a round means for the rest of the scan. */
  lemma ScanFromStep(config: Config, scan: Scan, index: nat, after: Scan, outcome: Option<Outcome>)
    requires Resumable(config, scan, index) && index < |config.candidates|
    requires (after, outcome) == Round(config, scan, index)
    ensures outcome.Some? ==> ScanFrom(config, scan, index) == (after, outcome.value)
    ensures outcome.None? ==>
              Resumable(config, after, index + 1) && ScanFrom(config, scan, index) == ScanFrom(config, after, index + 1)
  {
    RoundGood(config, scan, index);
    assert RoundOf(config)(scan, index) == (after, outcome);
  }

  /** However far the scan has come, it ends settled. */
  lemma ScanFromGood(config: Config, scan: Scan, index: nat)
    requires Resumable(config, scan, index)
    ensures Settled(config, ScanFrom(config, scan, index).0, ScanFrom(config, scan, index).1)
  {
    var n := |config.candidates|;
    forall x, i | i < n && IsResumable(config)(x, i)
      ensures RoundKeeps(RoundOf(config), IsResumable(config), IsSettled(config), x, i)
    {
      RoundOfKeeps(config, x, i);
    }
    forall x | IsResumable(config)(x, n)
      ensures IsSettled(config)(x, Finished)
    {
      AllKnownTested(config, x);
    }
    RoundsKeep(RoundOf(config), IsResumable(config), IsSettled(config), scan, index, n);
    assert IsSettled(config)(ScanFrom(config, scan, index).0, ScanFrom(config, scan, index).1);
  }

  function Start(config: Config): Scan {
    Scan(Frontier({}, set u | u in config.candidates, {}, [], 0), [], 0)
  }

  lemma {:induction false} DistinctCount<T>(values: seq<T>)
    requires forall i, j :: 0 <= i < j < |values| ==> values[i] != values[j]
    ensures |set v | v in values| == |values|
  {
    if values != [] {
      var front, last := values[..|values| - 1], values[|values| - 1];
      DistinctCount(front);
      assert values == front + [last];
      assert (set v | v in values) == (set v | v in front) + {last};
    }
  }

  lemma StartGood(config: Config)
    requires Prepared(config)
    ensures Good(config, Start(config)) && !Limited(config, Start(config))
  {
    DistinctCount(config.candidates);
  }

  ghost function WholeScan(config: Config): (Scan, Outcome) {
    ScanFrom(config, Start(config), 0)
  }

  /**
   Whatever the server answers and whenever it is canceled, the scan ends, and then: the fetched URLs are distinct and
   no more than the maximum, none deeper than three references; no limit was reached before the last fetch; and it
   ended because it was canceled, because the last fetch tripped a limit, or because it was complete.
   */
  lemma ScanIsSafe(config: Config)
    requires Prepared(config)
    ensures
      var (scan, outcome) := WholeScan(config);
      && TraceOf(scan.trace, scan.frontier.tested)
      && |scan.trace| <= |scan.frontier.known| <= config.max
      && Unlimited(config, |scan.trace|)
      && (outcome == Stopped ==> Limited(config, scan))
      && (outcome == Finished ==> Complete(config, scan))
  {
    StartGood(config);
    ScanFromGood(config, Start(config), 0);
    var (scan, outcome) := WholeScan(config);
    SubsetSize(scan.frontier.tested, scan.frontier.known);
  }
}
