/**
 What a scan does not miss: every reference of an interesting page and every variation of a specification's path
 becomes known, unless the scan knows as many URLs as it may; and a scan that runs out of work has fetched them.
 */
module CrawlReach {
  import opened CrawlModel
  import opened CrawlRun

  /** The URLs a page leads to, that are not too deep. */
  predicate Wanted(config: Config, parent: Candidate, page: Page, url: Url) {
    || (HasSpec(page) && url in config.variations(parent.url))
    || (IsInteresting(page) && parent.depth < MAX_REFERENCE_DEPTH && url in page.references)
  }

  /** The URL is known, or nothing more may become known. */
  predicate Reached(f: Frontier, max: int, url: Url) {
    url in f.known || |f.known| >= max
  }

  // ----- What a scan leaves out -----

  /** How many of the URLs are not known. */
  function Missing(urls: seq<Url>, known: set<Url>): nat {
    if urls == [] then 0
    else Missing(urls[..|urls| - 1], known) + (if urls[|urls| - 1] in known then 0 else 1)
  }

  /** What a page leads to and the scan leaves out: what is too deep, and what is not known. */
  function Skips(config: Config, parent: Candidate, page: Page, known: set<Url>): int {
    if HasSpec(page) then Missing(config.variations(parent.url), known)
    else if !IsInteresting(page) then 0
    else if parent.depth < MAX_REFERENCE_DEPTH then page.skipped + Missing(page.references, known)
    else page.skipped + |page.references|
  }

  function AllSkips(config: Config, trace: seq<Candidate>, known: set<Url>): int {
    if trace == [] then 0
    else
      var last := |trace| - 1;
      AllSkips(config, trace[..last], known) + Skips(config, trace[last], config.web(last), known)
  }

  lemma {:induction false} MissingSame(urls: seq<Url>, before: set<Url>, after: set<Url>)
    requires before <= after && (before == after || forall u :: u in urls ==> u in before)
    ensures Missing(urls, before) == Missing(urls, after)
  {
    if urls != [] {
      MissingSame(urls[..|urls| - 1], before, after);
    }
  }

  /** What was left out stays left out. */
  lemma {:induction false} AllSkipsSame(config: Config, trace: seq<Candidate>, before: set<Url>, after: set<Url>)
    requires before <= after
    requires before == after
          || forall i, url :: 0 <= i < |trace| && Wanted(config, trace[i], config.web(i), url) ==> url in before
    ensures AllSkips(config, trace, before) == AllSkips(config, trace, after)
  {
    if trace != [] {
      var last := |trace| - 1;
      var parent, page := trace[last], config.web(last);
      forall i, url | before != after && 0 <= i < last && Wanted(config, trace[..last][i], config.web(i), url)
        ensures url in before
      {
        assert Wanted(config, trace[i], config.web(i), url);
      }
      AllSkipsSame(config, trace[..last], before, after);
      assert before != after ==> forall url :: Wanted(config, parent, page, url) ==> url in before;
      if HasSpec(page) {
        MissingSame(config.variations(parent.url), before, after);
      } else if IsInteresting(page) && parent.depth < MAX_REFERENCE_DEPTH {
        MissingSame(page.references, before, after);
      }
    }
  }

  /**
   The candidates are known, what the fetched pages lead to is reached, and what they lead to and is left out was
   counted as skipped.
   */
  ghost predicate AllReached(config: Config, scan: Scan) {
    && (forall u :: u in config.candidates ==> u in scan.frontier.known)
    && (forall i, url :: 0 <= i < |scan.trace| && Wanted(config, scan.trace[i], config.web(i), url) ==>
          Reached(scan.frontier, config.max, url))
    && scan.frontier.skipped == AllSkips(config, scan.trace, scan.frontier.known)
  }

  lemma StillReached(before: Frontier, after: Frontier, max: int, url: Url)
    requires before.known <= after.known && Reached(before, max, url)
    ensures Reached(after, max, url)
  {
    SubsetSize(before.known, after.known);
  }

  lemma QueueReaches(f: Frontier, max: int, candidate: Candidate)
    requires Sound(f, max)
    ensures Reached(Queue(f, max, candidate), max, candidate.url)
  {
  }

  lemma {:induction false} ReferencesReached(f: Frontier, max: int, urls: seq<Url>, depth: int, url: Url)
    requires Sound(f, max) && 0 <= depth <= MAX_REFERENCE_DEPTH && url in urls
    ensures Reached(References(f, max, urls, depth), max, url)
  {
    var rest, last := urls[..|urls| - 1], urls[|urls| - 1];
    var front := References(f, max, rest, depth);
    ReferencesSound(f, max, rest, depth);
    if url == last {
      QueueReaches(front, max, Candidate(last, depth));
    } else {
      ReferencesReached(f, max, rest, depth, url);
      QueueSound(front, max, Candidate(last, depth));
      StillReached(front, Queue(front, max, Candidate(last, depth)), max, url);
    }
  }

  lemma {:induction false} VariationsReached(f: Frontier, max: int, urls: seq<Url>, depth: int, url: Url)
    requires Sound(f, max) && 0 <= depth <= MAX_REFERENCE_DEPTH && url in urls
    ensures Reached(Variations(f, max, urls, depth), max, url)
  {
    var rest, last := urls[..|urls| - 1], urls[|urls| - 1];
    var front := Variations(f, max, rest, depth);
    VariationsSound(f, max, rest, depth);
    if url == last {
      QueueReaches(front, max, Candidate(last, depth));
    } else {
      VariationsReached(f, max, rest, depth, url);
      VariationSound(front, max, last, depth);
      StillReached(front, Variation(front, max, last, depth), max, url);
    }
  }

  /** A page makes known what it leads to. */
  lemma FollowedReaches(f: Frontier, config: Config, parent: Candidate, page: Page, url: Url)
    requires Sound(f, config.max) && 0 <= parent.depth <= MAX_REFERENCE_DEPTH && Wanted(config, parent, page, url)
    ensures Reached(Followed(f, config, parent, page), config.max, url)
  {
    var after := Followed(f, config, parent, page);
    if HasSpec(page) {
      var urls := config.variations(parent.url);
      assert after == Variations(f, config.max, urls, parent.depth);
      VariationsReached(f, config.max, urls, parent.depth, url);
    } else {
      var skipped := f.(skipped := f.skipped + page.skipped);
      assert after == References(skipped, config.max, page.references, parent.depth + 1);
      SkippedSound(f, config.max, f.skipped + page.skipped);
      ReferencesReached(skipped, config.max, page.references, parent.depth + 1, url);
    }
  }

  /** One URL more: it is known then, or it was counted as skipped. */
  lemma QueueSkips(f: Frontier, max: int, candidate: Candidate)
    requires Sound(f, max)
    ensures
      var after := Queue(f, max, candidate);
      && f.known <= after.known && (after.known == f.known || |f.known| < max)
      && after.skipped == f.skipped + Missing([candidate.url], after.known)
  {
    assert Missing([], Queue(f, max, candidate).known) == 0;
  }

  lemma {:induction false} ReferencesSkip(f: Frontier, max: int, urls: seq<Url>, depth: int)
    requires Sound(f, max) && 0 <= depth <= MAX_REFERENCE_DEPTH
    ensures References(f, max, urls, depth).skipped == f.skipped + Missing(urls, References(f, max, urls, depth).known)
  {
    if urls != [] {
      var rest, last := urls[..|urls| - 1], urls[|urls| - 1];
      var front := References(f, max, rest, depth);
      ReferencesSkip(f, max, rest, depth);
      ReferencesSound(f, max, rest, depth);
      QueueSkips(front, max, Candidate(last, depth));
      var after := Queue(front, max, Candidate(last, depth));
      forall u | u in rest && |front.known| < max
        ensures u in front.known
      {
        ReferencesReached(f, max, rest, depth, u);
      }
      MissingSame(rest, front.known, after.known);
      MissingOne(last, after.known);
    }
  }

  lemma MissingOne(url: Url, known: set<Url>)
    ensures Missing([url], known) == if url in known then 0 else 1
  {
    assert Missing([], known) == 0;
  }

  lemma {:induction false} VariationsSkip(f: Frontier, max: int, urls: seq<Url>, depth: int)
    requires Sound(f, max) && 0 <= depth <= MAX_REFERENCE_DEPTH
    ensures Variations(f, max, urls, depth).skipped == f.skipped + Missing(urls, Variations(f, max, urls, depth).known)
  {
    if urls != [] {
      var rest, last := urls[..|urls| - 1], urls[|urls| - 1];
      var front := Variations(f, max, rest, depth);
      VariationsSkip(f, max, rest, depth);
      VariationsSound(f, max, rest, depth);
      QueueSkips(front, max, Candidate(last, depth));
      var after := Variation(front, max, last, depth);
      forall u | u in rest && |front.known| < max
        ensures u in front.known
      {
        VariationsReached(f, max, rest, depth, u);
      }
      MissingSame(rest, front.known, after.known);
      MissingOne(last, after.known);
    }
  }

  lemma {:induction false} TooDeep(f: Frontier, max: int, urls: seq<Url>, depth: int)
    requires depth > MAX_REFERENCE_DEPTH
    ensures References(f, max, urls, depth) == f.(skipped := f.skipped + |urls|)
  {
    if urls != [] {
      TooDeep(f, max, urls[..|urls| - 1], depth);
    }
  }

  lemma FollowedSkips(f: Frontier, config: Config, parent: Candidate, page: Page)
    requires Sound(f, config.max) && 0 <= parent.depth <= MAX_REFERENCE_DEPTH
    ensures
      var after := Followed(f, config, parent, page);
      after.skipped == f.skipped + Skips(config, parent, page, after.known)
  {
    if HasSpec(page) {
      VariationsSkip(f, config.max, config.variations(parent.url), parent.depth);
    } else if IsInteresting(page) {
      var skipped := f.(skipped := f.skipped + page.skipped);
      SkippedSound(f, config.max, f.skipped + page.skipped);
      if parent.depth < MAX_REFERENCE_DEPTH {
        ReferencesSkip(skipped, config.max, page.references, parent.depth + 1);
      } else {
        TooDeep(skipped, config.max, page.references, parent.depth + 1);
      }
    }
  }

  lemma ProperSubsetSize(small: set<Url>, large: set<Url>)
    requires small < large
    ensures |small| < |large|
  {
    var u :| u in large && u !in small;
    SubsetSize(small + {u}, large);
  }

  /** Once something is left out, the scan knows as many URLs as it ever will. */
  lemma LeftOutStays(config: Config, scan: Scan, known: set<Url>)
    requires AllReached(config, scan) && scan.frontier.known <= known && |known| <= config.max
    ensures AllSkips(config, scan.trace, known) == scan.frontier.skipped
  {
    var before := scan.frontier.known;
    forall i, url | before != known && 0 <= i < |scan.trace| && Wanted(config, scan.trace[i], config.web(i), url)
      ensures url in before
    {
      assert Reached(scan.frontier, config.max, url);
      ProperSubsetSize(before, known);
    }
    AllSkipsSame(config, scan.trace, before, known);
  }

  lemma OneMoreSkips(config: Config, trace: seq<Candidate>, candidate: Candidate, known: set<Url>)
    ensures AllSkips(config, trace + [candidate], known)
            == AllSkips(config, trace, known) + Skips(config, candidate, config.web(|trace|), known)
  {
    assert (trace + [candidate])[..|trace|] == trace;
  }

  /** A fetch counts what its page leads to and is left out. */
  lemma FetchSkips(config: Config, scan: Scan, candidate: Candidate, known: set<Url>)
    requires AllReached(config, scan) && known == Fetch(config, scan, candidate).frontier.known
    requires Sound(Tested(scan.frontier, candidate.url), config.max)
    requires 0 <= candidate.depth <= MAX_REFERENCE_DEPTH
    ensures Fetch(config, scan, candidate).frontier.skipped == AllSkips(config, scan.trace + [candidate], known)
  {
    var before, page := Tested(scan.frontier, candidate.url), config.web(|scan.trace|);
    FollowedSound(before, config, candidate, page);
    FollowedSkips(before, config, candidate, page);
    LeftOutStays(config, scan, known);
    OneMoreSkips(config, scan.trace, candidate, known);
  }

  lemma FetchReaches(config: Config, scan: Scan, candidate: Candidate)
    requires AllReached(config, scan)
    requires Sound(Tested(scan.frontier, candidate.url), config.max)
    requires 0 <= candidate.depth <= MAX_REFERENCE_DEPTH
    ensures AllReached(config, Fetch(config, scan, candidate))
  {
    var after, page := Fetch(config, scan, candidate), config.web(|scan.trace|);
    var before := Tested(scan.frontier, candidate.url);
    FollowedSound(before, config, candidate, page);
    FetchSkips(config, scan, candidate, after.frontier.known);
    forall i, url | 0 <= i < |after.trace| && Wanted(config, after.trace[i], config.web(i), url)
      ensures Reached(after.frontier, config.max, url)
    {
      if i < |scan.trace| {
        assert Wanted(config, scan.trace[i], config.web(i), url);
        StillReached(scan.frontier, after.frontier, config.max, url);
      } else {
        FollowedReaches(before, config, candidate, page, url);
      }
    }
  }

  /** Where the known URLs, the skipped ones and the trace are the same, so is what was reached. */
  lemma SameReached(config: Config, scan: Scan, after: Scan)
    requires AllReached(config, scan) && after.trace == scan.trace && after.frontier.known == scan.frontier.known
    requires after.frontier.skipped == scan.frontier.skipped
    ensures AllReached(config, after)
  {
    forall i, url | 0 <= i < |after.trace| && Wanted(config, after.trace[i], config.web(i), url)
      ensures Reached(after.frontier, config.max, url)
    {
      assert Reached(scan.frontier, config.max, url);
    }
  }

  lemma CheckReaches(config: Config, scan: Scan)
    requires AllReached(config, scan)
    ensures AllReached(config, Check(config, scan).0)
  {
    SameReached(config, scan, Check(config, scan).0);
  }

  lemma PoppedReaches(config: Config, scan: Scan)
    requires Good(config, scan) && scan.frontier.queue != [] && AllReached(config, scan)
    ensures AllReached(config, Process(config, Popped(scan), scan.frontier.queue[0]))
  {
    PoppedSound(scan.frontier, config.max);
    SameReached(config, scan, Popped(scan));
    FetchReaches(config, Popped(scan), scan.frontier.queue[0]);
  }

  lemma {:induction false} DrainReaches(config: Config, scan: Scan)
    requires Good(config, scan) && !Limited(config, scan) && AllReached(config, scan)
    ensures AllReached(config, Drain(config, scan).0)
    decreases config.max - |scan.frontier.tested|
  {
    if scan.frontier.queue != [] {
      DrainStep(config, scan);
      PoppedReaches(config, scan);
      var processed := Process(config, Popped(scan), scan.frontier.queue[0]);
      CheckReaches(config, processed);
      var (checked, outcome) := Check(config, processed);
      if outcome.None? {
        DrainReaches(config, checked);
      }
    }
  }

  lemma CandidateSound(config: Config, scan: Scan, candidate: Candidate)
    requires Good(config, scan) && scan.frontier.queue == [] && candidate.url in config.candidates
    ensures Sound(Tested(scan.frontier, candidate.url), config.max)
  {
    var f := scan.frontier;
    assert f.queued == {};
    assert Tested(f, candidate.url).known == f.known;
  }

  lemma ProcessReaches(config: Config, scan: Scan, candidate: Candidate)
    requires Good(config, scan) && scan.frontier.queue == [] && AllReached(config, scan)
    requires candidate.url in config.candidates && candidate.depth == 0
    ensures AllReached(config, Process(config, scan, candidate))
  {
    if candidate.url in scan.frontier.tested {
      SameReached(config, scan, Process(config, scan, candidate));
    } else {
      CandidateSound(config, scan, candidate);
      FetchReaches(config, scan, candidate);
    }
  }

  lemma PolledReaches(config: Config, scan: Scan)
    requires Good(config, scan) && AllReached(config, scan)
    ensures Good(config, scan.(polls := scan.polls + 1)) && AllReached(config, scan.(polls := scan.polls + 1))
  {
    SameReached(config, scan, scan.(polls := scan.polls + 1));
  }

  lemma TestReaches(config: Config, scan: Scan, candidate: Candidate)
    requires Good(config, scan) && scan.frontier.queue == [] && AllReached(config, scan)
    requires candidate.url in config.candidates && candidate.depth == 0
    ensures AllReached(config, Check(config, Process(config, scan, candidate)).0)
  {
    ProcessReaches(config, scan, candidate);
    CheckReaches(config, Process(config, scan, candidate));
  }

  lemma TurnReaches(config: Config, scan: Scan, index: nat, after: Scan)
    requires Good(config, scan) && scan.frontier.queue == [] && index < |config.candidates|
    requires AllReached(config, scan) && after == Turn(config, scan, index).0
    ensures AllReached(config, after)
  {
    var polled, candidate := scan.(polls := scan.polls + 1), Candidate(config.candidates[index], 0);
    PolledReaches(config, scan);
    if config.canceled(scan.polls) {
      assert after == polled;
    } else {
      TestReaches(config, polled, candidate);
      assert after == Check(config, Process(config, polled, candidate)).0;
    }
  }

  lemma RoundReaches(config: Config, scan: Scan, index: nat)
    requires Resumable(config, scan, index) && index < |config.candidates| && AllReached(config, scan)
    ensures AllReached(config, Round(config, scan, index).0)
  {
    TurnGood(config, scan, index);
    var (turned, stopped) := Turn(config, scan, index);
    TurnReaches(config, scan, index, turned);
    if stopped.None? {
      DrainReaches(config, turned);
    }
  }

  ghost function IsReaching(config: Config): (Scan, int) -> bool {
    (scan: Scan, index: int) => index >= 0 && Resumable(config, scan, index) && AllReached(config, scan)
  }

  ghost function EndsReaching(config: Config): (Scan, Outcome) -> bool {
    (scan: Scan, outcome: Outcome) => AllReached(config, scan)
  }

  lemma RoundOfReaches(config: Config, scan: Scan, index: int)
    requires index < |config.candidates| && IsReaching(config)(scan, index)
    ensures RoundKeeps(RoundOf(config), IsReaching(config), EndsReaching(config), scan, index)
  {
    RoundReaches(config, scan, index);
    RoundGood(config, scan, index);
  }

  lemma ScanReaches(config: Config, scan: Scan)
    requires Resumable(config, scan, 0) && AllReached(config, scan)
    ensures AllReached(config, ScanFrom(config, scan, 0).0)
  {
    var n := |config.candidates|;
    forall x, i | i < n && IsReaching(config)(x, i)
      ensures RoundKeeps(RoundOf(config), IsReaching(config), EndsReaching(config), x, i)
    {
      RoundOfReaches(config, x, i);
    }
    RoundsKeep(RoundOf(config), IsReaching(config), EndsReaching(config), scan, 0, n);
    assert EndsReaching(config)(ScanFrom(config, scan, 0).0, ScanFrom(config, scan, 0).1);
  }

  /**
   Whatever the server answers and however the scan ends: of each page that it fetched, every reference that is not too
   deep and every variation of a specification's path is known, or the scan knows as many URLs as it may.
   */
  lemma NothingIsMissed(config: Config, i: nat, url: Url)
    requires Prepared(config)
    requires i < |WholeScan(config).0.trace| && Wanted(config, WholeScan(config).0.trace[i], config.web(i), url)
    ensures
      var f := WholeScan(config).0.frontier;
      url in f.known || |f.known| == config.max
  {
    StartGood(config);
    ScanReaches(config, Start(config));
    ScanIsSafe(config);
    assert Reached(WholeScan(config).0.frontier, config.max, url);
  }

  /**
   The skipped ones are counted exactly: those that the pages themselves left out, those that are too deep, and those
   that the scan could not make known until its end.
   */
  lemma SkipsExactly(config: Config)
    requires Prepared(config)
    ensures
      var scan := WholeScan(config).0;
      scan.frontier.skipped == AllSkips(config, scan.trace, scan.frontier.known)
  {
    StartGood(config);
    ScanReaches(config, Start(config));
  }

  ghost predicate Fetched(trace: seq<Candidate>, url: Url) {
    exists i :: 0 <= i < |trace| && trace[i].url == url
  }

  /** The tested URLs are those of the trace. */
  lemma TestedIsFetched(trace: seq<Candidate>, tested: set<Url>, url: Url)
    requires TraceOf(trace, tested) && url in tested
    ensures Fetched(trace, url)
  {
    var urls := seq(|trace|, i requires 0 <= i < |trace| => trace[i].url);
    DistinctCount(urls);
    var seen := set u | u in urls;
    assert seen <= tested;
    if url !in seen {
      SubsetSize(seen, tested - {url});
      assert false;
    }
    var i :| 0 <= i < |urls| && urls[i] == url;
    assert trace[i].url == url;
  }

  /**
   So a scan that comes to its end with no specification found, and below the maximum, has fetched every candidate and
   everything that its pages lead to.
   */
  lemma EverythingIsFetched(config: Config)
    requires Prepared(config) && WholeScan(config).1 == Finished
    requires !AnySpec(config, |WholeScan(config).0.trace|) && |WholeScan(config).0.frontier.known| < config.max
    ensures
      var trace := WholeScan(config).0.trace;
      && (forall u :: u in config.candidates ==> Fetched(trace, u))
      && (forall i, u :: 0 <= i < |trace| && Wanted(config, trace[i], config.web(i), u) ==> Fetched(trace, u))
  {
    ScanIsSafe(config);
    var (scan, outcome) := WholeScan(config);
    StartGood(config);
    ScanReaches(config, Start(config));
    forall u | u in scan.frontier.known
      ensures Fetched(scan.trace, u)
    {
      TestedIsFetched(scan.trace, scan.frontier.tested, u);
    }
    forall i, u | 0 <= i < |scan.trace| && Wanted(config, scan.trace[i], config.web(i), u)
      ensures Fetched(scan.trace, u)
    {
      NothingIsMissed(config, i, u);
    }
  }
}
