/** Why each URL is fetched: it is a candidate, or a page fetched before it led to it. */
module CrawlOrigins {
  import opened CrawlModel
  import opened CrawlRun

  /** The page of `parent` leads to the URL: as a reference, one step deeper, or as a variation of its path. */
  predicate LeadsTo(config: Config, parent: Candidate, page: Page, c: Candidate) {
    || (HasSpec(page) && c.url in config.variations(parent.url) && c.depth == parent.depth)
    || (IsInteresting(page) && c.url in page.references && c.depth == parent.depth + 1)
  }

  /** The URL is a candidate, or one of the pages fetched so far leads to it. */
  ghost predicate Explained(config: Config, trace: seq<Candidate>, c: Candidate) {
    || (c.depth == 0 && c.url in config.candidates)
    || exists p :: 0 <= p < |trace| && LeadsTo(config, trace[p], config.web(p), c)
  }

  ghost predicate AllExplained(config: Config, scan: Scan) {
    && (forall i :: 0 <= i < |scan.frontier.queue| ==> Explained(config, scan.trace, scan.frontier.queue[i]))
    && FetchesExplained(config, scan.trace)
  }

  ghost predicate FetchesExplained(config: Config, trace: seq<Candidate>) {
    forall i :: 0 <= i < |trace| ==> Explained(config, trace[..i], trace[i])
  }

  lemma {:induction false} ReferencesQueued(f: Frontier, max: int, urls: seq<Url>, depth: int, i: nat)
    requires i < |References(f, max, urls, depth).queue|
    ensures
      var c := References(f, max, urls, depth).queue[i];
      if i < |f.queue| then c == f.queue[i] else c.url in urls && c.depth == depth
  {
    if urls != [] {
      var front := References(f, max, urls[..|urls| - 1], depth);
      if i < |front.queue| {
        ReferencesQueued(f, max, urls[..|urls| - 1], depth, i);
      } else {
        QueueOnlyGrows(f, max, urls[..|urls| - 1], depth);
      }
    }
  }

  lemma {:induction false} QueueOnlyGrows(f: Frontier, max: int, urls: seq<Url>, depth: int)
    ensures |f.queue| <= |References(f, max, urls, depth).queue|
    ensures |f.queue| <= |Variations(f, max, urls, depth).queue|
  {
    if urls != [] {
      QueueOnlyGrows(f, max, urls[..|urls| - 1], depth);
    }
  }

  lemma {:induction false} VariationsQueued(f: Frontier, max: int, urls: seq<Url>, depth: int, i: nat)
    requires i < |Variations(f, max, urls, depth).queue|
    ensures
      var c := Variations(f, max, urls, depth).queue[i];
      if i < |f.queue| then c == f.queue[i] else c.url in urls && c.depth == depth
  {
    if urls != [] {
      var front := Variations(f, max, urls[..|urls| - 1], depth);
      if i < |front.queue| {
        VariationsQueued(f, max, urls[..|urls| - 1], depth, i);
      } else {
        QueueOnlyGrows(f, max, urls[..|urls| - 1], depth);
      }
    }
  }

  /** What a page puts in the queue is what it leads to. */
  lemma FollowedQueued(f: Frontier, config: Config, parent: Candidate, page: Page, i: nat)
    requires i < |Followed(f, config, parent, page).queue|
    ensures
      var c := Followed(f, config, parent, page).queue[i];
      if i < |f.queue| then c == f.queue[i] else LeadsTo(config, parent, page, c)
  {
    if HasSpec(page) {
      VariationsQueued(f, config.max, config.variations(parent.url), parent.depth, i);
    } else if IsInteresting(page) {
      ReferencesQueued(f.(skipped := f.skipped + page.skipped), config.max, page.references, parent.depth + 1, i);
    }
  }

  lemma StillExplained(config: Config, trace: seq<Candidate>, next: Candidate, c: Candidate)
    requires Explained(config, trace, c)
    ensures Explained(config, trace + [next], c)
  {
    if p :| 0 <= p < |trace| && LeadsTo(config, trace[p], config.web(p), c) {
      assert (trace + [next])[p] == trace[p];
    }
  }

  lemma FetchExplained(config: Config, scan: Scan, candidate: Candidate)
    requires AllExplained(config, scan) && Explained(config, scan.trace, candidate)
    ensures AllExplained(config, Fetch(config, scan, candidate))
  {
    var after, page := Fetch(config, scan, candidate), config.web(|scan.trace|);
    var before := Tested(scan.frontier, candidate.url);
    forall i | 0 <= i < |after.frontier.queue|
      ensures Explained(config, after.trace, after.frontier.queue[i])
    {
      FollowedQueued(before, config, candidate, page, i);
      if i < |before.queue| {
        StillExplained(config, scan.trace, candidate, before.queue[i]);
      } else {
        assert after.trace[|scan.trace|] == candidate;
      }
    }
    forall i | 0 <= i < |after.trace|
      ensures Explained(config, after.trace[..i], after.trace[i])
    {
      assert after.trace[..i] == scan.trace[..i];
      assert i == |scan.trace| ==> scan.trace[..i] == scan.trace;
    }
  }

  lemma ProcessExplained(config: Config, scan: Scan, candidate: Candidate)
    requires AllExplained(config, scan) && Explained(config, scan.trace, candidate)
    ensures AllExplained(config, Process(config, scan, candidate))
  {
    if candidate.url !in scan.frontier.tested {
      FetchExplained(config, scan, candidate);
    }
  }

  lemma CheckExplained(config: Config, scan: Scan)
    requires AllExplained(config, scan)
    ensures AllExplained(config, Check(config, scan).0)
  {
  }

  lemma {:induction false} DrainExplained(config: Config, scan: Scan)
    requires Good(config, scan) && !Limited(config, scan) && AllExplained(config, scan)
    ensures AllExplained(config, Drain(config, scan).0)
    decreases config.max - |scan.frontier.tested|
  {
    if scan.frontier.queue != [] {
      var candidate := scan.frontier.queue[0];
      assert Explained(config, scan.trace, candidate);
      DrainStep(config, scan);
      assert AllExplained(config, Popped(scan));
      ProcessExplained(config, Popped(scan), candidate);
      CheckExplained(config, Process(config, Popped(scan), candidate));
      var (checked, outcome) := Check(config, Process(config, Popped(scan), candidate));
      if outcome.None? {
        DrainExplained(config, checked);
      }
    }
  }

  lemma TurnExplained(config: Config, scan: Scan, index: nat)
    requires index < |config.candidates| && AllExplained(config, scan)
    ensures AllExplained(config, Turn(config, scan, index).0)
  {
    var polled := scan.(polls := scan.polls + 1);
    var candidate := Candidate(config.candidates[index], 0);
    assert AllExplained(config, polled);
    if !config.canceled(scan.polls) {
      ProcessExplained(config, polled, candidate);
      CheckExplained(config, Process(config, polled, candidate));
    }
  }

  lemma RoundExplained(config: Config, scan: Scan, index: nat)
    requires Resumable(config, scan, index) && index < |config.candidates| && AllExplained(config, scan)
    ensures AllExplained(config, Round(config, scan, index).0)
  {
    TurnGood(config, scan, index);
    TurnExplained(config, scan, index);
    var (turned, stopped) := Turn(config, scan, index);
    if stopped.None? {
      DrainExplained(config, turned);
    }
  }

  ghost function IsExplained(config: Config): (Scan, int) -> bool {
    (scan: Scan, index: int) => index >= 0 && Resumable(config, scan, index) && AllExplained(config, scan)
  }

  ghost function EndsExplained(config: Config): (Scan, Outcome) -> bool {
    (scan: Scan, outcome: Outcome) => AllExplained(config, scan)
  }

  lemma RoundOfExplained(config: Config, scan: Scan, index: int)
    requires index < |config.candidates| && IsExplained(config)(scan, index)
    ensures RoundKeeps(RoundOf(config), IsExplained(config), EndsExplained(config), scan, index)
  {
    RoundExplained(config, scan, index);
    RoundGood(config, scan, index);
  }

  lemma ScanExplained(config: Config, scan: Scan)
    requires Resumable(config, scan, 0) && AllExplained(config, scan)
    ensures AllExplained(config, ScanFrom(config, scan, 0).0)
  {
    var n := |config.candidates|;
    forall x, i | i < n && IsExplained(config)(x, i)
      ensures RoundKeeps(RoundOf(config), IsExplained(config), EndsExplained(config), x, i)
    {
      RoundOfExplained(config, x, i);
    }
    RoundsKeep(RoundOf(config), IsExplained(config), EndsExplained(config), scan, 0, n);
    assert EndsExplained(config)(ScanFrom(config, scan, 0).0, ScanFrom(config, scan, 0).1);
  }

  /**
   Whatever the server answers, every URL that is fetched is a candidate, or an earlier page of the scan led to it,
   at the depth it is fetched at.
   */
  lemma EveryFetchIsExplained(config: Config)
    requires Prepared(config)
    ensures FetchesExplained(config, WholeScan(config).0.trace)
  {
    StartGood(config);
    ScanExplained(config, Start(config));
  }
}
