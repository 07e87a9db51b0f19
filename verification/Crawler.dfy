/**
 The scan in place. The state's fields change page by page; every method is proved to do what modules CrawlModel and
 CrawlRun say, so their theorems hold of it.
 */
module Crawler {
  import opened Wrappers
  import opened CrawlModel
  import opened CrawlRun
  import opened WildcardFilter

  datatype Finds = Finds(found: set<Url>, matches: seq<Url>, interesting: seq<Item>, prints: seq<Fingerprint>)

  datatype Tally = Tally(tested: int, errors: int, successes: int, redirects: int, clientErrors: int,
                         serverErrors: int, challenges: int, rejected: int)

  // ----- What the pages leave behind -----

  function FingerprintOf(url: Url, page: Page): Fingerprint {
    Fingerprint(url, ShapeOf(page), page.digest)
  }

  /** Specifications and interesting pages, each recorded without exception. */
  function FindsAfter(finds: Finds, url: Url, page: Page): Finds {
    if HasSpec(page) then finds.(found := finds.found + {url}, matches := finds.matches + [url])
    else if IsInteresting(page) then
      finds.(interesting := finds.interesting + [Item(url, page.status, page.contentType)],
             prints := finds.prints + [FingerprintOf(url, page)])
    else finds
  }

  function FindsOf(config: Config, trace: seq<Candidate>): Finds {
    if trace == [] then Finds({}, [], [], [])
    else
      FindsAfter(FindsOf(config, trace[..|trace| - 1]), trace[|trace| - 1].url, config.web(|trace| - 1))
  }

  function Counted(tally: Tally, status: int): Tally {
    if 200 <= status < 300 then tally.(successes := tally.successes + 1)
    else if 300 <= status < 400 then tally.(redirects := tally.redirects + 1)
    else if 400 <= status < 500 then tally.(clientErrors := tally.clientErrors + 1)
    else if status >= 500 then tally.(serverErrors := tally.serverErrors + 1)
    else tally
  }

  function TallyAfter(tally: Tally, page: Page): Tally {
    var counted := tally.(tested := tally.tested + 1);
    if page.status == 0 then counted.(errors := counted.errors + 1)
    else
      var classed := Counted(counted, page.status);
      var challenged := if Challenges(page) then classed.(challenges := classed.challenges + 1) else classed;
      if IsInteresting(page) then challenged.(rejected := challenged.rejected + page.rejected) else challenged
  }

  function TallyOf(config: Config, n: nat): Tally {
    if n == 0 then Tally(0, 0, 0, 0, 0, 0, 0, 0) else TallyAfter(TallyOf(config, n - 1), config.web(n - 1))
  }

  /** The fetches whose status has no class. */
  function Unclassed(config: Config, n: nat): nat {
    if n == 0 then 0
    else Unclassed(config, n - 1) + (if config.web(n - 1).status != 0 && config.web(n - 1).status < 200 then 1 else 0)
  }

  /** Every fetch is an error, or is counted in its class, or has a status below 200, which has none. */
  lemma {:induction false} TallyConserves(config: Config, n: nat)
    ensures
      var tally := TallyOf(config, n);
      && tally.tested == n
      && tally.errors + tally.successes + tally.redirects + tally.clientErrors + tally.serverErrors
         + Unclassed(config, n) == n
  {
    if n > 0 {
      TallyConserves(config, n - 1);
    }
  }

  predicate Failed(page: Page) {
    page.status == 0
  }

  predicate Redirected(page: Page) {
    300 <= page.status < 400
  }

  predicate Refused(page: Page) {
    400 <= page.status < 500
  }

  predicate ServerFailed(page: Page) {
    page.status >= 500
  }

  /** How many of the first `n` pages are of a kind. */
  function Pages(config: Config, n: nat, kind: Page -> bool): nat {
    if n == 0 then 0 else Pages(config, n - 1, kind) + (if kind(config.web(n - 1)) then 1 else 0)
  }

  /** How many references the policy rejected on the interesting pages. */
  function Rejected(config: Config, n: nat): int {
    if n == 0 then 0
    else
      var page := config.web(n - 1);
      Rejected(config, n - 1) + (if IsInteresting(page) then page.rejected else 0)
  }

  /** Each counter is the number of the pages it is for. */
  lemma {:induction false} TallyExactly(config: Config, n: nat)
    ensures
      TallyOf(config, n)
        == Tally(n, Pages(config, n, Failed), Pages(config, n, Successful), Pages(config, n, Redirected),
                 Pages(config, n, Refused), Pages(config, n, ServerFailed), Pages(config, n, Challenges),
                 Rejected(config, n))
  {
    if n > 0 {
      TallyExactly(config, n - 1);
    }
  }

  /** The URL was fetched, and its page held a specification. */
  ghost predicate SpecAt(config: Config, trace: seq<Candidate>, i: int, url: Url) {
    0 <= i < |trace| && trace[i].url == url && HasSpec(config.web(i))
  }

  /** The URL was fetched, and its page was interesting. */
  ghost predicate PageAt(config: Config, trace: seq<Candidate>, i: int, item: Item) {
    && 0 <= i < |trace| && IsInteresting(config.web(i))
    && item == Item(trace[i].url, config.web(i).status, config.web(i).contentType)
  }

  /** Exactly the specifications of the scan are matches, and exactly its interesting pages are items. */
  lemma {:induction false} FindsExactly(config: Config, trace: seq<Candidate>, url: Url, item: Item)
    ensures url in FindsOf(config, trace).matches <==> exists i :: SpecAt(config, trace, i, url)
    ensures item in FindsOf(config, trace).interesting <==> exists i :: PageAt(config, trace, i, item)
  {
    if trace != [] {
      var front, last := trace[..|trace| - 1], |trace| - 1;
      FindsExactly(config, front, url, item);
      assert SpecAt(config, trace, last, url) <==> trace[last].url == url && HasSpec(config.web(last));
      if i :| SpecAt(config, front, i, url) {
        assert SpecAt(config, trace, i, url);
      }
      if i :| SpecAt(config, trace, i, url) && i < last {
        assert SpecAt(config, front, i, url);
      }
      if i :| PageAt(config, front, i, item) {
        assert PageAt(config, trace, i, item);
      }
      if i :| PageAt(config, trace, i, item) && i < last {
        assert PageAt(config, front, i, item);
      }
      assert PageAt(config, trace, last, item)
        <==> IsInteresting(config.web(last))
             && item == Item(trace[last].url, config.web(last).status, config.web(last).contentType);
    }
  }

  /** What is found was fetched; items and fingerprints go together; nothing is recorded twice. */
  lemma {:induction false} FindsInTrace(config: Config, trace: seq<Candidate>, tested: set<Url>)
    requires forall i, j :: 0 <= i < j < |trace| ==> trace[i].url != trace[j].url
    requires forall i :: 0 <= i < |trace| ==> trace[i].url in tested
    ensures
      var finds := FindsOf(config, trace);
      && Lockstep(finds.interesting, finds.prints)
      && finds.found <= tested
      && (forall i :: 0 <= i < |finds.interesting| ==> finds.interesting[i].url in tested)
      && |finds.matches| + |finds.interesting| <= |trace|
      && (forall u :: u in finds.found <==> u in finds.matches)
  {
    if trace != [] {
      var front, last := trace[..|trace| - 1], trace[|trace| - 1];
      var before := tested - {last.url};
      FindsInTrace(config, front, before);
      FindsStep(FindsOf(config, front), before, last.url, config.web(|front|));
    }
  }

  lemma FindsStep(finds: Finds, tested: set<Url>, url: Url, page: Page)
    requires Lockstep(finds.interesting, finds.prints) && url !in tested
    requires forall i :: 0 <= i < |finds.interesting| ==> finds.interesting[i].url in tested
    requires forall u :: u in finds.found <==> u in finds.matches
    ensures Lockstep(FindsAfter(finds, url, page).interesting, FindsAfter(finds, url, page).prints)
    ensures
      var after := FindsAfter(finds, url, page);
      && (forall i :: 0 <= i < |after.interesting| ==> after.interesting[i].url in tested + {url})
      && (forall u :: u in after.found <==> u in after.matches)
  {
  }

  /** A match was recorded exactly when some page held a specification. */
  lemma {:induction false} MatchesAreSpecs(config: Config, trace: seq<Candidate>)
    ensures |FindsOf(config, trace).matches| > 0 <==> AnySpec(config, |trace|)
  {
    if trace != [] {
      MatchesAreSpecs(config, trace[..|trace| - 1]);
    }
  }

  lemma OneMoreFetch(config: Config, trace: seq<Candidate>, candidate: Candidate)
    ensures
      var page, n := config.web(|trace|), |trace| + 1;
      && LimitsAfter(config, n) == After(LimitsAfter(config, |trace|), page, n, Coverage(config))
      && FindsOf(config, trace + [candidate]) == FindsAfter(FindsOf(config, trace), candidate.url, page)
      && TallyOf(config, n) == TallyAfter(TallyOf(config, |trace|), page)
      && TallyOf(config, n).tested == TallyOf(config, |trace|).tested + 1
  {
    assert (trace + [candidate])[..|trace|] == trace;
  }

  // ----- The state -----

  class ScanState {
    const config: Config
    var frontier: Frontier
    var limits: Limits
    var finds: Finds
    var tally: Tally
    var polls: int
    var transportStopped: bool
    ghost var trace: seq<Candidate>

    ghost function TheScan(): Scan
      reads this
    {
      Scan(frontier, trace, polls)
    }

    /** The counters, lists and flags are what the pages so far make them. */
    ghost predicate Agrees()
      reads this
    {
      && limits == LimitsAfter(config, |trace|)
      && finds == FindsOf(config, trace)
      && tally == TallyOf(config, |trace|)
      && tally.tested == |trace|
    }

    constructor (config: Config)
      requires Prepared(config)
      ensures this.config == config && TheScan() == Start(config) && Agrees() && fresh(this)
    {
      this.config := config;
      frontier := Frontier({}, set u | u in config.candidates, {}, [], 0);
      limits, finds, tally := NO_LIMITS, Finds({}, [], [], []), Tally(0, 0, 0, 0, 0, 0, 0, 0);
      polls, transportStopped := 0, false;
      trace := [];
    }

    method QueueCandidate(candidate: Candidate)
      modifies this`frontier
      ensures frontier == Queue(old(frontier), config.max, candidate)
    {
      if candidate.url in frontier.tested || candidate.url in frontier.queued {
        return;
      }
      if candidate.url !in frontier.known {
        if |frontier.known| >= config.max {
          frontier := frontier.(skipped := frontier.skipped + 1);
          return;
        }
        frontier := frontier.(known := frontier.known + {candidate.url});
      }
      frontier := frontier.(queued := frontier.queued + {candidate.url});
      frontier := frontier.(queue := frontier.queue + [candidate]);
      assert old(frontier).known + {candidate.url} == frontier.known;
    }

    method QueueReferences(urls: seq<Url>, depth: int)
      modifies this`frontier
      ensures frontier == References(old(frontier), config.max, urls, depth)
    {
      for i := 0 to |urls|
        invariant frontier == References(old(frontier), config.max, urls[..i], depth)
      {
        assert urls[..i + 1][..i] == urls[..i];
        if depth > MAX_REFERENCE_DEPTH {
          frontier := frontier.(skipped := frontier.skipped + 1);
        } else {
          QueueCandidate(Candidate(urls[i], depth));
        }
      }
      assert urls[..|urls|] == urls;
    }

    method QueueVariations(urls: seq<Url>, depth: int)
      modifies this`frontier
      ensures frontier == Variations(old(frontier), config.max, urls, depth)
    {
      for i := 0 to |urls|
        invariant frontier == Variations(old(frontier), config.max, urls[..i], depth)
      {
        assert urls[..i + 1][..i] == urls[..i];
        if urls[i] !in frontier.known {
          QueueCandidate(Candidate(urls[i], depth));
        }
      }
      assert urls[..|urls|] == urls;
    }

    /** Records a specification, once for each URL, and queues the variations of its path. */
    method AddSpec(url: Url, parses: bool, depth: int)
      modifies this`frontier, this`finds
      ensures
        if parses && url !in old(finds).found then
          && finds == old(finds).(found := old(finds).found + {url}, matches := old(finds).matches + [url])
          && frontier == Variations(old(frontier), config.max, config.variations(url), depth)
        else finds == old(finds) && frontier == old(frontier)
    {
      if !parses || url in finds.found {
        return;
      }
      finds := finds.(found := finds.found + {url}, matches := finds.matches + [url]);
      QueueVariations(config.variations(url), depth);
    }

    method RecordChallengeLimit(challenge: bool)
      modifies this`limits
      ensures limits == ChallengeLimit(old(limits), challenge, tally.tested, Coverage(config))
    {
      if !challenge {
        limits := limits.(challenges := 0);
        return;
      }
      limits := limits.(challenges := limits.challenges + 1);
      if limits.challenges >= MAX_CHALLENGES && tally.tested >= Coverage(config) {
        limits := limits.(challenged := true);
      }
    }

    method RecordResponseLimit(page: Page, challenge: bool)
      modifies this`limits
      ensures limits == ResponseLimit(old(limits), page, challenge)
    {
      if page.status == 429 || page.depleted {
        limits := limits.(rate := true, unavailable := 0, shape := None);
        return;
      }
      if challenge {
        limits := limits.(unavailable := 0, shape := None);
        return;
      }
      if page.status != 502 && page.status != 503 && page.status != 504 {
        limits := limits.(unavailable := 0, shape := None);
        return;
      }
      if Some(ShapeOf(page)) != limits.shape {
        limits := limits.(shape := Some(ShapeOf(page)), unavailable := 1);
        return;
      }
      limits := limits.(unavailable := limits.unavailable + 1);
      if limits.unavailable >= MAX_UNAVAILABLE {
        limits := limits.(gone := true);
      }
    }

    method RecordChallenge(page: Page) returns (challenge: bool)
      modifies this`tally
      ensures challenge == page.challenge
      ensures tally == if challenge then old(tally).(challenges := old(tally).challenges + 1) else old(tally)
    {
      challenge := page.challenge;
      if challenge {
        tally := tally.(challenges := tally.challenges + 1);
      }
    }

    /** The specification a page holds, if any: embedded in it, or else the page itself. */
    method FindSpec(candidate: Candidate, page: Page) returns (found: bool)
      requires candidate.url !in finds.found
      modifies this`frontier, this`finds
      ensures found == (page.embedded || page.direct)
      ensures
        if found then
          && finds == old(finds).(found := old(finds).found + {candidate.url},
                                  matches := old(finds).matches + [candidate.url])
          && frontier == Variations(old(frontier), config.max, config.variations(candidate.url), candidate.depth)
        else finds == old(finds) && frontier == old(frontier)
    {
      var matchCount := |finds.matches|;
      AddSpec(candidate.url, page.embedded, candidate.depth);
      if |finds.matches| == matchCount {
        AddSpec(candidate.url, page.direct, candidate.depth);
      }
      return |finds.matches| > matchCount;
    }

    /** The references of an interesting page. */
    method FollowPage(candidate: Candidate, page: Page)
      requires IsInteresting(page)
      modifies this`frontier
      ensures frontier == Followed(old(frontier), config, candidate, page)
    {
      frontier := frontier.(skipped := frontier.skipped + page.skipped);
      QueueReferences(page.references, candidate.depth + 1);
    }

    method RecordItem(candidate: Candidate, page: Page)
      requires |finds.interesting| < config.max
      modifies this`finds
      ensures finds == old(finds).(
                interesting := old(finds).interesting + [Item(candidate.url, page.status, page.contentType)],
                prints := old(finds).prints + [FingerprintOf(candidate.url, page)])
    {
      if |finds.interesting| < config.max {
        finds := finds.(interesting := finds.interesting + [Item(candidate.url, page.status, page.contentType)],
                        prints := finds.prints + [FingerprintOf(candidate.url, page)]);
      }
    }

    /** What a page does, once its URL is marked as tested and counted. */
    method HandlePage(candidate: Candidate, page: Page)
      requires candidate.url !in finds.found && |finds.interesting| < config.max
      modifies this`frontier, this`limits, this`finds, this`tally
      ensures frontier == Followed(old(frontier), config, candidate, page)
      ensures limits == After(old(limits), page, old(tally).tested, Coverage(config))
      ensures finds == FindsAfter(old(finds), candidate.url, page)
      ensures tally == TallyAfter(old(tally).(tested := old(tally).tested - 1), page)
    {
      if page.status == 0 {
        limits := limits.(unavailable := 0, shape := None);
        RecordChallengeLimit(false);
        tally := tally.(errors := tally.errors + 1);
        limits := limits.(transport := limits.transport + 1);
        return;
      }
      limits := limits.(transport := 0);
      tally := Counted(tally, page.status);
      if page.size == 0 {
        RecordResponseLimit(page, false);
        RecordChallengeLimit(false);
        return;
      }
      if page.status < 200 || page.status >= 300 {
        var challenge := RecordChallenge(page);
        RecordResponseLimit(page, challenge);
        RecordChallengeLimit(challenge);
        return;
      }
      RecordResponseLimit(page, false);
      var found := FindSpec(candidate, page);
      if found {
        RecordChallengeLimit(false);
        return;
      }
      var challenge := RecordChallenge(page);
      RecordChallengeLimit(challenge);
      if challenge {
        return;
      }
      tally := tally.(rejected := tally.rejected + page.rejected);
      FollowPage(candidate, page);
      RecordItem(candidate, page);
    }

    /** Fetches a URL that was not tested before. */
    method FetchCandidate(candidate: Candidate)
      requires Agrees() && |trace| < config.max
      requires candidate.url !in finds.found && |finds.interesting| <= |trace|
      modifies this`frontier, this`limits, this`finds, this`tally, this`trace
      ensures TheScan() == Fetch(config, old(TheScan()), candidate)
      ensures Agrees()
    {
      OneMoreFetch(config, trace, candidate);
      frontier := Tested(frontier, candidate.url);
      var page := config.web(tally.tested);
      tally := tally.(tested := tally.tested + 1);
      assert tally.(tested := tally.tested - 1) == old(tally);
      HandlePage(candidate, page);
      assert tally == TallyAfter(old(tally), page);
      assert limits == After(old(limits), page, |trace| + 1, Coverage(config));
      trace := trace + [candidate];
    }

    /** Tests one URL, unless it was tested before. */
    method ProcessCandidate(candidate: Candidate)
      requires Agrees() && TraceOf(trace, frontier.tested)
      requires candidate.url in frontier.tested || |trace| < config.max
      modifies this`frontier, this`limits, this`finds, this`tally, this`trace
      ensures TheScan() == Process(config, old(TheScan()), candidate)
      ensures Agrees()
    {
      if candidate.url in frontier.tested {
        frontier := frontier.(queued := frontier.queued - {candidate.url});
        return;
      }
      FindsInTrace(config, trace, frontier.tested);
      FetchCandidate(candidate);
    }

    /** Whether to stop; a limit drops the queue. */
    method ScanLimitReached() returns (reached: bool)
      modifies this`frontier, this`transportStopped
      ensures reached == Tripped(limits)
      ensures frontier == if reached then old(frontier).(queue := []) else old(frontier)
      ensures transportStopped == (old(transportStopped) || limits.transport >= MAX_TRANSPORT_ERRORS)
    {
      if limits.transport >= MAX_TRANSPORT_ERRORS {
        transportStopped := true;
        frontier := frontier.(queue := []);
        return true;
      }
      if !limits.rate && !limits.gone && !limits.challenged {
        return false;
      }
      frontier := frontier.(queue := []);
      return true;
    }

    /** Looks whether the scan was canceled, and then whether a limit was reached. */
    method CheckAfter() returns (outcome: Option<Outcome>)
      requires Agrees()
      modifies this`frontier, this`transportStopped, this`polls
      ensures (TheScan(), outcome) == Check(config, old(TheScan()))
      ensures Agrees()
    {
      polls := polls + 1;
      if config.canceled(polls - 1) {
        return Some(Canceled);
      }
      var reached := ScanLimitReached();
      return if reached then Some(Stopped) else None;
    }

    /** Takes one URL off the queue. */
    method DrainOne() returns (outcome: Option<Outcome>)
      requires Agrees() && Good(config, TheScan()) && !Limited(config, TheScan()) && frontier.queue != []
      modifies this`frontier, this`limits, this`finds, this`tally, this`trace, this`transportStopped, this`polls
      ensures (TheScan(), outcome)
           == Check(config, Process(config, Popped(old(TheScan())), old(frontier).queue[0]))
      ensures Agrees()
    {
      QueuedFits(config, TheScan());
      var candidate := frontier.queue[0];
      frontier := frontier.(queue := frontier.queue[1..]);
      ProcessCandidate(candidate);
      outcome := CheckAfter();
    }

    /** Works through the queue. */
    method DrainQueue() returns (outcome: Option<Outcome>)
      requires Agrees() && Good(config, TheScan()) && !Limited(config, TheScan())
      modifies this`frontier, this`limits, this`finds, this`tally, this`trace, this`transportStopped, this`polls
      ensures (TheScan(), outcome) == Drain(config, old(TheScan()))
      ensures Agrees()
    {
      while frontier.queue != []
        invariant Agrees() && Good(config, TheScan()) && !Limited(config, TheScan())
        invariant Drain(config, TheScan()) == Drain(config, old(TheScan()))
        decreases config.max - |frontier.tested|
      {
        DrainStep(config, TheScan());
        outcome := DrainOne();
        if outcome.Some? {
          return;
        }
      }
      outcome := None;
    }

    /** Tests the candidate at the index. */
    method TestCandidate(index: nat) returns (outcome: Option<Outcome>)
      requires Agrees() && Good(config, TheScan()) && !Limited(config, TheScan())
      requires index < |config.candidates|
      modifies this`frontier, this`limits, this`finds, this`tally, this`trace, this`transportStopped, this`polls
      ensures (TheScan(), outcome) == Turn(config, old(TheScan()), index)
      ensures Agrees()
    {
      CandidateFits(config, TheScan(), index);
      polls := polls + 1;
      if config.canceled(polls - 1) {
        return Some(Canceled);
      }
      ProcessCandidate(Candidate(config.candidates[index], 0));
      outcome := CheckAfter();
    }

    /** One candidate, and everything it puts in the queue. */
    method TryCandidate(index: nat) returns (outcome: Option<Outcome>)
      requires Agrees() && Resumable(config, TheScan(), index) && index < |config.candidates|
      modifies this`frontier, this`limits, this`finds, this`tally, this`trace, this`transportStopped, this`polls
      ensures (TheScan(), outcome) == Round(config, old(TheScan()), index)
      ensures Agrees()
    {
      ghost var start := TheScan();
      outcome := TestCandidate(index);
      if outcome.Some? {
        return;
      }
      ghost var turned := TheScan();
      RoundFrom(config, start, index, turned, turned, None);
      outcome := DrainQueue();
      RoundFrom(config, start, index, turned, TheScan(), outcome);
      if outcome.Some? {
        return;
      }
      MatchesAreSpecs(config, trace);
      if |finds.matches| > 0 && index >= config.priority {
        outcome := Some(Finished);
      }
    }

    /** One candidate of the scan, and how the scan goes on from there. */
    method NextCandidate(index: nat, ghost goal: (Scan, Outcome)) returns (outcome: Option<Outcome>)
      requires Agrees() && Resumable(config, TheScan(), index) && index < |config.candidates|
      requires ScanFrom(config, TheScan(), index) == goal
      modifies this`frontier, this`limits, this`finds, this`tally, this`trace, this`transportStopped, this`polls
      ensures Agrees()
      ensures outcome.Some? ==> (TheScan(), outcome.value) == goal
      ensures outcome.None? ==>
                Resumable(config, TheScan(), index + 1) && ScanFrom(config, TheScan(), index + 1) == goal
    {
      ghost var before := TheScan();
      outcome := TryCandidate(index);
      ScanFromStep(config, before, index, TheScan(), outcome);
    }

    /** The candidates in order, until one ends the scan. */
    method TryCandidates() returns (outcome: Outcome)
      requires Resumable(config, TheScan(), 0) && Agrees()
      modifies this`frontier, this`limits, this`finds, this`tally, this`trace, this`transportStopped, this`polls
      ensures (TheScan(), outcome) == ScanFrom(config, old(TheScan()), 0)
      ensures Agrees()
    {
      ghost var goal := ScanFrom(config, TheScan(), 0);
      for index := 0 to |config.candidates|
        invariant Agrees() && Resumable(config, TheScan(), index)
        invariant ScanFrom(config, TheScan(), index) == goal
      {
        var ended := NextCandidate(index, goal);
        if ended.Some? {
          return ended.value;
        }
      }
      return Finished;
    }

    /** The filter runs at the end of a scan that was not canceled. */
    method FilterWildcardResponses() returns (filtered: int, detected: bool)
      requires Agrees() && TraceOf(trace, frontier.tested)
      modifies this`finds
      ensures
        var before := FindsOf(config, trace);
        && |before.interesting| == |before.prints|
        && finds == before.(interesting := Kept(before.interesting, before.prints, |before.prints|))
        && |finds.interesting| + filtered == |before.interesting|
      ensures detected <==> filtered > 0
    {
      FindsInTrace(config, trace, frontier.tested);
      var kept: seq<Item>;
      kept, filtered, detected := FilterWildcards(finds.interesting, finds.prints);
      finds := finds.(interesting := kept);
    }
  }

  lemma CandidateFits(config: Config, scan: Scan, index: nat)
    requires Good(config, scan) && index < |config.candidates|
    ensures config.candidates[index] in scan.frontier.tested || |scan.trace| < config.max
  {
    var url := config.candidates[index];
    if url !in scan.frontier.tested {
      assert url in scan.frontier.known;
      SubsetSize(scan.frontier.tested + {url}, scan.frontier.known);
    }
  }

  lemma QueuedFits(config: Config, scan: Scan)
    requires Good(config, scan) && scan.frontier.queue != []
    ensures |scan.trace| < config.max
  {
    PoppedSound(scan.frontier, config.max);
    SubsetSize(scan.frontier.tested + {scan.frontier.queue[0].url}, scan.frontier.known);
  }

  /** The result of a scan. */
  datatype Found = Found(matches: seq<Url>, interesting: seq<Item>, filtered: int, detected: bool, tally: Tally,
                         limits: Limits, outcome: Outcome)

  /** The scan of one target: ends as module CrawlRun says, with everything its pages held. */
  method FindAllDefinitionFiles(config: Config) returns (r: Found)
    requires Prepared(config)
    ensures
      var (scan, outcome) := WholeScan(config);
      && r.outcome == outcome
      && r.tally == TallyOf(config, |scan.trace|) && r.limits == LimitsAfter(config, |scan.trace|)
      && r.matches == FindsOf(config, scan.trace).matches
    ensures
      var finds := FindsOf(config, WholeScan(config).0.trace);
      && |finds.interesting| == |finds.prints|
      && r.interesting == (if r.outcome == Canceled then finds.interesting
                           else Kept(finds.interesting, finds.prints, |finds.prints|))
      && |r.interesting| + r.filtered == |finds.interesting|
    ensures r.detected <==> r.filtered > 0
  {
    StartGood(config);
    ScanIsSafe(config);
    var state := new ScanState(config);
    var outcome := state.TryCandidates();
    ghost var scan := state.TheScan();
    FindsInTrace(config, scan.trace, scan.frontier.tested);
    var filtered, detected := 0, false;
    if outcome != Canceled {
      filtered, detected := state.FilterWildcardResponses();
    }
    r := Found(state.finds.matches, state.finds.interesting, filtered, detected, state.tally, state.limits, outcome);
  }
}
