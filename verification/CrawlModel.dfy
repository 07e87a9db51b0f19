/**
 Discovering specifications on one target: what a response does to the queue of URLs, and when the scan stops.

 The server is any function from the number of earlier fetches to a page, so it may answer as it likes.
 */
module CrawlModel {
  import opened Wrappers

  const MAX_TRANSPORT_ERRORS := 3
  const MAX_REFERENCE_DEPTH := 3
  const MAX_CHALLENGES := 3
  const MAX_UNAVAILABLE := 3

  datatype Url = Url(text: string)

  /** A response as the scan sees it; status 0 is a transport error. */
  datatype Page = Page(status: int, contentType: string, baseType: string, size: int, digest: int, depleted: bool,
                       challenge: bool, embedded: bool, direct: bool, references: seq<Url>, rejected: int,
                       skipped: int)

  datatype Candidate = Candidate(url: Url, depth: int)

  datatype Config = Config(max: int, priority: int, candidates: seq<Url>, variations: Url -> seq<Url>,
                           web: int -> Page, canceled: int -> bool)

  ghost predicate Distinct<T(!new)>(values: seq<T>) {
    forall i, j :: 0 <= i < j < |values| ==> values[i] != values[j]
  }

  /** What the candidate list promises: distinct URLs, no more than the maximum. */
  ghost predicate Prepared(config: Config) {
    Distinct(config.candidates) && |config.candidates| <= config.max && 0 <= config.priority
  }

  // ----- What a page means -----

  predicate Successful(page: Page) {
    200 <= page.status < 300
  }

  predicate HasSpec(page: Page) {
    Successful(page) && page.size != 0 && (page.embedded || page.direct)
  }

  /** A page worth a look: not a specification, and not a challenge. */
  predicate IsInteresting(page: Page) {
    Successful(page) && page.size != 0 && !page.embedded && !page.direct && !page.challenge
  }

  /** A challenge counts unless the body is empty or holds a specification. */
  predicate Challenges(page: Page) {
    page.status != 0 && page.size != 0 && !HasSpec(page) && page.challenge
  }

  predicate RateLimits(page: Page) {
    page.status != 0 && (page.status == 429 || page.depleted)
  }

  datatype Shape = Shape(status: int, baseType: string, size: int)

  function ShapeOf(page: Page): Shape {
    Shape(page.status, page.baseType, page.size)
  }

  // ----- Stop limits, as a function of the responses so far -----

  datatype Limits = Limits(transport: int, challenges: int, unavailable: int, shape: Option<Shape>, rate: bool,
                           gone: bool, challenged: bool)

  const NO_LIMITS := Limits(0, 0, 0, None, false, false, false)

  function ChallengeLimit(limits: Limits, challenge: bool, tested: int, coverage: int): Limits {
    if !challenge then limits.(challenges := 0)
    else
      var counted := limits.(challenges := limits.challenges + 1);
      if counted.challenges >= MAX_CHALLENGES && tested >= coverage then counted.(challenged := true) else counted
  }

  function ResponseLimit(limits: Limits, page: Page, challenge: bool): Limits {
    if page.status == 429 || page.depleted then limits.(rate := true, unavailable := 0, shape := None)
    else if challenge || (page.status != 502 && page.status != 503 && page.status != 504) then
      limits.(unavailable := 0, shape := None)
    else if limits.shape != Some(ShapeOf(page)) then limits.(unavailable := 1, shape := Some(ShapeOf(page)))
    else
      var counted := limits.(unavailable := limits.unavailable + 1);
      if counted.unavailable >= MAX_UNAVAILABLE then counted.(gone := true) else counted
  }

  /** Outside success, a challenge explains a response that would otherwise count as unavailable. */
  predicate Unavailable(page: Page) {
    && (page.status == 502 || page.status == 503 || page.status == 504)
    && !RateLimits(page) && !(page.size != 0 && page.challenge)
  }

  /** The limits after one more page, the `tested`-th. */
  function After(limits: Limits, page: Page, tested: int, coverage: int): Limits {
    if page.status == 0 then
      ChallengeLimit(limits.(transport := limits.transport + 1, unavailable := 0, shape := None), false, tested,
                     coverage)
    else
      var answered := limits.(transport := 0);
      var outside := page.size != 0 && !Successful(page) && page.challenge;
      ChallengeLimit(ResponseLimit(answered, page, outside), Challenges(page), tested, coverage)
  }

  function Coverage(config: Config): int {
    if |config.candidates| < config.priority then |config.candidates| else config.priority
  }

  /** The limits after the first `n` fetches. */
  function LimitsAfter(config: Config, n: nat): Limits {
    if n == 0 then NO_LIMITS else After(LimitsAfter(config, n - 1), config.web(n - 1), n, Coverage(config))
  }

  predicate Tripped(limits: Limits) {
    limits.transport >= MAX_TRANSPORT_ERRORS || limits.rate || limits.gone || limits.challenged
  }

  predicate TrippedAfter(config: Config, n: int) {
    n >= 0 && Tripped(LimitsAfter(config, n))
  }

  // ----- The queue -----

  datatype Frontier = Frontier(tested: set<Url>, known: set<Url>, queued: set<Url>, queue: seq<Candidate>,
                               skipped: int)

  function Queue(f: Frontier, max: int, candidate: Candidate): Frontier {
    if candidate.url in f.tested || candidate.url in f.queued then f
    else if candidate.url !in f.known && |f.known| >= max then f.(skipped := f.skipped + 1)
    else
      f.(known := f.known + {candidate.url}, queued := f.queued + {candidate.url}, queue := f.queue + [candidate])
  }

  function Reference(f: Frontier, max: int, url: Url, depth: int): Frontier {
    if depth > MAX_REFERENCE_DEPTH then f.(skipped := f.skipped + 1) else Queue(f, max, Candidate(url, depth))
  }

  /** Only genuinely new variations interrupt the order of the candidates. */
  function Variation(f: Frontier, max: int, url: Url, depth: int): Frontier {
    if url in f.known then f else Queue(f, max, Candidate(url, depth))
  }

  function References(f: Frontier, max: int, urls: seq<Url>, depth: int): Frontier {
    if urls == [] then f
    else Reference(References(f, max, urls[..|urls| - 1], depth), max, urls[|urls| - 1], depth)
  }

  function Variations(f: Frontier, max: int, urls: seq<Url>, depth: int): Frontier {
    if urls == [] then f
    else Variation(Variations(f, max, urls[..|urls| - 1], depth), max, urls[|urls| - 1], depth)
  }

  function Tested(f: Frontier, url: Url): Frontier {
    f.(queued := f.queued - {url}, tested := f.tested + {url}, known := f.known + {url})
  }

  /** What a page adds to the queue. */
  function Followed(f: Frontier, config: Config, candidate: Candidate, page: Page): Frontier {
    if HasSpec(page) then Variations(f, config.max, config.variations(candidate.url), candidate.depth)
    else if IsInteresting(page) then
      References(f.(skipped := f.skipped + page.skipped), config.max, page.references, candidate.depth + 1)
    else f
  }

  // ----- Soundness of the queue -----

  function Urls(queue: seq<Candidate>): set<Url> {
    set c | c in queue :: c.url
  }

  /** The queue holds untested URLs, each once and marked as queued, at depths up to three. */
  ghost predicate Sound(f: Frontier, max: int) {
    && (forall i, j :: 0 <= i < j < |f.queue| ==> f.queue[i].url != f.queue[j].url)
    && (forall i :: 0 <= i < |f.queue| ==> 0 <= f.queue[i].depth <= MAX_REFERENCE_DEPTH)
    && Urls(f.queue) == f.queued
    && f.queued !! f.tested
    && f.tested + f.queued <= f.known
    && |f.known| <= max
  }

  lemma UrlsAppended(queue: seq<Candidate>, candidate: Candidate)
    ensures Urls(queue + [candidate]) == Urls(queue) + {candidate.url}
  {
    var longer := queue + [candidate];
    assert longer[|queue|] == candidate;
    forall c | c in queue
      ensures c in longer
    {
      var i :| 0 <= i < |queue| && queue[i] == c;
      assert longer[i] == c;
    }
  }

  lemma UrlsPopped(queue: seq<Candidate>)
    requires queue != [] && forall i, j :: 0 <= i < j < |queue| ==> queue[i].url != queue[j].url
    ensures Urls(queue[1..]) == Urls(queue) - {queue[0].url}
  {
    forall c | c in queue && c.url != queue[0].url
      ensures c in queue[1..]
    {
      var i :| 0 <= i < |queue| && queue[i] == c;
      assert queue[1..][i - 1] == c;
    }
    forall c | c in queue[1..]
      ensures c in queue && c.url != queue[0].url
    {
      var i :| 0 <= i < |queue[1..]| && queue[1..][i] == c;
      assert queue[i + 1] == c;
    }
  }

  /** The queue only grows; what becomes known is queued. */
  ghost predicate Grows(before: Frontier, after: Frontier) {
    && after.tested == before.tested && before.known <= after.known && before.queued <= after.queued
    && after.known <= before.known + after.queued
  }

  lemma GrowsOn(first: Frontier, second: Frontier, third: Frontier)
    requires Grows(first, second) && Grows(second, third)
    ensures Grows(first, third)
  {
  }

  function Appended(f: Frontier, candidate: Candidate): Frontier {
    f.(known := f.known + {candidate.url}, queued := f.queued + {candidate.url}, queue := f.queue + [candidate])
  }

  lemma DistinctAppended(queue: seq<Candidate>, candidate: Candidate)
    requires forall i, j :: 0 <= i < j < |queue| ==> queue[i].url != queue[j].url
    requires candidate.url !in Urls(queue)
    ensures
      var longer := queue + [candidate];
      forall i, j :: 0 <= i < j < |longer| ==> longer[i].url != longer[j].url
  {
    forall i | 0 <= i < |queue|
      ensures queue[i].url != candidate.url
    {
      assert queue[i] in queue;
    }
  }

  lemma SetsAppended(tested: set<Url>, queued: set<Url>, known: set<Url>, url: Url, max: int)
    requires queued !! tested && tested + queued <= known && |known| <= max
    requires url !in tested && (url in known || |known| < max)
    ensures queued + {url} !! tested && tested + (queued + {url}) <= known + {url} && |known + {url}| <= max
  {
    if url in known {
      assert known + {url} == known;
    }
  }

  lemma AppendedSound(f: Frontier, max: int, candidate: Candidate)
    requires Sound(f, max) && 0 <= candidate.depth <= MAX_REFERENCE_DEPTH
    requires candidate.url !in f.tested && candidate.url !in f.queued
    requires candidate.url in f.known || |f.known| < max
    ensures Sound(Appended(f, candidate), max)
  {
    UrlsAppended(f.queue, candidate);
    DistinctAppended(f.queue, candidate);
    SetsAppended(f.tested, f.queued, f.known, candidate.url, max);
  }

  lemma SkippedSound(f: Frontier, max: int, skipped: int)
    requires Sound(f, max)
    ensures Sound(f.(skipped := skipped), max) && Grows(f, f.(skipped := skipped))
  {
  }

  lemma QueueSound(f: Frontier, max: int, candidate: Candidate)
    requires Sound(f, max) && 0 <= candidate.depth <= MAX_REFERENCE_DEPTH
    ensures Sound(Queue(f, max, candidate), max) && Grows(f, Queue(f, max, candidate))
  {
    if candidate.url in f.tested || candidate.url in f.queued {
    } else if candidate.url !in f.known && |f.known| >= max {
      SkippedSound(f, max, f.skipped + 1);
    } else {
      AppendedSound(f, max, candidate);
      assert Grows(f, Appended(f, candidate));
    }
  }

  lemma ReferenceSound(f: Frontier, max: int, url: Url, depth: int)
    requires Sound(f, max) && 0 <= depth
    ensures Sound(Reference(f, max, url, depth), max) && Grows(f, Reference(f, max, url, depth))
  {
    if depth > MAX_REFERENCE_DEPTH {
      SkippedSound(f, max, f.skipped + 1);
    } else {
      QueueSound(f, max, Candidate(url, depth));
    }
  }

  lemma {:induction false} ReferencesSound(f: Frontier, max: int, urls: seq<Url>, depth: int)
    requires Sound(f, max) && 0 <= depth
    ensures Sound(References(f, max, urls, depth), max) && Grows(f, References(f, max, urls, depth))
  {
    if urls != [] {
      var front := References(f, max, urls[..|urls| - 1], depth);
      ReferencesSound(f, max, urls[..|urls| - 1], depth);
      ReferenceSound(front, max, urls[|urls| - 1], depth);
      GrowsOn(f, front, Reference(front, max, urls[|urls| - 1], depth));
    }
  }

  lemma VariationSound(f: Frontier, max: int, url: Url, depth: int)
    requires Sound(f, max) && 0 <= depth <= MAX_REFERENCE_DEPTH
    ensures Sound(Variation(f, max, url, depth), max) && Grows(f, Variation(f, max, url, depth))
  {
    if url !in f.known {
      QueueSound(f, max, Candidate(url, depth));
    }
  }

  lemma {:induction false} VariationsSound(f: Frontier, max: int, urls: seq<Url>, depth: int)
    requires Sound(f, max) && 0 <= depth <= MAX_REFERENCE_DEPTH
    ensures Sound(Variations(f, max, urls, depth), max) && Grows(f, Variations(f, max, urls, depth))
  {
    if urls != [] {
      var front := Variations(f, max, urls[..|urls| - 1], depth);
      VariationsSound(f, max, urls[..|urls| - 1], depth);
      VariationSound(front, max, urls[|urls| - 1], depth);
      GrowsOn(f, front, Variation(front, max, urls[|urls| - 1], depth));
    }
  }

  lemma SkippedReferencesSound(f: Frontier, max: int, page: Page, depth: int)
    requires Sound(f, max) && 0 <= depth
    ensures
      var after := References(f.(skipped := f.skipped + page.skipped), max, page.references, depth);
      Sound(after, max) && Grows(f, after)
  {
    var skipped := f.(skipped := f.skipped + page.skipped);
    SkippedSound(f, max, f.skipped + page.skipped);
    ReferencesSound(skipped, max, page.references, depth);
    GrowsOn(f, skipped, References(skipped, max, page.references, depth));
  }

  /** What a page adds keeps the queue sound. */
  lemma FollowedSound(f: Frontier, config: Config, candidate: Candidate, page: Page)
    requires Sound(f, config.max) && 0 <= candidate.depth <= MAX_REFERENCE_DEPTH
    ensures Sound(Followed(f, config, candidate, page), config.max)
    ensures Grows(f, Followed(f, config, candidate, page))
  {
    var after := Followed(f, config, candidate, page);
    if HasSpec(page) {
      var urls := config.variations(candidate.url);
      assert after == Variations(f, config.max, urls, candidate.depth);
      VariationsSound(f, config.max, urls, candidate.depth);
    } else if IsInteresting(page) {
      var skipped := f.(skipped := f.skipped + page.skipped);
      assert after == References(skipped, config.max, page.references, candidate.depth + 1);
      SkippedReferencesSound(f, config.max, page, candidate.depth + 1);
    } else {
      assert after == f;
    }
  }
}
