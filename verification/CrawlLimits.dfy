/** What the running counters of a scan amount to, in terms of the pages it got. */
module CrawlLimits {
  import opened Wrappers
  import opened CrawlModel

  predicate Failed(page: Page) {
    page.status == 0
  }

  /** How many pages in a row, up to the `n`-th, are of the kind. */
  function Streak(config: Config, n: nat, kind: Page -> bool): int {
    if n == 0 || !kind(config.web(n - 1)) then 0 else Streak(config, n - 1, kind) + 1
  }

  /** The three pages before the `n`-th are all of the kind. */
  predicate Three(config: Config, n: int, kind: Page -> bool) {
    n >= 3 && kind(config.web(n - 1)) && kind(config.web(n - 2)) && kind(config.web(n - 3))
  }

  lemma {:induction false} StreakFacts(config: Config, n: nat, kind: Page -> bool)
    ensures Streak(config, n, kind) >= 0
    ensures Streak(config, n, kind) >= 3 <==> Three(config, n, kind)
  {
    if n > 0 {
      StreakFacts(config, n - 1, kind);
      if n > 1 {
        StreakFacts(config, n - 2, kind);
        if n > 2 {
          StreakFacts(config, n - 3, kind);
        }
      }
    }
  }

  /** Three unavailable pages in a row, of the same status, type and size. */
  predicate Away(config: Config, n: int) {
    && Three(config, n, Unavailable)
    && ShapeOf(config.web(n - 1)) == ShapeOf(config.web(n - 2)) == ShapeOf(config.web(n - 3))
  }

  function SameStreak(config: Config, n: nat): int {
    if n == 0 || !Unavailable(config.web(n - 1)) then 0
    else if n >= 2 && Unavailable(config.web(n - 2)) && ShapeOf(config.web(n - 2)) == ShapeOf(config.web(n - 1)) then
      SameStreak(config, n - 1) + 1
    else 1
  }

  lemma {:induction false} SameStreakFacts(config: Config, n: nat)
    ensures SameStreak(config, n) >= 0
    ensures SameStreak(config, n) >= 3 <==> Away(config, n)
  {
    if n > 0 {
      SameStreakFacts(config, n - 1);
      if n > 1 {
        SameStreakFacts(config, n - 2);
        if n > 2 {
          SameStreakFacts(config, n - 3);
        }
      }
    }
  }

  function LastShape(config: Config, n: nat): Option<Shape> {
    if n > 0 && Unavailable(config.web(n - 1)) then Some(ShapeOf(config.web(n - 1))) else None
  }

  lemma OneChallenge(limits: Limits, challenge: bool, tested: int, coverage: int)
    ensures
      var after := ChallengeLimit(limits, challenge, tested, coverage);
      after == limits.(challenges := if challenge then limits.challenges + 1 else 0,
                       challenged := limits.challenged
                                     || (challenge && limits.challenges + 1 >= 3 && tested >= coverage))
  {
  }

  lemma OneResponse(limits: Limits, page: Page, challenge: bool)
    requires page.status != 0 && challenge == (page.size != 0 && !Successful(page) && page.challenge)
    ensures
      var after := ResponseLimit(limits, page, challenge);
      var count :=
        if !Unavailable(page) then 0
        else if limits.shape == Some(ShapeOf(page)) then limits.unavailable + 1
        else 1;
      after == limits.(
        unavailable := count, shape := if Unavailable(page) then Some(ShapeOf(page)) else None,
        rate := limits.rate || RateLimits(page),
        gone := limits.gone || (count >= 3 && limits.shape == Some(ShapeOf(page))))
  {
  }

  /** What one page does to each counter and flag. */
  lemma OnePage(limits: Limits, page: Page, tested: int, coverage: int)
    ensures
      var after := After(limits, page, tested, coverage);
      && after.transport == (if Failed(page) then limits.transport + 1 else 0)
      && after.challenges == (if Challenges(page) then limits.challenges + 1 else 0)
      && after.unavailable == (if !Unavailable(page) then 0
                               else if limits.shape == Some(ShapeOf(page)) then limits.unavailable + 1
                               else 1)
      && after.shape == (if Unavailable(page) then Some(ShapeOf(page)) else None)
      && after.rate == (limits.rate || RateLimits(page))
      && after.gone == (limits.gone || (after.unavailable >= 3 && limits.shape == Some(ShapeOf(page))))
      && after.challenged == (limits.challenged || (after.challenges >= 3 && tested >= coverage))
  {
    if page.status == 0 {
      OneChallenge(limits.(transport := limits.transport + 1, unavailable := 0, shape := None), false, tested,
                   coverage);
    } else {
      var answered, outside := limits.(transport := 0), page.size != 0 && !Successful(page) && page.challenge;
      OneResponse(answered, page, outside);
      OneChallenge(ResponseLimit(answered, page, outside), Challenges(page), tested, coverage);
    }
  }

  lemma CountersStep(config: Config, n: nat)
    requires n > 0
    requires LimitsAfter(config, n - 1).transport == Streak(config, n - 1, Failed)
    requires LimitsAfter(config, n - 1).challenges == Streak(config, n - 1, Challenges)
    requires LimitsAfter(config, n - 1).unavailable == SameStreak(config, n - 1)
    requires LimitsAfter(config, n - 1).shape == LastShape(config, n - 1)
    ensures
      var limits := LimitsAfter(config, n);
      && limits.transport == Streak(config, n, Failed)
      && limits.challenges == Streak(config, n, Challenges)
      && limits.unavailable == SameStreak(config, n)
      && limits.shape == LastShape(config, n)
  {
    OnePage(LimitsAfter(config, n - 1), config.web(n - 1), n, Coverage(config));
  }

  /** The counters are the lengths of the streaks. */
  lemma {:induction false} CountersExactly(config: Config, n: nat)
    ensures
      var limits := LimitsAfter(config, n);
      && limits.transport == Streak(config, n, Failed)
      && limits.challenges == Streak(config, n, Challenges)
      && limits.unavailable == SameStreak(config, n)
      && limits.shape == LastShape(config, n)
  {
    if n > 0 {
      CountersExactly(config, n - 1);
      CountersStep(config, n);
    }
  }

  /** The flags go up with the page that completes the pattern. */
  lemma FlagStep(config: Config, n: nat)
    requires n > 0
    requires LimitsAfter(config, n).challenges >= 3 <==> Three(config, n, Challenges)
    requires LimitsAfter(config, n).unavailable >= 3 <==> Away(config, n)
    requires LimitsAfter(config, n - 1).unavailable >= 0
    ensures
      var before, after := LimitsAfter(config, n - 1), LimitsAfter(config, n);
      && (after.rate <==> before.rate || RateLimits(config.web(n - 1)))
      && (after.gone <==> before.gone || Away(config, n))
      && (after.challenged <==> before.challenged || (n >= Coverage(config) && Three(config, n, Challenges)))
  {
    OnePage(LimitsAfter(config, n - 1), config.web(n - 1), n, Coverage(config));
  }

  predicate EverRateLimited(config: Config, n: int) {
    exists i :: 0 <= i < n && RateLimits(config.web(i))
  }

  predicate EverAway(config: Config, n: int) {
    exists i :: 0 <= i <= n && Away(config, i)
  }

  /** Challenges count once the priority candidates are through. */
  predicate EverChallenged(config: Config, n: int) {
    exists i :: Coverage(config) <= i <= n && Three(config, i, Challenges)
  }

  lemma EverStep(config: Config, n: int)
    requires n > 0
    ensures EverRateLimited(config, n) <==> EverRateLimited(config, n - 1) || RateLimits(config.web(n - 1))
    ensures EverAway(config, n) <==> EverAway(config, n - 1) || Away(config, n)
    ensures EverChallenged(config, n)
       <==> EverChallenged(config, n - 1) || (n >= Coverage(config) && Three(config, n, Challenges))
  {
  }

  /** The flags say whether it ever happened. */
  lemma {:induction false} FlagsExactly(config: Config, n: nat)
    ensures LimitsAfter(config, n).rate <==> EverRateLimited(config, n)
    ensures LimitsAfter(config, n).gone <==> EverAway(config, n)
    ensures LimitsAfter(config, n).challenged <==> EverChallenged(config, n)
  {
    if n > 0 {
      FlagsExactly(config, n - 1);
      EverStep(config, n);
      assert LimitsAfter(config, n).challenges >= 3 <==> Three(config, n, Challenges) by {
        CountersExactly(config, n);
        StreakFacts(config, n, Challenges);
      }
      assert LimitsAfter(config, n).unavailable >= 3 <==> Away(config, n) by {
        CountersExactly(config, n);
        SameStreakFacts(config, n);
      }
      assert LimitsAfter(config, n - 1).unavailable >= 0 by {
        CountersExactly(config, n - 1);
        SameStreakFacts(config, n - 1);
      }
      FlagStep(config, n);
    }
  }

  /**
   When the scan stops: after three failures in a row, a rate limit, three unavailable pages of one shape in a row, or,
   once the priority candidates are through, three challenges in a row.
   */
  lemma StopsExactly(config: Config, n: nat)
    ensures TrippedAfter(config, n) <==>
      || Three(config, n, Failed)
      || EverRateLimited(config, n) || EverAway(config, n) || EverChallenged(config, n)
  {
    CountersExactly(config, n);
    FlagsExactly(config, n);
    StreakFacts(config, n, Failed);
  }
}
