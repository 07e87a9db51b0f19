/**
 Filtering out catch-all responses: an interesting page goes when at least five have exactly its content, or at least
 eight have its status, type and size.
 */
module WildcardFilter {
  import opened CrawlModel

  const MINIMUM_EXACT := 5
  const MINIMUM_SIZE := 8

  datatype Item = Item(url: Url, status: int, contentType: string)

  datatype Fingerprint = Fingerprint(url: Url, shape: Shape, digest: int)

  /** Each interesting page has its fingerprint, and no URL comes twice. */
  ghost predicate Lockstep(items: seq<Item>, prints: seq<Fingerprint>) {
    && |items| == |prints|
    && (forall i :: 0 <= i < |items| ==> items[i].url == prints[i].url)
    && (forall i, j :: 0 <= i < j < |items| ==> items[i].url != items[j].url)
  }

  function ExactCopies(prints: seq<Fingerprint>, p: Fingerprint): int {
    if prints == [] then 0
    else
      var last := prints[|prints| - 1];
      ExactCopies(prints[..|prints| - 1], p) + (if last.shape == p.shape && last.digest == p.digest then 1 else 0)
  }

  function SizeCopies(prints: seq<Fingerprint>, p: Fingerprint): int {
    if prints == [] then 0
    else SizeCopies(prints[..|prints| - 1], p) + (if prints[|prints| - 1].shape == p.shape then 1 else 0)
  }

  predicate CatchAll(prints: seq<Fingerprint>, p: Fingerprint) {
    ExactCopies(prints, p) >= MINIMUM_EXACT || SizeCopies(prints, p) >= MINIMUM_SIZE
  }

  /** The first items, without those whose fingerprints are catch-all among all of them. */
  function Kept(items: seq<Item>, prints: seq<Fingerprint>, n: nat): seq<Item>
    requires n <= |items| && n <= |prints|
  {
    if n == 0 then []
    else if CatchAll(prints, prints[n - 1]) then Kept(items, prints, n - 1)
    else Kept(items, prints, n - 1) + [items[n - 1]]
  }

  lemma {:induction false} CopiesBounded(prints: seq<Fingerprint>, p: Fingerprint)
    ensures 0 <= ExactCopies(prints, p) <= SizeCopies(prints, p) <= |prints|
  {
    if prints != [] {
      CopiesBounded(prints[..|prints| - 1], p);
    }
  }

  /** Fewer than five pages are never a catch-all, so leaving early changes nothing. */
  lemma {:induction false} FewAreKept(items: seq<Item>, prints: seq<Fingerprint>, n: nat)
    requires |prints| < MINIMUM_EXACT && n <= |items| && n <= |prints|
    ensures Kept(items, prints, n) == items[..n]
  {
    if n > 0 {
      FewAreKept(items, prints, n - 1);
      CopiesBounded(prints, prints[n - 1]);
    }
  }

  /** Counts how often each content and each shape occurs. */
  method CountCopies(prints: seq<Fingerprint>)
    returns (exact: map<(Shape, int), int>, sizes: map<Shape, int>)
    ensures forall p :: p in prints
                ==> (p.shape, p.digest) in exact && exact[(p.shape, p.digest)] == ExactCopies(prints, p)
    ensures forall p :: p in prints ==> p.shape in sizes && sizes[p.shape] == SizeCopies(prints, p)
  {
    exact, sizes := map[], map[];
    for i := 0 to |prints|
      invariant forall p: Fingerprint ::
        (if (p.shape, p.digest) in exact then exact[(p.shape, p.digest)] else 0) == ExactCopies(prints[..i], p)
      invariant forall p: Fingerprint ::
        (if p.shape in sizes then sizes[p.shape] else 0) == SizeCopies(prints[..i], p)
    {
      var p := prints[i];
      var key := (p.shape, p.digest);
      assert prints[..i + 1][..i] == prints[..i];
      exact := exact[key := (if key in exact then exact[key] else 0) + 1];
      sizes := sizes[p.shape := (if p.shape in sizes then sizes[p.shape] else 0) + 1];
    }
    assert prints[..|prints|] == prints;
    forall p | p in prints
      ensures ExactCopies(prints, p) > 0 && SizeCopies(prints, p) > 0
    {
      var i :| 0 <= i < |prints| && prints[i] == p;
      CountsItself(prints, i);
    }
  }

  lemma {:induction false} CountsItself(prints: seq<Fingerprint>, i: nat)
    requires i < |prints|
    ensures ExactCopies(prints, prints[i]) > 0 && SizeCopies(prints, prints[i]) > 0
  {
    CopiesBounded(prints[..|prints| - 1], prints[i]);
    if i < |prints| - 1 {
      CountsItself(prints[..|prints| - 1], i);
    }
  }

  /** Deletes the items whose URL is in the set. */
  method WithoutUrls(items: seq<Item>, urls: set<Url>, ghost prints: seq<Fingerprint>) returns (kept: seq<Item>)
    requires Lockstep(items, prints)
    requires forall i :: 0 <= i < |items| ==> (items[i].url in urls <==> CatchAll(prints, prints[i]))
    ensures kept == Kept(items, prints, |items|)
  {
    kept := [];
    for i := 0 to |items|
      invariant kept == Kept(items, prints, i)
    {
      if items[i].url !in urls {
        kept := kept + [items[i]];
      }
    }
  }

  /** Exactly the catch-all pages go, the others stay in order, and each page that goes is counted once. */
  method FilterWildcards(items: seq<Item>, prints: seq<Fingerprint>)
    returns (kept: seq<Item>, filtered: int, detected: bool)
    requires Lockstep(items, prints)
    ensures kept == Kept(items, prints, |items|)
    ensures |kept| + filtered == |items|
    ensures detected <==> filtered > 0
  {
    if |prints| < MINIMUM_EXACT {
      FewAreKept(items, prints, |items|);
      return items, 0, false;
    }
    var exact, sizes := CountCopies(prints);
    var urls: set<Url> := {};
    for i := 0 to |prints|
      invariant forall k :: 0 <= k < |items| ==> (items[k].url in urls <==> k < i && CatchAll(prints, prints[k]))
      invariant |urls| + |Kept(items, prints, i)| == i
    {
      var p := prints[i];
      assert p in prints;
      if exact[(p.shape, p.digest)] >= MINIMUM_EXACT || sizes[p.shape] >= MINIMUM_SIZE {
        assert CatchAll(prints, p);
        assert items[i].url == p.url && p.url !in urls;
        urls := urls + {p.url};
      }
    }
    if urls == {} {
      NothingDropped(items, prints, |items|);
      return items, 0, false;
    }
    kept := WithoutUrls(items, urls, prints);
    return kept, |urls|, true;
  }

  lemma {:induction false} NothingDropped(items: seq<Item>, prints: seq<Fingerprint>, n: nat)
    requires n <= |items| && n <= |prints|
    requires forall k :: 0 <= k < n ==> !CatchAll(prints, prints[k])
    ensures Kept(items, prints, n) == items[..n]
  {
    if n > 0 {
      NothingDropped(items, prints, n - 1);
    }
  }

  /** What stays is what is no catch-all. */
  lemma {:induction false} KeptExactly(items: seq<Item>, prints: seq<Fingerprint>, n: nat, k: nat)
    requires Lockstep(items, prints) && n <= |items| && k < n
    ensures items[k] in Kept(items, prints, n) <==> !CatchAll(prints, prints[k])
    ensures forall item :: item in Kept(items, prints, n) ==> item in items[..n]
  {
    if k < n - 1 {
      KeptExactly(items, prints, n - 1, k);
    } else {
      KeptAmong(items, prints, n - 1);
    }
    KeptAmong(items, prints, n);
  }

  lemma {:induction false} KeptAmong(items: seq<Item>, prints: seq<Fingerprint>, n: nat)
    requires n <= |items| && n <= |prints|
    ensures forall item :: item in Kept(items, prints, n) ==> item in items[..n]
  {
    if n > 0 {
      KeptAmong(items, prints, n - 1);
      assert items[..n] == items[..n - 1] + [items[n - 1]];
    }
  }
}
