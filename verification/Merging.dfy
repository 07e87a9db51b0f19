/**
 Merging datasets: each list is gathered in a map by key, so the observations of a content are those whose number some
 dataset has, and merging a dataset with itself adds nothing.
 */
module Merging {
  import opened Text
  import opened Records
  import opened Loading
  import opened LoadedCopies
  import opened Loader
  import opened Unions

  /** The order of observations: by time where one is known, then by number, then by place in the input. */
  predicate OperationLess(left: Operation, right: Operation) {
    if left.observedAt != right.observedAt then
      left.observedAt != 0 && (right.observedAt == 0 || left.observedAt < right.observedAt)
    else if left.observationID != right.observationID then
      left.observationID < right.observationID
    else if left.inputPath != right.inputPath && left.inputPath != "" && right.inputPath != "" then
      TextLess(left.inputPath, right.inputPath)
    else if left.inputPath == right.inputPath && left.inputOrdinal != right.inputOrdinal then
      left.inputOrdinal < right.inputOrdinal
    else
      TextLess(left.content.source + left.content.verb + left.content.target + left.content.url,
               right.content.source + right.content.verb + right.content.target + right.content.url)
  }

  ghost predicate Irreflexive<T(!new)>(less: (T, T) -> bool) {
    forall x :: !less(x, x)
  }

  /** No observation comes before itself. */
  lemma EarlierIrreflexive()
    ensures Irreflexive(OperationLess)
  {
    forall x
      ensures !OperationLess(x, x)
    {
      TextLessIrreflexive(x.content.source + x.content.verb + x.content.target + x.content.url);
    }
  }

  /** All lists, one after the other, gathered by key. */
  function Gathered<K, V>(lists: seq<seq<V>>, key: V -> K, wins: (V, V) -> bool): map<K, V> {
    if lists == [] then map[]
    else PutAll(Gathered(lists[..|lists| - 1], key, wins), key, wins, lists[|lists| - 1])
  }

  /** The loop over one list of one dataset. */
  method Gather<K(!new), V>(m: map<K, V>, key: V -> K, wins: (V, V) -> bool, values: seq<V>)
    returns (r: map<K, V>)
    ensures r == PutAll(m, key, wins, values)
  {
    r := m;
    for i := 0 to |values|
      invariant r == PutAll(m, key, wins, values[..i])
    {
      assert values[..i + 1][..i] == values[..i];
      if key(values[i]) !in r || wins(values[i], r[key(values[i])]) {
        r := r[key(values[i]) := values[i]];
      }
    }
    assert values[..|values|] == values;
  }

  function Targets(datasets: seq<Dataset>): seq<seq<string>> {
    seq(|datasets|, i requires 0 <= i < |datasets| => datasets[i].targets)
  }

  function Discoveries(datasets: seq<Dataset>): seq<seq<Discovery>> {
    seq(|datasets|, i requires 0 <= i < |datasets| => datasets[i].discoveries)
  }

  function InterestingItems(datasets: seq<Dataset>): seq<seq<Interesting>> {
    seq(|datasets|, i requires 0 <= i < |datasets| => datasets[i].interesting)
  }

  function OperationLists(datasets: seq<Dataset>): seq<seq<Operation>> {
    seq(|datasets|, i requires 0 <= i < |datasets| => datasets[i].operations)
  }

  function Failures(datasets: seq<Dataset>): seq<seq<Failure>> {
    seq(|datasets|, i requires 0 <= i < |datasets| => datasets[i].failures)
  }

  function Findings(datasets: seq<Dataset>): seq<seq<Finding>> {
    seq(|datasets|, i requires 0 <= i < |datasets| => datasets[i].findings)
  }

  function RawSum(datasets: seq<Dataset>): int {
    if datasets == [] then 0 else RawSum(datasets[..|datasets| - 1]) + datasets[|datasets| - 1].raw
  }

  /** The merged state: observations give way to earlier ones, everything else to the last one. */
  function Merged(datasets: seq<Dataset>): State {
    State(
      Others(Gathered(Targets(datasets), TargetKey, LastWins),
             Gathered(Discoveries(datasets), DiscoveryKey, LastWins),
             Gathered(InterestingItems(datasets), InterestingKey, LastWins),
             Gathered(Failures(datasets), FailureKey, LastWins),
             Gathered(Findings(datasets), ImportedFindingKey, LastWins)),
      Operations(Gathered(OperationLists(datasets), StoredKey, OperationLess), map[], 0),
      Tallies([], RawSum(datasets)))
  }

  lemma MergedStep(datasets: seq<Dataset>, i: nat)
    requires i < |datasets|
    ensures
      var before, after, d := Merged(datasets[..i]), Merged(datasets[..i + 1]), datasets[i];
      && after.others.targets == PutAll(before.others.targets, TargetKey, LastWins, d.targets)
      && after.others.discoveries == PutAll(before.others.discoveries, DiscoveryKey, LastWins, d.discoveries)
      && after.others.interesting == PutAll(before.others.interesting, InterestingKey, LastWins, d.interesting)
      && after.others.failures == PutAll(before.others.failures, FailureKey, LastWins, d.failures)
      && after.others.findings == PutAll(before.others.findings, ImportedFindingKey, LastWins, d.findings)
      && after.operations.kept
         == PutAll(before.operations.kept, StoredKey, OperationLess, d.operations)
      && after.tallies.raw == before.tallies.raw + d.raw
  {
    var a, b := datasets[..i], datasets[..i + 1];
    assert b[..i] == a;
    assert Targets(b)[..i] == Targets(a);
    assert Discoveries(b)[..i] == Discoveries(a);
    assert InterestingItems(b)[..i] == InterestingItems(a);
    assert OperationLists(b)[..i] == OperationLists(a);
    assert Failures(b)[..i] == Failures(a);
    assert Findings(b)[..i] == Findings(a);
  }

  method MergeDatasets(datasets: seq<Dataset>) returns (merged: Dataset)
    ensures IsDatasetOf(merged, Merged(datasets))
  {
    var raw := 0;
    var targets: map<string, string> := map[];
    var discoveries: map<string, Discovery> := map[];
    var interesting: map<(string, int), Interesting> := map[];
    var operations: map<Key, Operation> := map[];
    var failures: map<(string, string), Failure> := map[];
    var findings: map<FindingKey, Finding> := map[];
    for i := 0 to |datasets|
      invariant Merged(datasets[..i])
             == State(Others(targets, discoveries, interesting, failures, findings),
                      Operations(operations, map[], 0), Tallies([], raw))
    {
      MergedStep(datasets, i);
      var dataset := datasets[i];
      raw := raw + dataset.raw;
      findings := Gather(findings, ImportedFindingKey, LastWins, dataset.findings);
      targets := Gather(targets, TargetKey, LastWins, dataset.targets);
      discoveries := Gather(discoveries, DiscoveryKey, LastWins, dataset.discoveries);
      interesting := Gather(interesting, InterestingKey, LastWins, dataset.interesting);
      operations := Gather(operations, StoredKey, OperationLess, dataset.operations);
      failures := Gather(failures, FailureKey, LastWins, dataset.failures);
    }
    assert datasets[..|datasets|] == datasets;
    MergedKeyed(datasets);
    var t := ListOf(targets, TargetKey);
    var d := ListOf(discoveries, DiscoveryKey);
    var n := ListOf(interesting, InterestingKey);
    var o := ListOf(operations, StoredKey);
    var f := ListOf(failures, FailureKey);
    var g := ListOf(findings, ImportedFindingKey);
    var unique := |t| + |d| + |n| + |o| + |f| + |g|;
    merged := Dataset(raw, if raw - unique > 0 then raw - unique else 0, t, d, n, o, f, g);
  }

  // ----- What is merged -----

  ghost function UnionOfKeys<K, V>(lists: seq<seq<V>>, key: V -> K): set<K> {
    if lists == [] then {} else UnionOfKeys(lists[..|lists| - 1], key) + KeysOf(lists[|lists| - 1], key)
  }

  lemma {:induction false} GatheredKeys<K(!new), V(!new)>(lists: seq<seq<V>>, key: V -> K, wins: (V, V) -> bool)
    ensures Gathered(lists, key, wins).Keys == UnionOfKeys(lists, key)
    ensures Keyed(Gathered(lists, key, wins), key)
  {
    if lists != [] {
      GatheredKeys(lists[..|lists| - 1], key, wins);
      PutAllKeys(Gathered(lists[..|lists| - 1], key, wins), key, wins, lists[|lists| - 1]);
      PutAllKeyed(Gathered(lists[..|lists| - 1], key, wins), key, wins, lists[|lists| - 1]);
    }
  }

  lemma MergedKeyed(datasets: seq<Dataset>)
    ensures KeyedMaps(Merged(datasets))
  {
    GatheredKeys(Targets(datasets), TargetKey, LastWins);
    GatheredKeys(Discoveries(datasets), DiscoveryKey, LastWins);
    GatheredKeys(InterestingItems(datasets), InterestingKey, LastWins);
    GatheredKeys(OperationLists(datasets), StoredKey, OperationLess);
    GatheredKeys(Failures(datasets), FailureKey, LastWins);
    GatheredKeys(Findings(datasets), ImportedFindingKey, LastWins);
  }

  // ----- Which copies are kept -----

  /** The numbers under which each dataset has observations of the content. */
  ghost function NumbersOf(lists: seq<seq<Operation>>, content: Content): seq<set<int>> {
    seq(|lists|, i requires 0 <= i < |lists| => Numbers(KeysOf(lists[i], StoredKey), content))
  }

  lemma {:induction false} NumbersOfUnion(lists: seq<seq<Operation>>, content: Content)
    ensures Numbers(UnionOfKeys(lists, StoredKey), content) == Union(NumbersOf(lists, content))
  {
    if lists == [] {
    } else {
      var front, last := lists[..|lists| - 1], lists[|lists| - 1];
      NumbersOfUnion(front, content);
      assert NumbersOf(lists, content)[..|lists| - 1] == NumbersOf(front, content);
      forall n
        ensures n in Numbers(UnionOfKeys(lists, StoredKey), content)
           <==> n in Numbers(UnionOfKeys(front, StoredKey), content) + Numbers(KeysOf(last, StoredKey), content)
      {
        InNumbers(UnionOfKeys(lists, StoredKey), content, n);
        InNumbers(UnionOfKeys(front, StoredKey), content, n);
        InNumbers(KeysOf(last, StoredKey), content, n);
      }
    }
  }

  /** Merging keeps the observations of a content whose number some dataset has, whatever the numbers are. */
  lemma MergeKeepsTheNumbers(datasets: seq<Dataset>, content: Content)
    ensures Numbers(Merged(datasets).operations.kept.Keys, content)
         == Union(NumbersOf(OperationLists(datasets), content))
  {
    GatheredKeys(OperationLists(datasets), StoredKey, OperationLess);
    NumbersOfUnion(OperationLists(datasets), content);
  }

  /** How many observations of the content without identifiers a dataset has. */
  ghost function CopiesIn(dataset: Dataset, content: Content): nat {
    |OfContent(KeysOf(dataset.operations, StoredKey), content)|
  }

  ghost function MostCopiesIn(datasets: seq<Dataset>, content: Content): nat {
    if datasets == [] then 0
    else
      var before, here := MostCopiesIn(datasets[..|datasets| - 1], content),
                          CopiesIn(datasets[|datasets| - 1], content);
      if before < here then here else before
  }

  lemma {:induction false} MostCopiesIsLargest(datasets: seq<Dataset>, content: Content)
    ensures MostCopiesIn(datasets, content) == LargestSize(NumbersOf(OperationLists(datasets), content))
  {
    if datasets == [] {
    } else {
      var front, last := datasets[..|datasets| - 1], datasets[|datasets| - 1];
      MostCopiesIsLargest(front, content);
      NumbersCounted(KeysOf(last.operations, StoredKey), content);
      assert NumbersOf(OperationLists(datasets), content)[..|datasets| - 1]
          == NumbersOf(OperationLists(front), content);
    }
  }

  /**
   How many observations of a content without identifiers merging keeps: never fewer than any dataset has, and the
   largest number that any has exactly when one dataset has all the numbers that any of them has.
   */
  lemma MergeMaximumExactly(datasets: seq<Dataset>, content: Content)
    ensures
      var kept := OfContent(Merged(datasets).operations.kept.Keys, content);
      && MostCopiesIn(datasets, content) <= |kept|
      && (|kept| == MostCopiesIn(datasets, content) <==> OneHasAll(NumbersOf(OperationLists(datasets), content)))
  {
    MergeKeepsTheNumbers(datasets, content);
    NumbersCounted(Merged(datasets).operations.kept.Keys, content);
    LargestExactly(NumbersOf(OperationLists(datasets), content));
    MostCopiesIsLargest(datasets, content);
  }

  /** The numbers of a loaded dataset are the places of its files' records without identifiers. */
  lemma LoadedHasPlaces(limit: int, files: seq<File>, dataset: Dataset, content: Content)
    requires Loaded(limit, files).1 && IsDatasetOf(dataset, Loaded(limit, files).0)
    ensures Numbers(KeysOf(dataset.operations, StoredKey), content) == Union(PlacesOf(files, content))
  {
    ListKeys(dataset.operations, Loaded(limit, files).0.operations.kept, StoredKey);
    KeptNumbers(limit, files, content);
  }

  /** Two datasets that have one observation of the content each, under different numbers. */
  lemma OneEach(a: Dataset, b: Dataset, content: Content, m: int, n: int)
    requires m != n
    requires Numbers(KeysOf(a.operations, StoredKey), content) == {m}
    requires Numbers(KeysOf(b.operations, StoredKey), content) == {n}
    ensures MostCopiesIn([a, b], content) == 1
    ensures |OfContent(Merged([a, b]).operations.kept.Keys, content)| == 2
  {
    var numbers := NumbersOf(OperationLists([a, b]), content);
    assert numbers == [{m}, {n}];
    PairOfSets(m, n);
    MergeKeepsTheNumbers([a, b], content);
    NumbersCounted(Merged([a, b]).operations.kept.Keys, content);
    MostCopiesIsLargest([a, b], content);
  }

  lemma PlaceOfEach()
    ensures Union(PlacesOf([MARKED_FIRST], SHARED)) == {2} && Union(PlacesOf([PLAIN_ONLY], SHARED)) == {1}
  {
    PlacesOfMixed();
    UnionOfOne(PlacesOf(MIXED, SHARED)[0]);
    UnionOfOne(PlacesOf(MIXED, SHARED)[1]);
    assert PlacesOf([MARKED_FIRST], SHARED) == [PlacesOf(MIXED, SHARED)[0]];
    assert PlacesOf([PLAIN_ONLY], SHARED) == [PlacesOf(MIXED, SHARED)[1]];
  }

  /**
   For example, the two files of which one has a record with an identifier first: loaded apart, each dataset has one
   observation of the content without identifiers, and merging keeps both.
   */
  lemma MixedDatasetsKeepMore(limit: int, a: Dataset, b: Dataset)
    requires Loaded(limit, [MARKED_FIRST]).1 && IsDatasetOf(a, Loaded(limit, [MARKED_FIRST]).0)
    requires Loaded(limit, [PLAIN_ONLY]).1 && IsDatasetOf(b, Loaded(limit, [PLAIN_ONLY]).0)
    ensures MostCopiesIn([a, b], SHARED) == 1
    ensures |OfContent(Merged([a, b]).operations.kept.Keys, SHARED)| == 2
  {
    PlaceOfEach();
    LoadedHasPlaces(limit, [MARKED_FIRST], a, SHARED);
    LoadedHasPlaces(limit, [PLAIN_ONLY], b, SHARED);
    OneEach(a, b, SHARED, 2, 1);
  }

  // ----- Numbers without gaps -----

  /** The observations of the content in the list are its copies 1, 2, ... up to `copies`. */
  ghost predicate HasCopies(operations: seq<Operation>, content: Content, copies: int) {
    forall n :: ByContent(content, n) in KeysOf(operations, StoredKey) <==> 1 <= n <= copies
  }

  function Largest(numbers: seq<int>): int {
    if numbers == [] then 0
    else
      var before, last := Largest(numbers[..|numbers| - 1]), numbers[|numbers| - 1];
      if before < last then last else before
  }

  lemma {:induction false} UnionHasTheLargest(lists: seq<seq<Operation>>, content: Content, copies: seq<int>, n: int)
    requires |copies| == |lists|
    requires forall i :: 0 <= i < |lists| ==> HasCopies(lists[i], content, copies[i])
    ensures ByContent(content, n) in UnionOfKeys(lists, StoredKey) <==> 1 <= n <= Largest(copies)
  {
    if lists != [] {
      UnionHasTheLargest(lists[..|lists| - 1], content, copies[..|lists| - 1], n);
      assert HasCopies(lists[|lists| - 1], content, copies[|lists| - 1]);
    }
  }

  /** Of datasets whose numbers have no gaps, merging takes the largest number of copies. */
  lemma MergeTakesTheMaximum(datasets: seq<Dataset>, content: Content,
                             copies: seq<int>, n: int)
    requires |copies| == |datasets|
    requires forall i :: 0 <= i < |datasets| ==> HasCopies(datasets[i].operations, content, copies[i])
    ensures ByContent(content, n) in Merged(datasets).operations.kept <==> 1 <= n <= Largest(copies)
  {
    UnionHasTheLargest(OperationLists(datasets), content, copies, n);
    GatheredKeys(OperationLists(datasets), StoredKey, OperationLess);
  }

  /** What LoadFiles makes of a content without identifiers has numbers without gaps. */
  lemma LoadedHasCopies(limit: int, files: seq<File>, dataset: Dataset, content: Content)
    requires Loaded(limit, files).1 && IsDatasetOf(dataset, Loaded(limit, files).0)
    requires forall f :: 0 <= f < |files| ==> Anonymous(files[f].records, content)
    ensures HasCopies(dataset.operations, content, MostCopies(files, content))
  {
    ListKeys(dataset.operations, Loaded(limit, files).0.operations.kept, StoredKey);
    forall n
      ensures ByContent(content, n) in KeysOf(dataset.operations, StoredKey)
         <==> 1 <= n <= MostCopies(files, content)
    {
      LoadKeepsTheMaximum(limit, files, content, n);
    }
  }

  // ----- Loading apart and merging -----

  lemma GatheredPair(a: Dataset, b: Dataset)
    ensures Merged([a, b]).operations.kept
         == PutAll(PutAll(map[], StoredKey, OperationLess, a.operations), StoredKey, OperationLess,
                   b.operations)
  {
    assert [a, b][..0] == [] && [a, b][..1] == [a] && [a, b][..2] == [a, b];
    MergedStep([a, b], 0);
    MergedStep([a, b], 1);
    assert Merged([]).operations.kept == map[];
  }

  lemma {:induction false} AllKeysOfBoth(first: seq<File>, second: seq<File>)
    ensures AllKeys(first + second) == AllKeys(first) + AllKeys(second)
  {
    if second == [] {
      assert first + second == first;
    } else {
      assert (first + second)[..|first + second| - 1] == first + second[..|second| - 1];
      AllKeysOfBoth(first, second[..|second| - 1]);
    }
  }

  /** Loaded together, the record of a key comes from the first group that has one. */
  lemma {:induction false} FirstOfBoth(first: seq<File>, second: seq<File>, key: Key)
    requires key in AllKeys(first + second)
    ensures key in AllKeys(first) || key in AllKeys(second)
    ensures FirstOf(first + second, key) == if key in AllKeys(first) then FirstOf(first, key) else FirstOf(second, key)
  {
    AllKeysOfBoth(first, second);
    if second == [] {
      assert first + second == first;
    } else {
      var rest := second[..|second| - 1];
      assert (first + second)[..|first + second| - 1] == first + rest;
      AllKeysOfBoth(first, rest);
      if key in AllKeys(first + rest) {
        FirstOfBoth(first, rest, key);
      }
    }
  }

  /** Gathering a list with one value for each key gives back the map it lists. */
  lemma {:induction false} GatherLists<K(!new), V(!new)>(m: map<K, V>, key: V -> K, wins: (V, V) -> bool,
                                                         values: seq<V>)
    requires Irreflexive(wins)
    requires forall v :: v in values ==> key(v) in m && m[key(v)] == v
    ensures
      var gathered := PutAll(map[], key, wins, values);
      forall k :: k in gathered ==> k in m && gathered[k] == m[k]
  {
    if values != [] {
      var front := values[..|values| - 1];
      assert forall v :: v in front ==> v in values;
      GatherLists(m, key, wins, front);
      assert values[|values| - 1] in values;
    }
  }

  /** Of two observations under one key, the one that merging keeps. */
  function Chosen(a: Operation, b: Operation): Operation {
    if OperationLess(b, a) then b else a
  }

  lemma GatherOneOnTop(m: map<Key, Operation>, v: Operation, key: Key)
    ensures
      var after := Put(m, StoredKey, OperationLess, v);
      && (key in after <==> key in m || key == StoredKey(v))
      && (key in m && key != StoredKey(v) ==> after[key] == m[key])
      && (key == StoredKey(v) ==> after[key] == if key in m then Chosen(m[key], v) else v)
  {
  }

  /** Gathering a list of `y` on top of `x` chooses where both have the key. */
  lemma {:induction false} GatherOnTop(x: map<Key, Operation>, y: map<Key, Operation>, values: seq<Operation>, key: Key)
    requires forall v :: v in values ==> StoredKey(v) in y && y[StoredKey(v)] == v
    ensures
      var gathered := PutAll(x, StoredKey, OperationLess, values);
      && (key in gathered <==> key in x || key in KeysOf(values, StoredKey))
      && (key in KeysOf(values, StoredKey) ==>
            key in y && gathered[key] == if key in x then Chosen(x[key], y[key]) else y[key])
      && (key in x && key !in KeysOf(values, StoredKey) ==> gathered[key] == x[key])
  {
    if values != [] {
      var front, last := values[..|values| - 1], values[|values| - 1];
      assert last in values && forall v :: v in front ==> v in values;
      GatherOnTop(x, y, front, key);
      KeysOfSplit(values, StoredKey);
      GatherOneOnTop(PutAll(x, StoredKey, OperationLess, front), last, key);
      if key == StoredKey(last) && key in KeysOf(front, StoredKey) {
        ChosenAgain(if key in x then x[key] else last, last);
      }
    }
  }

  lemma ChosenAgain(a: Operation, b: Operation)
    ensures Chosen(Chosen(a, b), b) == Chosen(a, b) && Chosen(b, b) == b
  {
    EarlierIrreflexive();
  }

  /** Gathering one list of each map, key by key. */
  lemma PairOfLists(x: map<Key, Operation>, y: map<Key, Operation>, xs: seq<Operation>, ys: seq<Operation>, key: Key)
    requires Lists(xs, x, StoredKey) && Lists(ys, y, StoredKey)
    ensures
      var merged := PutAll(PutAll(map[], StoredKey, OperationLess, xs), StoredKey, OperationLess, ys);
      && (key in merged <==> key in x || key in y)
      && (key in x && key !in y ==> merged[key] == x[key])
      && (key !in x && key in y ==> merged[key] == y[key])
      && (key in x && key in y ==> merged[key] == Chosen(x[key], y[key]))
  {
    ListKeys(xs, x, StoredKey);
    ListKeys(ys, y, StoredKey);
    EarlierIrreflexive();
    GatherLists(x, StoredKey, OperationLess, xs);
    PutAllKeys(map[], StoredKey, OperationLess, xs);
    assert PutAll(map[], StoredKey, OperationLess, xs) == x;
    GatherOnTop(x, y, ys, key);
  }

  /** What merging two listed datasets keeps, key by key. */
  lemma MergedPair(a: Dataset, b: Dataset, x: map<Key, Operation>, y: map<Key, Operation>, key: Key)
    requires Lists(a.operations, x, StoredKey) && Lists(b.operations, y, StoredKey)
    ensures
      var merged := Merged([a, b]).operations.kept;
      && (key in merged <==> key in x || key in y)
      && (key in x && key !in y ==> merged[key] == x[key])
      && (key !in x && key in y ==> merged[key] == y[key])
      && (key in x && key in y ==> merged[key] == Chosen(x[key], y[key]))
  {
    GatheredPair(a, b);
    PairOfLists(x, y, a.operations, b.operations, key);
  }

  /** What loading two groups of files together keeps, key by key. */
  lemma LoadedTogether(limit: int, first: seq<File>, second: seq<File>, key: Key)
    requires Loaded(limit, first).1 && Loaded(limit, second).1 && Loaded(limit, first + second).1
    ensures
      var x, y := Loaded(limit, first).0.operations.kept, Loaded(limit, second).0.operations.kept;
      var together := Loaded(limit, first + second).0.operations.kept;
      && (key in together <==> key in x || key in y)
      && (key in x ==> Unnumbered(together[key]) == Unnumbered(x[key]))
      && (key !in x && key in y ==> Unnumbered(together[key]) == Unnumbered(y[key]))
  {
    LoadKeepsEveryKey(limit, first);
    LoadKeepsEveryKey(limit, second);
    LoadKeepsEveryKey(limit, first + second);
    AllKeysOfBoth(first, second);
    if key in AllKeys(first + second) {
      FirstOfBoth(first, second, key);
    }
  }

  ghost predicate SameButChosen(merged: map<Key, Operation>, together: map<Key, Operation>, x: map<Key, Operation>,
                                y: map<Key, Operation>, key: Key)
  {
    if key in x && key in y then
      && key in merged && merged[key] == Chosen(x[key], y[key])
      && key in together && Unnumbered(together[key]) == Unnumbered(x[key])
    else if key in x || key in y then
      key in merged && key in together && Unnumbered(merged[key]) == Unnumbered(together[key])
    else key !in merged && key !in together
  }

  /**
   Loading two groups of files apart and merging keeps an observation for the same keys as loading them together.
   Where only one group has the key, it is the same record, up to its number in the input. Where both have it, loading
   together keeps the first group's record, and merging the second group's exactly when that one is earlier.
   */
  lemma MergeOfLoads(limit: int, first: seq<File>, second: seq<File>, a: Dataset, b: Dataset, key: Key)
    requires Loaded(limit, first).1 && IsDatasetOf(a, Loaded(limit, first).0)
    requires Loaded(limit, second).1 && IsDatasetOf(b, Loaded(limit, second).0)
    requires Loaded(limit, first + second).1
    ensures
      SameButChosen(Merged([a, b]).operations.kept, Loaded(limit, first + second).0.operations.kept,
                    Loaded(limit, first).0.operations.kept, Loaded(limit, second).0.operations.kept, key)
  {
    MergedPair(a, b, Loaded(limit, first).0.operations.kept, Loaded(limit, second).0.operations.kept, key);
    LoadedTogether(limit, first, second, key);
  }

  // ----- The earliest observation is kept -----

  /** The time of `a` is known if that of `b` is, and is no later. */
  predicate NoLater(a: Operation, b: Operation) {
    b.observedAt != 0 ==> a.observedAt != 0 && a.observedAt <= b.observedAt
  }

  lemma PutKeepsEarlier(m: map<Key, Operation>, v: Operation)
    ensures
      var after, key := Put(m, StoredKey, OperationLess, v), StoredKey(v);
      && key in after && NoLater(after[key], v)
      && (forall k :: k in m ==> k in after && NoLater(after[k], m[k]))
  {
  }

  /** Whatever the order of the list, each key keeps an observation that is no later than any in the list. */
  lemma {:induction false} PutAllKeepsEarliest(m: map<Key, Operation>, values: seq<Operation>, i: nat)
    requires i < |values|
    ensures
      var after, key := PutAll(m, StoredKey, OperationLess, values), StoredKey(values[i]);
      key in after && NoLater(after[key], values[i])
  {
    var front, last := values[..|values| - 1], values[|values| - 1];
    PutKeepsEarlier(PutAll(m, StoredKey, OperationLess, front), last);
    if i < |front| {
      PutAllKeepsEarliest(m, front, i);
    }
  }

  lemma {:induction false} PutAllNoLater(m: map<Key, Operation>, values: seq<Operation>, key: Key)
    requires key in m
    ensures
      var after := PutAll(m, StoredKey, OperationLess, values);
      key in after && NoLater(after[key], m[key])
  {
    if values != [] {
      var front, last := values[..|values| - 1], values[|values| - 1];
      PutAllNoLater(m, front, key);
      PutKeepsEarlier(PutAll(m, StoredKey, OperationLess, front), last);
    }
  }

  lemma {:induction false} GatheredKeepsEarliest(lists: seq<seq<Operation>>, n: nat, i: nat)
    requires n < |lists| && i < |lists[n]|
    ensures
      var after, key := Gathered(lists, StoredKey, OperationLess), StoredKey(lists[n][i]);
      key in after && NoLater(after[key], lists[n][i])
  {
    var front, last := lists[..|lists| - 1], lists[|lists| - 1];
    if n < |front| {
      GatheredKeepsEarliest(front, n, i);
      PutAllNoLater(Gathered(front, StoredKey, OperationLess), last, StoredKey(lists[n][i]));
    } else {
      PutAllKeepsEarliest(Gathered(front, StoredKey, OperationLess), last, i);
    }
  }

  /**
   Merging keeps the earliest: under the key of any observation of any dataset there is one whose time is known if that
   one's is, and is no later.
   */
  lemma EarliestIsKept(datasets: seq<Dataset>, n: nat, i: nat)
    requires n < |datasets| && i < |datasets[n].operations|
    ensures
      var kept, v := Merged(datasets).operations.kept, datasets[n].operations[i];
      StoredKey(v) in kept && NoLater(kept[StoredKey(v)], v)
  {
    GatheredKeepsEarliest(OperationLists(datasets), n, i);
  }

  lemma {:induction false} PutAllKeepsOwn(m: map<Key, Operation>, values: seq<Operation>, key: Key)
    requires key in PutAll(m, StoredKey, OperationLess, values)
    ensures
      var v := PutAll(m, StoredKey, OperationLess, values)[key];
      (key in m && v == m[key]) || v in values
  {
    if values != [] {
      var front, last := values[..|values| - 1], values[|values| - 1];
      assert last in values && forall v :: v in front ==> v in values;
      if key in PutAll(m, StoredKey, OperationLess, front) {
        PutAllKeepsOwn(m, front, key);
      }
    }
  }

  lemma {:induction false} GatheredKeepsOwn(lists: seq<seq<Operation>>, key: Key) returns (n: nat)
    requires key in Gathered(lists, StoredKey, OperationLess)
    ensures n < |lists| && Gathered(lists, StoredKey, OperationLess)[key] in lists[n]
  {
    var front, last := lists[..|lists| - 1], lists[|lists| - 1];
    PutAllKeepsOwn(Gathered(front, StoredKey, OperationLess), last, key);
    if Gathered(lists, StoredKey, OperationLess)[key] in last {
      n := |front|;
    } else {
      n := GatheredKeepsOwn(front, key);
    }
  }

  /** And what is kept is an observation of some dataset, unchanged. */
  lemma KeptIsObserved(datasets: seq<Dataset>, key: Key) returns (n: nat)
    requires key in Merged(datasets).operations.kept
    ensures n < |datasets| && Merged(datasets).operations.kept[key] in datasets[n].operations
  {
    n := GatheredKeepsOwn(OperationLists(datasets), key);
  }

  // ----- Merging a dataset with itself -----

  /** A list with one value for each key, gathered once, is not changed by gathering it again. */
  lemma {:induction false} NothingNew<K(!new), V(!new)>(m: map<K, V>, key: V -> K, wins: (V, V) -> bool,
                                                        values: seq<V>)
    requires Irreflexive(wins)
    requires forall v :: v in values ==> key(v) in m && m[key(v)] == v
    ensures PutAll(m, key, wins, values) == m
  {
    if values != [] {
      NothingNew(m, key, wins, values[..|values| - 1]);
      assert values[|values| - 1] in values;
    }
  }

  lemma GatheredOne(a: Dataset)
    ensures Merged([a]).operations.kept == PutAll(map[], StoredKey, OperationLess, a.operations)
  {
    assert [a][..0] == [] && [a][..1] == [a];
    MergedStep([a], 0);
  }

  lemma GatherAll<K(!new), V(!new)>(m: map<K, V>, key: V -> K, wins: (V, V) -> bool, values: seq<V>)
    requires Irreflexive(wins) && Lists(values, m, key)
    ensures PutAll(map[], key, wins, values) == m
    ensures PutAll(m, key, wins, values) == m
  {
    GatherLists(m, key, wins, values);
    PutAllKeys(map[], key, wins, values);
    ListKeys(values, m, key);
    NothingNew(m, key, wins, values);
  }

  /** Merging a dataset with itself keeps exactly its observations, unchanged, each once. */
  lemma MergeWithItself(state: State, dataset: Dataset)
    requires IsDatasetOf(dataset, state)
    ensures Merged([dataset, dataset]).operations.kept == state.operations.kept
    ensures Merged([dataset]).operations.kept == state.operations.kept
  {
    EarlierIrreflexive();
    GatherAll(state.operations.kept, StoredKey, OperationLess, dataset.operations);
    GatheredPair(dataset, dataset);
    GatheredOne(dataset);
  }

  // ----- Conservation -----

  lemma MergedSizeStep(datasets: seq<Dataset>)
    requires datasets != []
    ensures Unique(Merged(datasets))
         <= Unique(Merged(datasets[..|datasets| - 1])) + Entries(datasets[|datasets| - 1])
  {
    var d := datasets[|datasets| - 1];
    MergedStep(datasets, |datasets| - 1);
    assert datasets[..|datasets| - 1 + 1] == datasets;
    var before := Merged(datasets[..|datasets| - 1]);
    PutAllSize(before.others.targets, TargetKey, LastWins, d.targets);
    PutAllSize(before.others.discoveries, DiscoveryKey, LastWins, d.discoveries);
    PutAllSize(before.others.interesting, InterestingKey, LastWins, d.interesting);
    PutAllSize(before.operations.kept, StoredKey, OperationLess, d.operations);
    PutAllSize(before.others.failures, FailureKey, LastWins, d.failures);
    PutAllSize(before.others.findings, ImportedFindingKey, LastWins, d.findings);
  }

  lemma NothingMerged()
    ensures Unique(Merged([])) == 0
  {
  }

  /** Where no dataset lists more than it counted, neither does the merged one: nothing is clamped. */
  lemma {:induction false} MergeConserves(datasets: seq<Dataset>)
    requires forall i :: 0 <= i < |datasets| ==> Entries(datasets[i]) <= datasets[i].raw
    ensures Unique(Merged(datasets)) <= RawSum(datasets)
  {
    if datasets == [] {
      NothingMerged();
    } else {
      MergeConserves(datasets[..|datasets| - 1]);
      MergedSizeStep(datasets);
    }
  }
}
