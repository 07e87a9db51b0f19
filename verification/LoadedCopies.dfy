/**
 How many observations of one content a load keeps. A record without identifiers is kept under the number it has among
 all records of its content in its file, those with identifiers included.
 */
module LoadedCopies {
  import opened Text
  import opened Records
  import opened Loading
  import opened Unions

  // ----- Which copies are kept -----

  /** A record of the content that has no identifiers. */
  predicate IsBare(record: Record, content: Content) {
    IsOf(record, content) && !HasId(record.operation)
  }

  function BareCopies(records: seq<Record>, content: Content): nat {
    if records == [] then 0
    else
      BareCopies(records[..|records| - 1], content) + (if IsBare(records[|records| - 1], content) then 1 else 0)
  }

  /** The numbers of the records without identifiers: the place of each among all records of the content. */
  function Places(records: seq<Record>, content: Content): set<int> {
    set i | 0 <= i < |records| && IsBare(records[i], content) :: Copies(records[..i + 1], content)
  }

  ghost predicate HasPlace(records: seq<Record>, content: Content, i: int, n: int) {
    0 <= i < |records| && IsBare(records[i], content) && Copies(records[..i + 1], content) == n
  }

  lemma PlaceStays(records: seq<Record>, content: Content, i: int, n: int)
    requires records != [] && i != |records| - 1
    ensures HasPlace(records[..|records| - 1], content, i, n) <==> HasPlace(records, content, i, n)
  {
    if 0 <= i < |records| {
      assert records[..|records| - 1][..i + 1] == records[..i + 1];
    }
  }

  lemma InPlaces(records: seq<Record>, content: Content, n: int)
    ensures n in Places(records, content) <==> exists i :: HasPlace(records, content, i, n)
  {
    if n in Places(records, content) {
      var i :| 0 <= i < |records| && IsBare(records[i], content) && Copies(records[..i + 1], content) == n;
      assert HasPlace(records, content, i, n);
    }
  }

  lemma PlacesNext(records: seq<Record>, content: Content)
    requires records != []
    ensures
      var front, last := records[..|records| - 1], records[|records| - 1];
      Places(records, content)
      == Places(front, content) + (if IsBare(last, content) then {Copies(records, content)} else {})
  {
    var front, last := records[..|records| - 1], |records| - 1;
    assert records[..last + 1] == records;
    forall n
      ensures n in Places(records, content)
         <==> n in Places(front, content) || (IsBare(records[last], content) && n == Copies(records, content))
    {
      InPlaces(records, content, n);
      InPlaces(front, content, n);
      if i :| HasPlace(records, content, i, n) && i != last {
        PlaceStays(records, content, i, n);
      }
      if i :| HasPlace(front, content, i, n) {
        PlaceStays(records, content, i, n);
      }
      assert HasPlace(records, content, last, n) <==> IsBare(records[last], content) && n == Copies(records, content);
    }
  }

  /** The numbers are as many as the records without identifiers, and go no further than the copies. */
  lemma {:induction false} PlacesCounted(records: seq<Record>, content: Content)
    ensures |Places(records, content)| == BareCopies(records, content)
    ensures Places(records, content) <= UpTo(Copies(records, content))
  {
    if records == [] {
      assert Places(records, content) == {};
    } else {
      var front := records[..|records| - 1];
      PlacesCounted(front, content);
      PlacesNext(records, content);
      CopiesNotNegative(front, content);
      assert UpTo(Copies(front, content)) <= UpTo(Copies(records, content));
    }
  }

  lemma {:induction false} FileKeysOfPlaces(records: seq<Record>, content: Content, n: int)
    ensures ByContent(content, n) in FileKeys(records) <==> n in Places(records, content)
  {
    if records == [] {
    } else {
      FileKeysOfPlaces(records[..|records| - 1], content, n);
      PlacesNext(records, content);
    }
  }

  /** The numbers of each file. */
  function PlacesOf(files: seq<File>, content: Content): seq<set<int>> {
    seq(|files|, f requires 0 <= f < |files| => Places(files[f].records, content))
  }

  lemma PlacesOfFront(files: seq<File>, content: Content)
    requires files != []
    ensures PlacesOf(files, content)[..|files| - 1] == PlacesOf(files[..|files| - 1], content)
  {
  }

  lemma {:induction false} AllKeysOfPlaces(files: seq<File>, content: Content, n: int)
    ensures ByContent(content, n) in AllKeys(files) <==> n in Union(PlacesOf(files, content))
  {
    if files == [] {
    } else {
      AllKeysOfPlaces(files[..|files| - 1], content, n);
      FileKeysOfPlaces(files[|files| - 1].records, content, n);
      PlacesOfFront(files, content);
    }
  }

  /**
   Which copies of a content a completed load keeps, whatever its records look like: those with a number that some
   file gives one of its records without identifiers.
   */
  lemma LoadKeepsThePlaces(limit: int, files: seq<File>, content: Content, n: int)
    requires Loaded(limit, files).1
    ensures ByContent(content, n) in Loaded(limit, files).0.operations.kept
       <==> exists f :: 0 <= f < |files| && n in Places(files[f].records, content)
  {
    LoadKeepsEveryKey(limit, files);
    AllKeysOfPlaces(files, content, n);
    InUnion(PlacesOf(files, content), n);
    if f :| 0 <= f < |files| && n in Places(files[f].records, content) {
      assert n in PlacesOf(files, content)[f];
    }
    if f :| 0 <= f < |files| && n in PlacesOf(files, content)[f] {
      assert n in Places(files[f].records, content);
    }
  }

  // ----- How many copies are kept -----

  /** The keys of the content without identifiers. */
  function OfContent(keys: set<Key>, content: Content): set<Key> {
    set k | k in keys && k.ByContent? && k.content == content
  }

  /** The numbers in them. */
  function Numbers(keys: set<Key>, content: Content): set<int> {
    set k | k in OfContent(keys, content) :: k.occurrence
  }

  lemma InNumbers(keys: set<Key>, content: Content, n: int)
    ensures n in Numbers(keys, content) <==> ByContent(content, n) in keys
  {
    if ByContent(content, n) in keys {
      assert ByContent(content, n) in OfContent(keys, content);
    }
  }

  /** Each number stands for one key. */
  lemma {:induction false} NumbersCounted(keys: set<Key>, content: Content)
    ensures |Numbers(keys, content)| == |OfContent(keys, content)|
    decreases |keys|
  {
    if k :| k in OfContent(keys, content) {
      var rest := keys - {k};
      NumbersCounted(rest, content);
      assert OfContent(keys, content) == OfContent(rest, content) + {k};
      forall n
        ensures n in Numbers(keys, content) <==> n in Numbers(rest, content) + {k.occurrence}
      {
        InNumbers(keys, content, n);
        InNumbers(rest, content, n);
      }
      InNumbers(rest, content, k.occurrence);
      assert Numbers(keys, content) == Numbers(rest, content) + {k.occurrence};
    } else {
      assert OfContent(keys, content) == {} && Numbers(keys, content) == {};
    }
  }

  lemma KeptNumbers(limit: int, files: seq<File>, content: Content)
    requires Loaded(limit, files).1
    ensures Numbers(Loaded(limit, files).0.operations.kept.Keys, content) == Union(PlacesOf(files, content))
  {
    var keys := Loaded(limit, files).0.operations.kept.Keys;
    LoadKeepsEveryKey(limit, files);
    forall n
      ensures n in Numbers(keys, content) <==> n in Union(PlacesOf(files, content))
    {
      InNumbers(keys, content, n);
      AllKeysOfPlaces(files, content, n);
    }
  }

  /** The largest number of records without identifiers in any single file. */
  function MostBareCopies(files: seq<File>, content: Content): nat {
    if files == [] then 0
    else
      var before := MostBareCopies(files[..|files| - 1], content);
      var here := BareCopies(files[|files| - 1].records, content);
      if before < here then here else before
  }

  lemma {:induction false} MostBareIsLargest(files: seq<File>, content: Content)
    ensures MostBareCopies(files, content) == LargestSize(PlacesOf(files, content))
  {
    if files == [] {
    } else {
      MostBareIsLargest(files[..|files| - 1], content);
      PlacesOfFront(files, content);
      PlacesCounted(files[|files| - 1].records, content);
    }
  }

  /** This file has a record without identifiers at every place where any file has one. */
  predicate FileHasAll(files: seq<File>, content: Content, f: int) {
    && 0 <= f < |files|
    && forall g :: 0 <= g < |files| ==> Places(files[g].records, content) <= Places(files[f].records, content)
  }

  predicate OneFileHasAll(files: seq<File>, content: Content) {
    files == [] || exists f :: 0 <= f < |files| && FileHasAll(files, content, f)
  }

  lemma OneFileIsOneSet(files: seq<File>, content: Content)
    ensures OneFileHasAll(files, content) <==> OneHasAll(PlacesOf(files, content))
  {
    var sets := PlacesOf(files, content);
    forall f
      ensures FileHasAll(files, content, f) <==> HasAll(sets, f)
    {
      if HasAll(sets, f) {
        assert forall g :: 0 <= g < |sets| ==> sets[g] == Places(files[g].records, content);
      }
    }
  }

  function MostCopies(files: seq<File>, content: Content): int {
    if files == [] then 0
    else
      var before, here := MostCopies(files[..|files| - 1], content), Copies(files[|files| - 1].records, content);
      if before < here then here else before
  }

  lemma {:induction false} PlacesWithinMost(files: seq<File>, content: Content)
    ensures Union(PlacesOf(files, content)) <= UpTo(MostCopies(files, content))
    ensures MostCopies(files, content) >= 0
  {
    if files == [] {
    } else {
      PlacesWithinMost(files[..|files| - 1], content);
      PlacesCounted(files[|files| - 1].records, content);
      CopiesNotNegative(files[|files| - 1].records, content);
      PlacesOfFront(files, content);
    }
  }

  /**
   How many observations of a content without identifiers a completed load keeps: never fewer than any single file
   has, and the largest number that a single file has exactly when one file has them at all the places where any file
   does. Records with identifiers take up places, so that the places of two files may differ; counting those too, it
   is never more than a single file has.
   */
  lemma MaximumExactly(limit: int, files: seq<File>, content: Content)
    requires Loaded(limit, files).1
    ensures
      var kept := OfContent(Loaded(limit, files).0.operations.kept.Keys, content);
      && MostBareCopies(files, content) <= |kept| <= MostCopies(files, content)
      && (|kept| == MostBareCopies(files, content) <==> OneFileHasAll(files, content))
  {
    KeptNumbers(limit, files, content);
    NumbersCounted(Loaded(limit, files).0.operations.kept.Keys, content);
    LargestExactly(PlacesOf(files, content));
    MostBareIsLargest(files, content);
    OneFileIsOneSet(files, content);
    PlacesWithinMost(files, content);
    SizeOfPart(Union(PlacesOf(files, content)), UpTo(MostCopies(files, content)));
    SizeUpTo(MostCopies(files, content));
  }

  // ----- Contents without identifiers, and contents with some -----

  /** No record of the content has identifiers. */
  ghost predicate Anonymous(records: seq<Record>, content: Content) {
    forall i :: 0 <= i < |records| && IsOf(records[i], content) ==> !HasId(records[i].operation)
  }

  /** Where no record has identifiers, the places are 1, 2, ... up to the number of copies. */
  lemma {:induction false} AnonymousPlaces(records: seq<Record>, content: Content)
    requires Anonymous(records, content)
    ensures Places(records, content) == UpTo(Copies(records, content))
  {
    CopiesNotNegative(records, content);
    if records == [] {
    } else {
      var front := records[..|records| - 1];
      assert forall i :: 0 <= i < |front| ==> front[i] == records[i];
      AnonymousPlaces(front, content);
      CopiesNotNegative(front, content);
      PlacesNext(records, content);
    }
  }

  lemma {:induction false} AnonymousUnion(files: seq<File>, content: Content)
    requires forall f :: 0 <= f < |files| ==> Anonymous(files[f].records, content)
    ensures Union(PlacesOf(files, content)) == UpTo(MostCopies(files, content))
  {
    if files == [] {
    } else {
      AnonymousUnion(files[..|files| - 1], content);
      AnonymousPlaces(files[|files| - 1].records, content);
      PlacesOfFront(files, content);
    }
  }

  /**
   So for a content without identifiers de-duplication is a pointwise maximum: a completed load keeps its copies
   1, 2, ... up to the largest number that any single file has.
   */
  lemma LoadKeepsTheMaximum(limit: int, files: seq<File>, content: Content, n: int)
    requires Loaded(limit, files).1
    requires forall f :: 0 <= f < |files| ==> Anonymous(files[f].records, content)
    ensures ByContent(content, n) in Loaded(limit, files).0.operations.kept
       <==> 1 <= n <= MostCopies(files, content)
  {
    LoadKeepsEveryKey(limit, files);
    AllKeysOfPlaces(files, content, n);
    AnonymousUnion(files, content);
  }

  const SHARED := Content("https://example.test", "GET", "https://example.test/a", "/a", 200, "", "", "", "", "", "",
                          "", "", false)
  const PLAIN := Operation("", 0, 0, SHARED, "", "", 0, 0)
  const MARKED := PLAIN.(runID := "run")
  const MARKED_FIRST := File("a.json", [OperationRecord(MARKED), OperationRecord(PLAIN)], false)
  const PLAIN_ONLY := File("b.json", [OperationRecord(PLAIN)], false)
  const MIXED := [MARKED_FIRST, PLAIN_ONLY]

  lemma CleanedShared()
    ensures Cleaned(SHARED) == SHARED
  {
    assert TrimSpace("GET") == "GET";
    assert ToUpper("GET") == "GET";
  }

  lemma PlacesOfMixed()
    ensures PlacesOf(MIXED, SHARED) == [{2}, {1}] && MostBareCopies(MIXED, SHARED) == 1
  {
    CleanedShared();
    PlacesOfTwo(OperationRecord(MARKED), OperationRecord(PLAIN));
    PlacesOfOne(OperationRecord(PLAIN));
    MostBareIsLargest(MIXED, SHARED);
    assert PlacesOf(MIXED, SHARED) == [{2}, {1}];
    PairOfSets(2, 1);
  }

  lemma PlacesOfOne(record: Record)
    ensures Copies([record], SHARED) == if IsOf(record, SHARED) then 1 else 0
    ensures Places([record], SHARED) == if IsBare(record, SHARED) then {1} else {}
  {
    assert [record][..0] == [];
    assert Copies([], SHARED) == 0;
    PlacesNext([record], SHARED);
  }

  lemma PlacesOfTwo(first: Record, second: Record)
    ensures
      Places([first, second], SHARED)
      == Places([first], SHARED) + (if IsBare(second, SHARED) then {Copies([first], SHARED) + 1} else {})
  {
    assert [first, second][..1] == [first];
    PlacesNext([first, second], SHARED);
  }

  lemma AddedNext(state: State, limit: int, records: seq<Record>, record: Record)
    requires state.tallies.files != [] && AddedAll(state, limit, records).1
    ensures AddedAll(state, limit, records + [record]) == Added(AddedAll(state, limit, records).0, limit, record)
  {
    assert (records + [record])[..|records|] == records;
  }

  lemma LoadedNext(limit: int, files: seq<File>, file: File)
    requires Loaded(limit, files).1
    ensures
      var (after, whole) := AddedAll(Opened(Loaded(limit, files).0, file.path), limit, file.records);
      Loaded(limit, files + [file]) == (after, whole && !file.broken)
  {
    assert (files + [file])[..|files|] == files;
  }

  /** A valid observation is added while the limit is not reached. */
  lemma GoesOn(state: State, limit: int, records: seq<Record>, operation: Operation)
    requires state.tallies.files != [] && AddedAll(state, limit, records).1
    requires AddedAll(state, limit, records).0.tallies.raw < limit && operation.content == SHARED
    ensures
      var all := AddedAll(state, limit, records + [OperationRecord(operation)]);
      all.1 && all.0.tallies.raw == AddedAll(state, limit, records).0.tallies.raw + 1
  {
    CleanedShared();
    AddedNext(state, limit, records, OperationRecord(operation));
  }

  lemma MixedLoads()
    ensures Loaded(3, MIXED).1
  {
    LoadedNext(3, [], MARKED_FIRST);
    var start := Opened(EMPTY, "a.json");
    GoesOn(start, 3, [], MARKED);
    assert [] + [OperationRecord(MARKED)] == [OperationRecord(MARKED)];
    GoesOn(start, 3, [OperationRecord(MARKED)], PLAIN);
    assert [OperationRecord(MARKED)] + [OperationRecord(PLAIN)] == MARKED_FIRST.records;
    assert [] + [MARKED_FIRST] == [MARKED_FIRST];
    LoadedNext(3, [MARKED_FIRST], PLAIN_ONLY);
    GoesOn(Opened(Loaded(3, [MARKED_FIRST]).0, "b.json"), 3, [], PLAIN);
    assert [] + [OperationRecord(PLAIN)] == PLAIN_ONLY.records;
    assert [MARKED_FIRST] + [PLAIN_ONLY] == MIXED;
  }

  /**
   For example, a file with a record that has an identifier before one of the same content that has none, and a file
   with one that has none: each file has one without identifiers, and the load keeps two.
   */
  lemma MixedRecordsKeepMore()
    ensures Loaded(3, MIXED).1 && MostBareCopies(MIXED, SHARED) == 1
    ensures Numbers(Loaded(3, MIXED).0.operations.kept.Keys, SHARED) == {1, 2}
    ensures |OfContent(Loaded(3, MIXED).0.operations.kept.Keys, SHARED)| == 2
    ensures !OneFileHasAll(MIXED, SHARED)
  {
    MixedLoads();
    PlacesOfMixed();
    KeptNumbers(3, MIXED, SHARED);
    NumbersCounted(Loaded(3, MIXED).0.operations.kept.Keys, SHARED);
    PairOfSets(2, 1);
    MaximumExactly(3, MIXED, SHARED);
  }
}
