/**
 Loading report files: every record is counted, and kept under its key. An observation without identifiers is kept
 under its content and its occurrence: the first, second, third record of that content in its file.
 */
module Loading {
  import opened Text
  import opened Records

  datatype Record =
    | TargetRecord(target: string)
    | DiscoveryRecord(discovery: Discovery)
    | InterestingRecord(item: Interesting)
    | OperationRecord(operation: Operation)
    | FailureRecord(failure: Failure)
    | FindingRecord(finding: Finding)

  /** What parsing one file yields: its records in order, and whether an error ends it. */
  datatype File = File(path: string, records: seq<Record>, broken: bool)

  datatype InputFile = InputFile(path: string, records: int)

  /** The maps that need no counting of occurrences. */
  datatype Others = Others(targets: map<string, string>, discoveries: map<string, Discovery>,
                           interesting: map<(string, int), Interesting>,
                           failures: map<(string, string), Failure>, findings: map<FindingKey, Finding>)

  datatype Operations = Operations(kept: map<Key, Operation>, seen: map<(int, Content), int>, ordinal: int)

  datatype Tallies = Tallies(files: seq<InputFile>, raw: int)

  datatype State = State(others: Others, operations: Operations, tallies: Tallies)

  const EMPTY := State(Others(map[], map[], map[], map[], map[]), Operations(map[], map[], 0), Tallies([], 0))

  // ----- One record -----

  function LastWins<V>(next: V, existing: V): bool {
    true
  }

  function FirstWins<V>(next: V, existing: V): bool {
    false
  }

  /** A discovery without a version gives way to the next one. */
  function Versionless(next: Discovery, existing: Discovery): bool {
    existing.version == ""
  }

  /** Records that are passed over without being counted. */
  predicate PassedOver(record: Record) {
    match record
    case TargetRecord(target) => target == ""
    case DiscoveryRecord(discovery) => discovery.url == ""
    case InterestingRecord(item) => item.url == ""
    case _ => false
  }

  function Cleaned(content: Content): Content {
    content.(verb := ToUpper(TrimSpace(content.verb)))
  }

  /** Records that end the load. */
  predicate Invalid(record: Record) {
    match record
    case OperationRecord(operation) =>
      var content := Cleaned(operation.content);
      content.verb == "" || content.target == "" || content.status < 0 || content.status > 999
    case FailureRecord(failure) => failure.source == "" || failure.error == ""
    case FindingRecord(finding) => TrimSpace(finding.severity) == "" || TrimSpace(finding.title) == ""
    case _ => false
  }

  function Counted(tallies: Tallies): Tallies {
    if tallies.files == [] then tallies
    else
      var last := |tallies.files| - 1;
      Tallies(tallies.files[last := tallies.files[last].(records := tallies.files[last].records + 1)],
              tallies.raw + 1)
  }

  /** How often the content was seen in the file. */
  function Seen(operations: Operations, file: int, content: Content): int {
    if (file, content) in operations.seen then operations.seen[(file, content)] else 0
  }

  function Numbered(operation: Operation, path: string, ordinal: int, occurrence: int): Operation {
    operation.(content := Cleaned(operation.content), inputPath := path, inputOrdinal := ordinal,
               inputOccurrence := occurrence)
  }

  function Stored(operations: Operations, operation: Operation, file: int, path: string): Operations {
    var content := Cleaned(operation.content);
    var occurrence := Seen(operations, file, content) + 1;
    Operations(Put(operations.kept, StoredKey, FirstWins,
                   Numbered(operation, path, operations.ordinal + 1, occurrence)),
               operations.seen[(file, content) := occurrence], operations.ordinal + 1)
  }

  function Filed(others: Others, record: Record): Others {
    match record
    case TargetRecord(target) => others.(targets := Put(others.targets, TargetKey, LastWins, target))
    case DiscoveryRecord(discovery) =>
      others.(discoveries := Put(others.discoveries, DiscoveryKey, Versionless, discovery))
    case InterestingRecord(item) =>
      others.(interesting := Put(others.interesting, InterestingKey, LastWins, item))
    case FailureRecord(failure) => others.(failures := Put(others.failures, FailureKey, LastWins, failure))
    case FindingRecord(finding) => others.(findings := Put(others.findings, ImportedFindingKey, LastWins, finding))
    case OperationRecord(_) => others
  }

  function Kept(state: State, record: Record): State
    requires state.tallies.files != []
  {
    var file := |state.tallies.files| - 1;
    if record.OperationRecord? then
      state.(operations := Stored(state.operations, record.operation, file, state.tallies.files[file].path))
    else
      state.(others := Filed(state.others, record))
  }

  /** The state after one record, and whether the load goes on. */
  function Added(state: State, limit: int, record: Record): (State, bool)
    requires state.tallies.files != []
  {
    if PassedOver(record) then (state, true)
    else if Invalid(record) then (state, false)
    else
      var counted := state.(tallies := Counted(state.tallies));
      if counted.tallies.raw > limit then (counted, false) else (Kept(counted, record), true)
  }

  function AddedAll(state: State, limit: int, records: seq<Record>): (r: (State, bool))
    requires state.tallies.files != []
    ensures |r.0.tallies.files| == |state.tallies.files|
  {
    if records == [] then (state, true)
    else
      var (before, going) := AddedAll(state, limit, records[..|records| - 1]);
      if going then Added(before, limit, records[|records| - 1]) else (before, false)
  }

  function Opened(state: State, path: string): State {
    state.(tallies := state.tallies.(files := state.tallies.files + [InputFile(path, 0)]))
  }

  function Loaded(limit: int, files: seq<File>): (State, bool) {
    if files == [] then (EMPTY, true)
    else
      var (before, going) := Loaded(limit, files[..|files| - 1]);
      var file := files[|files| - 1];
      if !going then (before, false)
      else
        var (after, whole) := AddedAll(Opened(before, file.path), limit, file.records);
        (after, whole && !file.broken)
  }

  // ----- Conservation -----

  function SumOfRecords(files: seq<InputFile>): int {
    if files == [] then 0 else SumOfRecords(files[..|files| - 1]) + files[|files| - 1].records
  }

  function Unique(state: State): int {
    |state.others.targets| + |state.others.discoveries| + |state.others.interesting|
    + |state.operations.kept| + |state.others.failures| + |state.others.findings|
  }

  /** Everything counted is counted for its file, and nothing is kept that was not counted. */
  predicate Balanced(state: State) {
    && state.tallies.raw == SumOfRecords(state.tallies.files)
    && Unique(state) <= state.tallies.raw
  }

  lemma CountedOnce(tallies: Tallies)
    requires tallies.files != []
    ensures SumOfRecords(Counted(tallies).files) == SumOfRecords(tallies.files) + 1
  {
    var files, after := tallies.files, Counted(tallies).files;
    assert after[..|after| - 1] == files[..|files| - 1];
  }

  lemma FiledOnce(others: Others, record: Record)
    ensures
      var after := Filed(others, record);
      && |after.targets| + |after.discoveries| + |after.interesting| + |after.failures| + |after.findings|
         <= |others.targets| + |others.discoveries| + |others.interesting| + |others.failures|
            + |others.findings| + (if record.OperationRecord? then 0 else 1)
  {
    match record
    case TargetRecord(target) => PutFacts(others.targets, TargetKey, LastWins, target);
    case DiscoveryRecord(discovery) => PutFacts(others.discoveries, DiscoveryKey, Versionless, discovery);
    case InterestingRecord(item) => PutFacts(others.interesting, InterestingKey, LastWins, item);
    case FailureRecord(failure) => PutFacts(others.failures, FailureKey, LastWins, failure);
    case FindingRecord(finding) => PutFacts(others.findings, ImportedFindingKey, LastWins, finding);
    case OperationRecord(_) =>
  }

  lemma StoredOnce(operations: Operations, operation: Operation, file: int, path: string)
    ensures |Stored(operations, operation, file, path).kept| <= |operations.kept| + 1
  {
    var occurrence := Seen(operations, file, Cleaned(operation.content)) + 1;
    PutFacts(operations.kept, StoredKey, FirstWins,
             Numbered(operation, path, operations.ordinal + 1, occurrence));
  }

  lemma AddedBalanced(state: State, limit: int, record: Record)
    requires state.tallies.files != [] && Balanced(state)
    ensures Balanced(Added(state, limit, record).0)
    ensures Added(state, limit, record).1 && state.tallies.raw <= limit
        ==> Added(state, limit, record).0.tallies.raw <= limit
  {
    if !PassedOver(record) && !Invalid(record) {
      CountedOnce(state.tallies);
      var counted := state.(tallies := Counted(state.tallies));
      var file := |counted.tallies.files| - 1;
      if record.OperationRecord? {
        StoredOnce(counted.operations, record.operation, file, counted.tallies.files[file].path);
      } else {
        FiledOnce(counted.others, record);
      }
    }
  }

  lemma {:induction false} AddedAllBalanced(state: State, limit: int, records: seq<Record>)
    requires state.tallies.files != [] && Balanced(state)
    ensures Balanced(AddedAll(state, limit, records).0)
    ensures AddedAll(state, limit, records).1 && state.tallies.raw <= limit
        ==> AddedAll(state, limit, records).0.tallies.raw <= limit
  {
    if records != [] {
      AddedAllBalanced(state, limit, records[..|records| - 1]);
      var (before, going) := AddedAll(state, limit, records[..|records| - 1]);
      if going {
        AddedBalanced(before, limit, records[|records| - 1]);
      }
    }
  }

  /**
   Whatever the files hold: the raw count is the sum of the files' counts, never above the limit, and at least the
   number of records kept. So the duplicates, raw minus kept, need no clamping at zero.
   */
  lemma {:induction false} LoadConserves(limit: int, files: seq<File>)
    requires 0 <= limit
    ensures Balanced(Loaded(limit, files).0)
    ensures Loaded(limit, files).1 ==> Loaded(limit, files).0.tallies.raw <= limit
  {
    if files != [] {
      LoadConserves(limit, files[..|files| - 1]);
      var (before, going) := Loaded(limit, files[..|files| - 1]);
      if going {
        var file := files[|files| - 1];
        var ready := Opened(before, file.path);
        assert ready.tallies.files[..|ready.tallies.files| - 1] == before.tallies.files;
        AddedAllBalanced(ready, limit, file.records);
      }
    }
  }

  // ----- What is kept -----

  predicate IsOf(record: Record, content: Content) {
    record.OperationRecord? && Cleaned(record.operation.content) == content
  }

  /** How many records of the content there are. */
  function Copies(records: seq<Record>, content: Content): int {
    if records == [] then 0
    else
      Copies(records[..|records| - 1], content) + (if IsOf(records[|records| - 1], content) then 1 else 0)
  }

  /** The key of the last record: its identifiers, or its content and how many records of it there are so far. */
  function KeyOfLast(records: seq<Record>): Key
    requires records != [] && records[|records| - 1].OperationRecord?
  {
    var operation := records[|records| - 1].operation;
    var content := Cleaned(operation.content);
    if HasId(operation) then ById(operation.runID, operation.observationID)
    else ByContent(content, Copies(records, content))
  }

  function FileKeys(records: seq<Record>): set<Key> {
    if records == [] then {}
    else
      FileKeys(records[..|records| - 1])
      + (if records[|records| - 1].OperationRecord? then {KeyOfLast(records)} else {})
  }

  function AllKeys(files: seq<File>): set<Key> {
    if files == [] then {} else AllKeys(files[..|files| - 1]) + FileKeys(files[|files| - 1].records)
  }

  lemma {:induction false} CopiesNotNegative(records: seq<Record>, content: Content)
    ensures Copies(records, content) >= 0
  {
    if records != [] {
      CopiesNotNegative(records[..|records| - 1], content);
    }
  }

  /** The counters of the file agree with the records read from it, and hold nothing of later files. */
  ghost predicate CountersAgree(operations: Operations, file: int, records: seq<Record>) {
    && (forall c :: Seen(operations, file, c) == Copies(records, c))
    && (forall f, c :: f > file ==> (f, c) !in operations.seen)
  }

  /** An observation without its number in the whole input. */
  function Unnumbered(operation: Operation): Operation {
    operation.(inputOrdinal := 0)
  }

  /** The first record of the file that has the key, as it is kept. */
  function FileValue(records: seq<Record>, path: string, key: Key): Operation
    requires key in FileKeys(records)
  {
    var front, last := records[..|records| - 1], records[|records| - 1];
    if key in FileKeys(front) then FileValue(front, path, key)
    else Unnumbered(Numbered(last.operation, path, 0, Copies(records, Cleaned(last.operation.content))))
  }

  /** The first record of all files that has the key. */
  function FirstOf(files: seq<File>, key: Key): Operation
    requires key in AllKeys(files)
  {
    var front, last := files[..|files| - 1], files[|files| - 1];
    if key in AllKeys(front) then FirstOf(front, key) else FileValue(last.records, last.path, key)
  }

  /** The observations kept so far stay, and what comes in comes in under the new keys. */
  ghost predicate Grows(before: map<Key, Operation>, after: map<Key, Operation>, keys: set<Key>) {
    && after.Keys == before.Keys + keys
    && (Keyed(before, StoredKey) ==> Keyed(after, StoredKey))
    && (forall k :: k in before ==> after[k] == before[k])
  }

  /** What is new is the first record of the file that has its key. */
  ghost predicate NewFrom(before: map<Key, Operation>, after: map<Key, Operation>, records: seq<Record>, path: string) {
    forall k :: k in after && k !in before ==>
      k in FileKeys(records) && Unnumbered(after[k]) == FileValue(records, path, k)
  }

  lemma GrowsOn(a: map<Key, Operation>, b: map<Key, Operation>, c: map<Key, Operation>, first: set<Key>,
                second: set<Key>)
    requires Grows(a, b, first) && Grows(b, c, second)
    ensures Grows(a, c, first + second)
  {
  }

  lemma CountOne(operations: Operations, file: int, path: string, records: seq<Record>)
    requires records != [] && records[|records| - 1].OperationRecord?
    requires CountersAgree(operations, file, records[..|records| - 1])
    ensures CountersAgree(Stored(operations, records[|records| - 1].operation, file, path), file, records)
  {
    var after := Stored(operations, records[|records| - 1].operation, file, path);
    forall c
      ensures Seen(after, file, c) == Copies(records, c)
    {
      assert Seen(operations, file, c) == Copies(records[..|records| - 1], c);
    }
  }

  /** The observation as it is stored, numbered in its file and in the whole input. */
  function LastNumbered(operations: Operations, path: string, records: seq<Record>): Operation
    requires records != [] && records[|records| - 1].OperationRecord?
  {
    var operation := records[|records| - 1].operation;
    Numbered(operation, path, operations.ordinal + 1, Copies(records, Cleaned(operation.content)))
  }

  lemma LastStored(operations: Operations, file: int, path: string, records: seq<Record>)
    requires records != [] && records[|records| - 1].OperationRecord?
    requires CountersAgree(operations, file, records[..|records| - 1])
    ensures
      var numbered := LastNumbered(operations, path, records);
      && StoredKey(numbered) == KeyOfLast(records)
      && Stored(operations, records[|records| - 1].operation, file, path).kept
         == Put(operations.kept, StoredKey, FirstWins, numbered)
  {
    var content := Cleaned(records[|records| - 1].operation.content);
    CopiesNotNegative(records[..|records| - 1], content);
    assert Seen(operations, file, content) == Copies(records[..|records| - 1], content);
  }

  lemma PutFirst(kept: map<Key, Operation>, numbered: Operation)
    ensures
      var after, key := Put(kept, StoredKey, FirstWins, numbered), StoredKey(numbered);
      Grows(kept, after, {key}) && (key !in kept ==> after[key] == numbered)
  {
    PutFacts(kept, StoredKey, FirstWins, numbered);
  }

  lemma StoreOne(operations: Operations, file: int, path: string, records: seq<Record>)
    requires records != [] && records[|records| - 1].OperationRecord?
    requires CountersAgree(operations, file, records[..|records| - 1])
    ensures
      var operation := records[|records| - 1].operation;
      var after := Stored(operations, operation, file, path);
      && CountersAgree(after, file, records)
      && Grows(operations.kept, after.kept, {KeyOfLast(records)})
      && (KeyOfLast(records) !in operations.kept ==>
            Unnumbered(after.kept[KeyOfLast(records)])
            == Unnumbered(Numbered(operation, path, 0, Copies(records, Cleaned(operation.content)))))
  {
    CountOne(operations, file, path, records);
    LastStored(operations, file, path, records);
    PutFirst(operations.kept, LastNumbered(operations, path, records));
  }

  function CurrentPath(tallies: Tallies): string
    requires tallies.files != []
  {
    tallies.files[|tallies.files| - 1].path
  }

  lemma {:induction false} PathStays(state: State, limit: int, records: seq<Record>)
    requires state.tallies.files != []
    ensures CurrentPath(AddedAll(state, limit, records).0.tallies) == CurrentPath(state.tallies)
  {
    if records != [] {
      PathStays(state, limit, records[..|records| - 1]);
    }
  }

  lemma NothingStored(records: seq<Record>)
    requires records != [] && !records[|records| - 1].OperationRecord?
    ensures FileKeys(records) == FileKeys(records[..|records| - 1])
    ensures forall c :: Copies(records, c) == Copies(records[..|records| - 1], c)
  {
  }

  /** One more record of a file, on top of what the records before it added. */
  lemma OneMoreRecord(start: map<Key, Operation>, operations: Operations, file: int, path: string, records: seq<Record>)
    requires records != [] && records[|records| - 1].OperationRecord?
    requires CountersAgree(operations, file, records[..|records| - 1])
    requires Grows(start, operations.kept, FileKeys(records[..|records| - 1]))
    requires NewFrom(start, operations.kept, records[..|records| - 1], path)
    ensures
      var after := Stored(operations, records[|records| - 1].operation, file, path);
      && CountersAgree(after, file, records)
      && Grows(start, after.kept, FileKeys(records))
      && NewFrom(start, after.kept, records, path)
  {
    var front := records[..|records| - 1];
    var after := Stored(operations, records[|records| - 1].operation, file, path);
    StoreOne(operations, file, path, records);
    GrowsOn(start, operations.kept, after.kept, FileKeys(front), {KeyOfLast(records)});
    forall k | k in after.kept && k !in start
      ensures k in FileKeys(records) && Unnumbered(after.kept[k]) == FileValue(records, path, k)
    {
      if k !in operations.kept {
        assert k == KeyOfLast(records) && k !in FileKeys(front);
      }
    }
  }

  lemma NothingMore(start: map<Key, Operation>, operations: Operations, file: int, path: string, records: seq<Record>)
    requires records != [] && !records[|records| - 1].OperationRecord?
    requires CountersAgree(operations, file, records[..|records| - 1])
    requires Grows(start, operations.kept, FileKeys(records[..|records| - 1]))
    requires NewFrom(start, operations.kept, records[..|records| - 1], path)
    ensures CountersAgree(operations, file, records)
    ensures Grows(start, operations.kept, FileKeys(records)) && NewFrom(start, operations.kept, records, path)
  {
    NothingStored(records);
  }

  /** What a record does to the observations, when the load goes on. */
  lemma AddedOperations(state: State, limit: int, record: Record)
    requires state.tallies.files != [] && Added(state, limit, record).1
    ensures
      var file := |state.tallies.files| - 1;
      Added(state, limit, record).0.operations
      == if record.OperationRecord? then
           Stored(state.operations, record.operation, file, CurrentPath(state.tallies))
         else state.operations
  {
  }

  /** What a file adds, when it is read to the end. */
  lemma {:induction false} FileAddsItsKeys(state: State, limit: int, records: seq<Record>)
    requires state.tallies.files != [] && AddedAll(state, limit, records).1
    requires CountersAgree(state.operations, |state.tallies.files| - 1, [])
    ensures
      var after := AddedAll(state, limit, records).0.operations;
      && CountersAgree(after, |state.tallies.files| - 1, records)
      && Grows(state.operations.kept, after.kept, FileKeys(records))
      && NewFrom(state.operations.kept, after.kept, records, CurrentPath(state.tallies))
  {
    if records != [] {
      var front, last := records[..|records| - 1], records[|records| - 1];
      FileAddsItsKeys(state, limit, front);
      PathStays(state, limit, front);
      var middle := AddedAll(state, limit, front).0;
      var file, path := |middle.tallies.files| - 1, CurrentPath(state.tallies);
      AddedOperations(middle, limit, last);
      if last.OperationRecord? {
        OneMoreRecord(state.operations.kept, middle.operations, file, path, records);
      } else {
        NothingMore(state.operations.kept, middle.operations, file, path, records);
      }
    }
  }

  /**
   A completed load keeps exactly one observation for every key that some file gives one of its records,
   and keeps the first such record, numbered within its file.
   */
  lemma {:induction false} LoadKeepsEveryKey(limit: int, files: seq<File>)
    requires Loaded(limit, files).1
    ensures
      var state := Loaded(limit, files).0;
      && |state.tallies.files| == |files|
      && state.operations.kept.Keys == AllKeys(files)
      && Keyed(state.operations.kept, StoredKey)
      && (forall f, c :: f >= |files| ==> (f, c) !in state.operations.seen)
      && (forall k :: k in state.operations.kept ==> Unnumbered(state.operations.kept[k]) == FirstOf(files, k))
  {
    if files != [] {
      LoadKeepsEveryKey(limit, files[..|files| - 1]);
      var file := files[|files| - 1];
      var ready := Opened(Loaded(limit, files[..|files| - 1]).0, file.path);
      assert CountersAgree(ready.operations, |ready.tallies.files| - 1, []);
      FileAddsItsKeys(ready, limit, file.records);
    }
  }
}
