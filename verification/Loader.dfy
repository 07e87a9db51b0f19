/** The loader in place: its methods change its maps and counters record by record, as module Loading says. */
module Loader {
  import opened Text
  import opened Wrappers
  import opened Records
  import opened Loading

  /** The finished dataset; the lists are sorted by a key that is not part of this model. */
  datatype Dataset = Dataset(raw: int, duplicates: int, targets: seq<string>, discoveries: seq<Discovery>,
                             interesting: seq<Interesting>, operations: seq<Operation>, failures: seq<Failure>,
                             findings: seq<Finding>)

  function Entries(dataset: Dataset): int {
    |dataset.targets| + |dataset.discoveries| + |dataset.interesting| + |dataset.operations| + |dataset.failures|
    + |dataset.findings|
  }

  class FileLoader {
    const limit: int
    var targets: map<string, string>
    var discoveries: map<string, Discovery>
    var interesting: map<(string, int), Interesting>
    var operations: map<Key, Operation>
    var failures: map<(string, string), Failure>
    var findings: map<FindingKey, Finding>
    var files: seq<InputFile>
    var raw: int
    var ordinal: int
    var seen: map<(int, Content), int>

    function TheState(): State
      reads this
    {
      State(Others(targets, discoveries, interesting, failures, findings), Operations(operations, seen, ordinal),
            Tallies(files, raw))
    }

    constructor (limit: int)
      ensures this.limit == limit && TheState() == EMPTY
    {
      this.limit := limit;
      targets, discoveries, interesting, operations := map[], map[], map[], map[];
      failures, findings, seen := map[], map[], map[];
      files, raw, ordinal := [], 0, 0;
    }

    /** Counts first, and then looks at the limit. */
    method CountRecord() returns (within: bool)
      requires files != []
      modifies this
      ensures TheState() == old(TheState()).(tallies := Counted(old(TheState().tallies)))
      ensures within == (TheState().tallies.raw <= limit)
    {
      raw := raw + 1;
      files := files[|files| - 1 := files[|files| - 1].(records := files[|files| - 1].records + 1)];
      return raw <= limit;
    }

    method AddTarget(target: string) returns (going: bool)
      requires files != []
      modifies this
      ensures (TheState(), going) == Added(old(TheState()), limit, TargetRecord(target))
    {
      if target == "" {
        return true;
      }
      going := CountRecord();
      if going {
        targets := targets[target := target];
      }
    }

    method AddDiscovery(discovery: Discovery) returns (going: bool)
      requires files != []
      modifies this
      ensures (TheState(), going) == Added(old(TheState()), limit, DiscoveryRecord(discovery))
    {
      if discovery.url == "" {
        return true;
      }
      going := CountRecord();
      if going && (discovery.url !in discoveries || discoveries[discovery.url].version == "") {
        discoveries := discoveries[discovery.url := discovery];
      }
    }

    method AddInteresting(item: Interesting) returns (going: bool)
      requires files != []
      modifies this
      ensures (TheState(), going) == Added(old(TheState()), limit, InterestingRecord(item))
    {
      if item.url == "" {
        return true;
      }
      going := CountRecord();
      if going {
        interesting := interesting[(item.url, item.status) := item];
      }
    }

    method AddOperation(operation: Operation) returns (going: bool)
      requires files != []
      modifies this
      ensures (TheState(), going) == Added(old(TheState()), limit, OperationRecord(operation))
    {
      var content := operation.content.(verb := ToUpper(TrimSpace(operation.content.verb)));
      if content.verb == "" || content.target == "" || content.status < 0 || content.status > 999 {
        return false;
      }
      going := CountRecord();
      if going {
        ordinal := ordinal + 1;
        var place := (|files| - 1, content);
        seen := seen[place := (if place in seen then seen[place] else 0) + 1];
        var stored := operation.(content := content, inputPath := files[|files| - 1].path,
                                 inputOrdinal := ordinal, inputOccurrence := seen[place]);
        var key := StoredKey(stored);
        if key !in operations {
          operations := operations[key := stored];
        }
      }
    }

    method AddFailure(failure: Failure) returns (going: bool)
      requires files != []
      modifies this
      ensures (TheState(), going) == Added(old(TheState()), limit, FailureRecord(failure))
    {
      if failure.source == "" || failure.error == "" {
        return false;
      }
      going := CountRecord();
      if going {
        failures := failures[(failure.source, failure.error) := failure];
      }
    }

    method AddImportedFinding(finding: Finding) returns (going: bool)
      requires files != []
      modifies this
      ensures (TheState(), going) == Added(old(TheState()), limit, FindingRecord(finding))
    {
      if TrimSpace(finding.severity) == "" || TrimSpace(finding.title) == "" {
        return false;
      }
      going := CountRecord();
      if going {
        findings := findings[ImportedFindingKey(finding) := finding];
      }
    }

    method Add(record: Record) returns (going: bool)
      requires files != []
      modifies this
      ensures (TheState(), going) == Added(old(TheState()), limit, record)
    {
      match record
      case TargetRecord(target) => going := AddTarget(target);
      case DiscoveryRecord(discovery) => going := AddDiscovery(discovery);
      case InterestingRecord(item) => going := AddInteresting(item);
      case OperationRecord(operation) => going := AddOperation(operation);
      case FailureRecord(failure) => going := AddFailure(failure);
      case FindingRecord(finding) => going := AddImportedFinding(finding);
    }

    method Parse(file: File) returns (whole: bool)
      modifies this
      ensures
        var (after, going) := AddedAll(Opened(old(TheState()), file.path), limit, file.records);
        TheState() == after && whole == (going && !file.broken)
    {
      files := files + [InputFile(file.path, 0)];
      ghost var ready := TheState();
      assert ready == Opened(old(TheState()), file.path);
      for i := 0 to |file.records|
        invariant files != []
        invariant (TheState(), true) == AddedAll(ready, limit, file.records[..i])
      {
        assert file.records[..i + 1][..i] == file.records[..i];
        var going := Add(file.records[i]);
        if !going {
          StopsFrom(ready, limit, file.records, i + 1);
          return false;
        }
      }
      assert file.records[..|file.records|] == file.records;
      return !file.broken;
    }

    /** Duplicates are what was counted and not kept, clamped at zero. */
    method Finish() returns (dataset: Dataset)
      requires KeyedMaps(TheState())
      ensures IsDatasetOf(dataset, TheState())
    {
      var t := ListOf(targets, TargetKey);
      var d := ListOf(discoveries, DiscoveryKey);
      var i := ListOf(interesting, InterestingKey);
      var o := ListOf(operations, StoredKey);
      var f := ListOf(failures, FailureKey);
      var g := ListOf(findings, ImportedFindingKey);
      var unique := |t| + |d| + |i| + |o| + |f| + |g|;
      return Dataset(raw, if raw - unique > 0 then raw - unique else 0, t, d, i, o, f, g);
    }
  }

  ghost predicate KeyedMaps(state: State) {
    && Keyed(state.others.targets, TargetKey)
    && Keyed(state.others.discoveries, DiscoveryKey)
    && Keyed(state.others.interesting, InterestingKey)
    && Keyed(state.operations.kept, StoredKey)
    && Keyed(state.others.failures, FailureKey)
    && Keyed(state.others.findings, ImportedFindingKey)
  }

  /** The dataset lists what the state keeps, and its duplicates make up the difference to the raw count. */
  ghost predicate IsDatasetOf(dataset: Dataset, state: State) {
    && Lists(dataset.targets, state.others.targets, TargetKey)
    && Lists(dataset.discoveries, state.others.discoveries, DiscoveryKey)
    && Lists(dataset.interesting, state.others.interesting, InterestingKey)
    && Lists(dataset.operations, state.operations.kept, StoredKey)
    && Lists(dataset.failures, state.others.failures, FailureKey)
    && Lists(dataset.findings, state.others.findings, ImportedFindingKey)
    && dataset.raw == state.tallies.raw
    && dataset.duplicates == (if dataset.raw - Entries(dataset) > 0 then dataset.raw - Entries(dataset) else 0)
  }

  /** Once a record ends the load, the rest of the file is not looked at. */
  lemma {:induction false} StopsFrom(state: State, limit: int, records: seq<Record>, n: nat)
    requires state.tallies.files != [] && n <= |records| && !AddedAll(state, limit, records[..n]).1
    ensures AddedAll(state, limit, records) == AddedAll(state, limit, records[..n])
    decreases |records| - n
  {
    if n < |records| {
      assert records[..n + 1][..n] == records[..n];
      StopsFrom(state, limit, records, n + 1);
    } else {
      assert records[..n] == records;
    }
  }

  lemma {:induction false} LoadStopsFrom(limit: int, files: seq<File>, n: nat)
    requires n <= |files| && !Loaded(limit, files[..n]).1
    ensures !Loaded(limit, files).1
    decreases |files| - n
  {
    if n < |files| {
      assert files[..n + 1][..n] == files[..n];
      LoadStopsFrom(limit, files, n + 1);
    } else {
      assert files[..n] == files;
    }
  }

  lemma {:induction false} AddedAllKeyed(state: State, limit: int, records: seq<Record>)
    requires state.tallies.files != [] && KeyedMaps(state)
    ensures KeyedMaps(AddedAll(state, limit, records).0)
  {
    if records != [] {
      var record := records[|records| - 1];
      AddedAllKeyed(state, limit, records[..|records| - 1]);
      var (before, going) := AddedAll(state, limit, records[..|records| - 1]);
      if going && record.OperationRecord? {
        forall operation
          ensures Keyed(Put(before.operations.kept, StoredKey, FirstWins, operation), StoredKey)
        {
          PutFacts(before.operations.kept, StoredKey, FirstWins, operation);
        }
      }
      FiledKeyed(before.others, record);
    }
  }

  lemma FiledKeyed(others: Others, record: Record)
    ensures Keyed(others.targets, TargetKey) ==> Keyed(Filed(others, record).targets, TargetKey)
    ensures Keyed(others.discoveries, DiscoveryKey) ==> Keyed(Filed(others, record).discoveries, DiscoveryKey)
    ensures Keyed(others.interesting, InterestingKey) ==> Keyed(Filed(others, record).interesting, InterestingKey)
    ensures Keyed(others.failures, FailureKey) ==> Keyed(Filed(others, record).failures, FailureKey)
    ensures Keyed(others.findings, ImportedFindingKey) ==> Keyed(Filed(others, record).findings, ImportedFindingKey)
  {
    match record
    case TargetRecord(target) => PutFacts(others.targets, TargetKey, LastWins, target);
    case DiscoveryRecord(discovery) => PutFacts(others.discoveries, DiscoveryKey, Versionless, discovery);
    case InterestingRecord(item) => PutFacts(others.interesting, InterestingKey, LastWins, item);
    case FailureRecord(failure) => PutFacts(others.failures, FailureKey, LastWins, failure);
    case FindingRecord(finding) => PutFacts(others.findings, ImportedFindingKey, LastWins, finding);
    case OperationRecord(_) =>
  }

  lemma {:induction false} LoadedKeyed(limit: int, files: seq<File>)
    ensures KeyedMaps(Loaded(limit, files).0)
  {
    if files != [] {
      LoadedKeyed(limit, files[..|files| - 1]);
      var (before, going) := Loaded(limit, files[..|files| - 1]);
      if going {
        AddedAllKeyed(Opened(before, files[|files| - 1].path), limit, files[|files| - 1].records);
      }
    }
  }

  /** Reads the files one after another; a failure in any of them is a failure of the load. */
  method LoadFiles(limit: int, inputs: seq<File>) returns (r: Option<Dataset>)
    ensures r.Some? <==> inputs != [] && 0 < limit && Loaded(limit, inputs).1
    ensures r.Some? ==> IsDatasetOf(r.value, Loaded(limit, inputs).0)
    ensures r.Some? ==> r.value.raw == Entries(r.value) + r.value.duplicates
  {
    if inputs == [] || limit <= 0 {
      return None;
    }
    var loader := new FileLoader(limit);
    for i := 0 to |inputs|
      invariant fresh(loader) && loader.limit == limit
      invariant (loader.TheState(), true) == Loaded(limit, inputs[..i])
    {
      assert inputs[..i + 1][..i] == inputs[..i];
      var whole := loader.Parse(inputs[i]);
      if !whole {
        LoadStopsFrom(limit, inputs, i + 1);
        return None;
      }
    }
    assert inputs[..|inputs|] == inputs;
    LoadedKeyed(limit, inputs);
    LoadConserves(limit, inputs);
    var dataset := loader.Finish();
    return Some(dataset);
  }
}
