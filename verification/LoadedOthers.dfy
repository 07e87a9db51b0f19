/**
 When a load succeeds, and which record it keeps of targets, discoveries, interesting pages, failures and findings.
 */
module LoadedOthers {
  import opened Records
  import opened Loading

  // ----- When a load succeeds -----

  /** The records of all files, in order. */
  function AllRecords(files: seq<File>): seq<Record> {
    if files == [] then [] else AllRecords(files[..|files| - 1]) + files[|files| - 1].records
  }

  /** How many records are counted. */
  function Counting(records: seq<Record>): nat {
    if records == [] then 0
    else Counting(records[..|records| - 1]) + (if PassedOver(records[|records| - 1]) then 0 else 1)
  }

  predicate AllAcceptable(records: seq<Record>) {
    forall i :: 0 <= i < |records| ==> PassedOver(records[i]) || !Invalid(records[i])
  }

  lemma {:induction false} CountingBoth(a: seq<Record>, b: seq<Record>)
    ensures Counting(a + b) == Counting(a) + Counting(b)
  {
    if b == [] {
      assert a + b == a;
    } else {
      assert (a + b)[..|a + b| - 1] == a + b[..|b| - 1];
      CountingBoth(a, b[..|b| - 1]);
    }
  }

  /** The limit is only looked at when a record is counted. */
  predicate WithinLimit(raw: int, counted: nat, limit: int) {
    counted > 0 ==> raw + counted <= limit
  }

  lemma {:induction false} AddsExactly(state: State, limit: int, records: seq<Record>)
    requires state.tallies.files != []
    ensures
      var (after, going) := AddedAll(state, limit, records);
      && (going <==> AllAcceptable(records) && WithinLimit(state.tallies.raw, Counting(records), limit))
      && (going ==> after.tallies.raw == state.tallies.raw + Counting(records))
  {
    if records != [] {
      var front, last := records[..|records| - 1], records[|records| - 1];
      AddsExactly(state, limit, front);
      assert records == front + [last];
      assert AllAcceptable(records) <==> AllAcceptable(front) && (PassedOver(last) || !Invalid(last));
    }
  }

  predicate NoneBroken(files: seq<File>) {
    forall f :: 0 <= f < |files| ==> !files[f].broken
  }

  lemma NoneBrokenNext(front: seq<File>, last: File)
    ensures NoneBroken(front + [last]) <==> NoneBroken(front) && !last.broken
  {
    var all := front + [last];
    assert all[|front|] == last;
    assert forall f :: 0 <= f < |front| ==> all[f] == front[f];
  }

  /** No file is broken, no record is invalid, and the limit holds. */
  predicate Loadable(limit: int, files: seq<File>) {
    && NoneBroken(files)
    && AllAcceptable(AllRecords(files)) && WithinLimit(0, Counting(AllRecords(files)), limit)
  }

  lemma AcceptableBoth(a: seq<Record>, b: seq<Record>)
    ensures AllAcceptable(a + b) <==> AllAcceptable(a) && AllAcceptable(b)
  {
    var all := a + b;
    if AllAcceptable(all) {
      forall i | 0 <= i < |a|
        ensures PassedOver(a[i]) || !Invalid(a[i])
      {
        assert all[i] == a[i];
      }
      forall i | 0 <= i < |b|
        ensures PassedOver(b[i]) || !Invalid(b[i])
      {
        assert all[|a| + i] == b[i];
      }
    }
  }

  lemma LoadableNext(limit: int, files: seq<File>)
    requires files != []
    ensures
      var front, last := files[..|files| - 1], files[|files| - 1];
      var before := Counting(AllRecords(front));
      && (Loadable(limit, files)
          <==> Loadable(limit, front) && !last.broken && AllAcceptable(last.records)
               && WithinLimit(before, Counting(last.records), limit))
      && Counting(AllRecords(files)) == before + Counting(last.records)
  {
    var front, last := files[..|files| - 1], files[|files| - 1];
    AcceptableBoth(AllRecords(front), last.records);
    CountingBoth(AllRecords(front), last.records);
    NoneBrokenNext(front, last);
    assert files == front + [last];
  }

  /** A load succeeds exactly when its files can be loaded, and has counted then what it did not pass over. */
  lemma {:induction false} LoadsExactly(limit: int, files: seq<File>)
    ensures Loaded(limit, files).1 <==> Loadable(limit, files)
    ensures Loaded(limit, files).1 ==> Loaded(limit, files).0.tallies.raw == Counting(AllRecords(files))
  {
    if files == [] {
    } else {
      var front, last := files[..|files| - 1], files[|files| - 1];
      LoadsExactly(limit, front);
      LoadableNext(limit, files);
      AddsExactly(Opened(Loaded(limit, front).0, last.path), limit, last.records);
    }
  }

  // ----- What is kept -----

  /** The others after one more record, passed over or not. */
  function FiledNext(others: Others, record: Record): Others {
    if PassedOver(record) then others else Filed(others, record)
  }

  function FiledAll(others: Others, records: seq<Record>): Others {
    if records == [] then others
    else
      FiledNext(FiledAll(others, records[..|records| - 1]), records[|records| - 1])
  }

  lemma {:induction false} AddedOthers(state: State, limit: int, records: seq<Record>)
    requires state.tallies.files != [] && AddedAll(state, limit, records).1
    ensures AddedAll(state, limit, records).0.others == FiledAll(state.others, records)
  {
    if records != [] {
      AddedOthers(state, limit, records[..|records| - 1]);
    }
  }

  lemma {:induction false} FiledBoth(others: Others, a: seq<Record>, b: seq<Record>)
    ensures FiledAll(others, a + b) == FiledAll(FiledAll(others, a), b)
  {
    if b == [] {
      assert a + b == a;
    } else {
      assert (a + b)[..|a + b| - 1] == a + b[..|b| - 1];
      FiledBoth(others, a, b[..|b| - 1]);
    }
  }

  lemma {:induction false} LoadedAll(limit: int, files: seq<File>)
    requires Loaded(limit, files).1
    ensures Loaded(limit, files).0.others == FiledAll(EMPTY.others, AllRecords(files))
  {
    if files != [] {
      var front, last := files[..|files| - 1], files[|files| - 1];
      LoadedAll(limit, front);
      AddedOthers(Opened(Loaded(limit, front).0, last.path), limit, last.records);
      FiledBoth(EMPTY.others, AllRecords(front), last.records);
    }
  }

  // ----- Which record wins -----

  predicate IsTarget(record: Record, target: string) {
    record.TargetRecord? && record.target == target && target != ""
  }

  predicate IsPage(record: Record, url: string, status: int) {
    record.InterestingRecord? && record.item.url == url && record.item.status == status && url != ""
  }

  predicate IsFailure(record: Record, source: string, error: string) {
    record.FailureRecord? && record.failure.source == source && record.failure.error == error
  }

  predicate IsFinding(record: Record, key: FindingKey) {
    record.FindingRecord? && ImportedFindingKey(record.finding) == key
  }

  predicate IsDiscovery(record: Record, url: string) {
    record.DiscoveryRecord? && record.discovery.url == url && url != ""
  }

  /** The place of the last record that is looked for, or -1. */
  function LastPlace(records: seq<Record>, wanted: Record -> bool): (i: int)
    ensures -1 <= i < |records|
    ensures i >= 0 ==> wanted(records[i])
    ensures forall k :: i < k < |records| ==> !wanted(records[k])
  {
    if records == [] then -1
    else if wanted(records[|records| - 1]) then |records| - 1
    else LastPlace(records[..|records| - 1], wanted)
  }

  lemma TargetNext(others: Others, record: Record, target: string)
    ensures
      var after := FiledNext(others, record).targets;
      && (target in after <==> IsTarget(record, target) || target in others.targets)
      && (target in others.targets && others.targets[target] == target ==> after[target] == target)
      && (IsTarget(record, target) ==> after[target] == target)
  {
  }

  lemma PageNext(others: Others, record: Record, url: string, status: int)
    ensures
      var after, key := FiledNext(others, record).interesting, (url, status);
      && (key in after <==> IsPage(record, url, status) || key in others.interesting)
      && (IsPage(record, url, status) ==> after[key] == record.item)
      && (!IsPage(record, url, status) && key in others.interesting ==> after[key] == others.interesting[key])
  {
  }

  lemma FailureNext(others: Others, record: Record, source: string, error: string)
    ensures
      var after, key := FiledNext(others, record).failures, (source, error);
      && (key in after <==> IsFailure(record, source, error) || key in others.failures)
      && (IsFailure(record, source, error) ==> after[key] == record.failure)
      && (!IsFailure(record, source, error) && key in others.failures ==> after[key] == others.failures[key])
  {
  }

  lemma FindingNext(others: Others, record: Record, key: FindingKey)
    ensures
      var after := FiledNext(others, record).findings;
      && (key in after <==> IsFinding(record, key) || key in others.findings)
      && (IsFinding(record, key) ==> after[key] == record.finding)
      && (!IsFinding(record, key) && key in others.findings ==> after[key] == others.findings[key])
  {
  }

  lemma {:induction false} TargetsKept(records: seq<Record>, target: string)
    ensures target in FiledAll(EMPTY.others, records).targets <==> LastPlace(records, r => IsTarget(r, target)) >= 0
    ensures target in FiledAll(EMPTY.others, records).targets ==>
              FiledAll(EMPTY.others, records).targets[target] == target
  {
    if records != [] {
      TargetsKept(records[..|records| - 1], target);
      TargetNext(FiledAll(EMPTY.others, records[..|records| - 1]), records[|records| - 1], target);
    }
  }

  /** Of the pages with one URL and status the last is kept. */
  lemma {:induction false} PagesKept(records: seq<Record>, url: string, status: int)
    ensures
      var kept, i := FiledAll(EMPTY.others, records).interesting, LastPlace(records, r => IsPage(r, url, status));
      && ((url, status) in kept <==> i >= 0)
      && (i >= 0 ==> kept[(url, status)] == records[i].item)
  {
    if records != [] {
      PagesKept(records[..|records| - 1], url, status);
      PageNext(FiledAll(EMPTY.others, records[..|records| - 1]), records[|records| - 1], url, status);
    }
  }

  /** Of the failures with one source and error the last is kept. */
  lemma {:induction false} FailuresKept(records: seq<Record>, source: string, error: string)
    ensures
      var kept, i := FiledAll(EMPTY.others, records).failures, LastPlace(records, r => IsFailure(r, source, error));
      && ((source, error) in kept <==> i >= 0)
      && (i >= 0 ==> kept[(source, error)] == records[i].failure)
  {
    if records != [] {
      FailuresKept(records[..|records| - 1], source, error);
      FailureNext(FiledAll(EMPTY.others, records[..|records| - 1]), records[|records| - 1], source, error);
    }
  }

  /** Of the findings with one key the last is kept. */
  lemma {:induction false} FindingsKept(records: seq<Record>, key: FindingKey)
    ensures
      var kept, i := FiledAll(EMPTY.others, records).findings, LastPlace(records, r => IsFinding(r, key));
      && (key in kept <==> i >= 0)
      && (i >= 0 ==> kept[key] == records[i].finding)
  {
    if records != [] {
      FindingsKept(records[..|records| - 1], key);
      FindingNext(FiledAll(EMPTY.others, records[..|records| - 1]), records[|records| - 1], key);
    }
  }

  /** The discovery at `i` is the first of its URL with a version, or the last where none before the last has one. */
  predicate Settles(records: seq<Record>, url: string, i: int) {
    && 0 <= i < |records| && IsDiscovery(records[i], url)
    && (forall k :: 0 <= k < i && IsDiscovery(records[k], url) ==> records[k].discovery.version == "")
    && (records[i].discovery.version == "" ==> forall k :: i < k < |records| ==> !IsDiscovery(records[k], url))
  }

  ghost predicate Discovered(records: seq<Record>, url: string) {
    exists k :: 0 <= k < |records| && IsDiscovery(records[k], url)
  }

  lemma DiscoveredNext(records: seq<Record>, url: string)
    requires records != []
    ensures Discovered(records, url)
       <==> Discovered(records[..|records| - 1], url) || IsDiscovery(records[|records| - 1], url)
  {
    var front := records[..|records| - 1];
    if k :| 0 <= k < |front| && IsDiscovery(front[k], url) {
      assert IsDiscovery(records[k], url);
    }
    if k :| 0 <= k < |front| && IsDiscovery(records[k], url) {
      assert IsDiscovery(front[k], url);
    }
  }

  lemma SettlesNext(records: seq<Record>, url: string, i: int)
    requires records != [] && Settles(records[..|records| - 1], url, i)
    requires !IsDiscovery(records[|records| - 1], url) || records[i].discovery.version != ""
    ensures Settles(records, url, i)
  {
    var front := records[..|records| - 1];
    assert forall k :: 0 <= k < |front| ==> records[k] == front[k];
  }

  lemma SettlesLast(records: seq<Record>, url: string, i: int)
    requires records != [] && IsDiscovery(records[|records| - 1], url)
    requires if Discovered(records[..|records| - 1], url) then
               Settles(records[..|records| - 1], url, i) && records[i].discovery.version == ""
             else true
    ensures Settles(records, url, |records| - 1)
  {
    var front := records[..|records| - 1];
    assert forall k :: 0 <= k < |front| ==> records[k] == front[k];
    forall k | 0 <= k < |front| && IsDiscovery(records[k], url)
      ensures records[k].discovery.version == ""
    {
      assert IsDiscovery(front[k], url);
    }
  }

  /** Of the discoveries with one URL the first that has a version is kept, and the last if none has. */
  lemma {:induction false} DiscoveriesKept(records: seq<Record>, url: string) returns (i: int)
    ensures
      var kept := FiledAll(EMPTY.others, records).discoveries;
      && (url in kept <==> Discovered(records, url))
      && (url in kept ==> Settles(records, url, i) && kept[url] == records[i].discovery)
  {
    i := -1;
    if records != [] {
      var last := records[|records| - 1];
      var before := FiledAll(EMPTY.others, records[..|records| - 1]).discoveries;
      i := DiscoveriesKept(records[..|records| - 1], url);
      DiscoveredNext(records, url);
      if IsDiscovery(last, url) && (url !in before || before[url].version == "") {
        SettlesLast(records, url, i);
        i := |records| - 1;
      } else if url in before {
        SettlesNext(records, url, i);
      }
    }
  }

  /**
   A completed load keeps, of all files' records taken together, the last page of each URL and status, the last failure
   of each source and error, and the last finding of each key, and nothing that no record gives.
   */
  lemma LastIsKept(limit: int, files: seq<File>, url: string, status: int, source: string, error: string,
                   key: FindingKey)
    requires Loaded(limit, files).1
    ensures
      var records, kept := AllRecords(files), Loaded(limit, files).0.others;
      var page := LastPlace(records, r => IsPage(r, url, status));
      var failure := LastPlace(records, r => IsFailure(r, source, error));
      var finding := LastPlace(records, r => IsFinding(r, key));
      && ((url, status) in kept.interesting <==> page >= 0)
      && (page >= 0 ==> kept.interesting[(url, status)] == records[page].item)
      && ((source, error) in kept.failures <==> failure >= 0)
      && (failure >= 0 ==> kept.failures[(source, error)] == records[failure].failure)
      && (key in kept.findings <==> finding >= 0)
      && (finding >= 0 ==> kept.findings[key] == records[finding].finding)
  {
    LoadedAll(limit, files);
    PagesKept(AllRecords(files), url, status);
    FailuresKept(AllRecords(files), source, error);
    FindingsKept(AllRecords(files), key);
  }

  /** And of each URL the first discovery that has a version, or the last if none has. */
  lemma VersionIsKept(limit: int, files: seq<File>, url: string) returns (i: int)
    requires Loaded(limit, files).1
    ensures
      var records, kept := AllRecords(files), Loaded(limit, files).0.others.discoveries;
      && (url in kept <==> Discovered(records, url))
      && (url in kept ==> Settles(records, url, i) && kept[url] == records[i].discovery)
  {
    LoadedAll(limit, files);
    i := DiscoveriesKept(AllRecords(files), url);
  }
}
