/**
 The records a report is made of, the key under which each is kept, and maps filled by key.
 */
module Records {

  /** What two observations of the same exchange have in common. Digests of the bodies stand for the bodies. */
  datatype Content = Content(source: string, verb: string, url: string, target: string, status: int,
                             baselineURL: string, caseName: string, category: string, identity: string,
                             authContext: string, contentType: string, requestBody: string,
                             responseBody: string, truncated: bool)

  /** An observation; `observedAt` is 0 when no time is known. */
  datatype Operation = Operation(runID: string, observationID: int, observedAt: int, content: Content,
                                 guidance: string, inputPath: string, inputOrdinal: int, inputOccurrence: int)

  datatype Discovery = Discovery(target: string, url: string, version: string, title: string)
  datatype Interesting = Interesting(target: string, url: string, status: int, contentType: string)
  datatype Failure = Failure(source: string, error: string, coverage: bool)
  datatype Finding = Finding(severity: string, category: string, title: string, verb: string, url: string,
                             evidence: string, owasp: seq<string>)

  datatype Key = ById(runID: string, observationID: int) | ByContent(content: Content, occurrence: int)
  datatype FindingKey = FindingKey(severity: string, category: string, title: string, verb: string, url: string,
                                   evidence: string, owasp: string)

  predicate HasId(operation: Operation) {
    operation.runID != "" || operation.observationID != 0
  }

  function StoredKey(operation: Operation): Key {
    if HasId(operation) then ById(operation.runID, operation.observationID)
    else ByContent(operation.content, if operation.inputOccurrence > 0 then operation.inputOccurrence else 0)
  }

  function Joined(parts: seq<string>): string {
    if parts == [] then "" else if |parts| == 1 then parts[0] else parts[0] + "," + Joined(parts[1..])
  }

  function TargetKey(target: string): string {
    target
  }

  function DiscoveryKey(discovery: Discovery): string {
    discovery.url
  }

  function InterestingKey(item: Interesting): (string, int) {
    (item.url, item.status)
  }

  function FailureKey(failure: Failure): (string, string) {
    (failure.source, failure.error)
  }

  function ImportedFindingKey(finding: Finding): FindingKey {
    FindingKey(finding.severity, finding.category, finding.title, finding.verb, finding.url, finding.evidence,
               Joined(finding.owasp))
  }

  // ----- Maps filled by key -----

  /** Every value is stored under its own key. */
  ghost predicate Keyed<K(!new), V>(m: map<K, V>, key: V -> K) {
    forall k :: k in m ==> key(m[k]) == k
  }

  /** The value goes in when its key is free, and over the one that is there when `wins` says so. */
  function Put<K, V>(m: map<K, V>, key: V -> K, wins: (V, V) -> bool, v: V): map<K, V> {
    if key(v) !in m || wins(v, m[key(v)]) then m[key(v) := v] else m
  }

  function PutAll<K, V>(m: map<K, V>, key: V -> K, wins: (V, V) -> bool, values: seq<V>): map<K, V> {
    if values == [] then m
    else
      Put(PutAll(m, key, wins, values[..|values| - 1]), key, wins, values[|values| - 1])
  }

  ghost function KeysOf<K, V>(values: seq<V>, key: V -> K): set<K> {
    set v | v in values :: key(v)
  }

  lemma PutFacts<K(!new), V(!new)>(m: map<K, V>, key: V -> K, wins: (V, V) -> bool, v: V)
    ensures Put(m, key, wins, v).Keys == m.Keys + {key(v)}
    ensures Keyed(m, key) ==> Keyed(Put(m, key, wins, v), key)
    ensures |m| <= |Put(m, key, wins, v)| <= |m| + 1
  {
    var after := Put(m, key, wins, v);
    assert after.Keys == m.Keys + {key(v)};
    if key(v) in m {
      assert after.Keys == m.Keys;
    } else {
      assert after.Keys - {key(v)} == m.Keys;
    }
    assert |after| == |after.Keys| && |m| == |m.Keys|;
  }

  lemma KeysOfAppended<K, V>(values: seq<V>, v: V, key: V -> K)
    ensures KeysOf(values + [v], key) == KeysOf(values, key) + {key(v)}
  {
    var all := values + [v];
    assert v == all[|values|];
    forall w | w in values
      ensures w in all
    {
      var i :| 0 <= i < |values| && values[i] == w;
      assert all[i] == w;
    }
  }

  lemma KeysOfSplit<K, V>(values: seq<V>, key: V -> K)
    requires values != []
    ensures KeysOf(values, key) == KeysOf(values[..|values| - 1], key) + {key(values[|values| - 1])}
  {
    KeysOfAppended(values[..|values| - 1], values[|values| - 1], key);
    assert values == values[..|values| - 1] + [values[|values| - 1]];
  }

  /** Filling a map adds exactly the keys of the values, whichever values win. */
  lemma {:induction false} PutAllKeys<K(!new), V(!new)>(m: map<K, V>, key: V -> K, wins: (V, V) -> bool,
                                                        values: seq<V>)
    ensures PutAll(m, key, wins, values).Keys == m.Keys + KeysOf(values, key)
  {
    if values != [] {
      var front, last := values[..|values| - 1], values[|values| - 1];
      PutAllKeys(m, key, wins, front);
      PutFacts(PutAll(m, key, wins, front), key, wins, last);
      assert KeysOf(values, key) == KeysOf(front, key) + {key(last)} by {
        KeysOfSplit(values, key);
      }
    }
  }

  lemma {:induction false} PutAllKeyed<K(!new), V(!new)>(m: map<K, V>, key: V -> K, wins: (V, V) -> bool,
                                                         values: seq<V>)
    requires Keyed(m, key)
    ensures Keyed(PutAll(m, key, wins, values), key)
  {
    if values != [] {
      PutAllKeyed(m, key, wins, values[..|values| - 1]);
    }
  }

  lemma {:induction false} PutAllSize<K(!new), V(!new)>(m: map<K, V>, key: V -> K, wins: (V, V) -> bool,
                                                        values: seq<V>)
    ensures |m| <= |PutAll(m, key, wins, values)| <= |m| + |values|
  {
    if values != [] {
      PutAllSize(m, key, wins, values[..|values| - 1]);
      PutFacts(PutAll(m, key, wins, values[..|values| - 1]), key, wins, values[|values| - 1]);
    }
  }

  /** The list holds exactly the values of the map, each once, in whatever order it was sorted. */
  ghost predicate Lists<K(!new), V(!new)>(values: seq<V>, m: map<K, V>, key: V -> K) {
    && Keyed(m, key)
    && |values| == |m|
    && (forall v :: v in values ==> key(v) in m && m[key(v)] == v)
    && (forall k :: k in m ==> m[k] in values)
  }

  /** Walks the map in any order. */
  method ListOf<K(!new), V(!new)>(m: map<K, V>, ghost key: V -> K) returns (values: seq<V>)
    requires Keyed(m, key)
    ensures Lists(values, m, key)
  {
    values := [];
    var left := m.Keys;
    ghost var done: set<K> := {};
    while left != {}
      invariant left !! done && left + done == m.Keys
      invariant |values| == |done|
      invariant forall v :: v in values ==> key(v) in m && m[key(v)] == v
      invariant forall k :: k in done ==> m[k] in values
    {
      var k :| k in left;
      values := values + [m[k]];
      left := left - {k};
      done := done + {k};
    }
    assert done == m.Keys;
  }

  lemma ListKeys<K(!new), V(!new)>(values: seq<V>, m: map<K, V>, key: V -> K)
    requires Lists(values, m, key)
    ensures KeysOf(values, key) == m.Keys
  {
    forall k | k in m
      ensures k in KeysOf(values, key)
    {
      assert m[k] in values;
    }
  }
}
