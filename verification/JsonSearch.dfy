/**
 Searching decoded JSON for an object entry that is wanted, keys in sorted order.
 */
module JsonSearch {
  import opened Json
  import opened JsonPath

  ghost predicate SortsKeys(sorted: set<string> -> seq<string>) {
    forall keys: set<string>, k :: k in sorted(keys) <==> k in keys
  }

  /** The path of the first entry that is wanted, keys in their sorted order; empty when there is none. */
  ghost function Find(v: Value, wanted: (string, Value) -> bool, sorted: set<string> -> seq<string>): seq<Part>
    requires SortsKeys(sorted)
    decreases v, 1, 0
  {
    match v
    case Obj(fields) => FindInFields(v, sorted(fields.Keys), wanted, sorted)
    case Arr(items) => FindInItems(v, 0, wanted, sorted)
    case _ => []
  }

  ghost function FindInFields(v: Value, keys: seq<string>, wanted: (string, Value) -> bool,
                              sorted: set<string> -> seq<string>): seq<Part>
    requires v.Obj? && SortsKeys(sorted) && forall i :: 0 <= i < |keys| ==> keys[i] in v.fields
    decreases v, 0, |keys|
  {
    if keys == [] then []
    else if wanted(keys[0], v.fields[keys[0]]) then [Key(keys[0])]
    else
      var nested := Find(v.fields[keys[0]], wanted, sorted);
      if |nested| > 0 then [Key(keys[0])] + nested else FindInFields(v, keys[1..], wanted, sorted)
  }

  ghost function FindInItems(v: Value, i: nat, wanted: (string, Value) -> bool,
                             sorted: set<string> -> seq<string>): seq<Part>
    requires v.Arr? && i <= |v.items| && SortsKeys(sorted)
    decreases v, 0, |v.items| - i
  {
    if i == |v.items| then []
    else
      var nested := Find(v.items[i], wanted, sorted);
      if |nested| > 0 then [Index(i)] + nested else FindInItems(v, i + 1, wanted, sorted)
  }

  /** The path leads, key by key, to an object entry that is wanted. */
  predicate Leads(v: Value, wanted: (string, Value) -> bool, path: seq<Part>) {
    path != [] &&
    match path[0]
    case Key(k) =>
      && v.Obj? && k in v.fields
      && (if |path| == 1 then wanted(k, v.fields[k]) else Leads(v.fields[k], wanted, path[1..]))
    case Index(i) =>
      v.Arr? && 0 <= i < |v.items| && Leads(v.items[i], wanted, path[1..])
  }

  /** A path that is found leads to such an entry. */
  lemma {:induction false} FindLeads(v: Value, wanted: (string, Value) -> bool, sorted: set<string> -> seq<string>)
    requires SortsKeys(sorted)
    ensures Find(v, wanted, sorted) != [] ==> Leads(v, wanted, Find(v, wanted, sorted))
    decreases v, 1, 0
  {
    match v
    case Obj(fields) => FindInFieldsLeads(v, sorted(fields.Keys), wanted, sorted);
    case Arr(items) => FindInItemsLeads(v, 0, wanted, sorted);
    case _ =>
  }

  lemma {:induction false} FindInFieldsLeads(v: Value, keys: seq<string>, wanted: (string, Value) -> bool,
                                             sorted: set<string> -> seq<string>)
    requires v.Obj? && SortsKeys(sorted) && forall i :: 0 <= i < |keys| ==> keys[i] in v.fields
    ensures
      var path := FindInFields(v, keys, wanted, sorted);
      path != [] ==> Leads(v, wanted, path)
    decreases v, 0, |keys|
  {
    if keys != [] && !wanted(keys[0], v.fields[keys[0]]) {
      FindLeads(v.fields[keys[0]], wanted, sorted);
      FindInFieldsLeads(v, keys[1..], wanted, sorted);
      var nested := Find(v.fields[keys[0]], wanted, sorted);
      assert ([Key(keys[0])] + nested)[1..] == nested;
    }
  }

  lemma {:induction false} FindInItemsLeads(v: Value, i: nat, wanted: (string, Value) -> bool,
                                            sorted: set<string> -> seq<string>)
    requires v.Arr? && i <= |v.items| && SortsKeys(sorted)
    ensures
      var path := FindInItems(v, i, wanted, sorted);
      path != [] ==> Leads(v, wanted, path)
    decreases v, 0, |v.items| - i
  {
    if i < |v.items| {
      FindLeads(v.items[i], wanted, sorted);
      FindInItemsLeads(v, i + 1, wanted, sorted);
      var nested := Find(v.items[i], wanted, sorted);
      assert ([Index(i)] + nested)[1..] == nested;
    }
  }

  /** Where any path leads to such an entry, one is found. */
  lemma {:induction false} FindFinds(v: Value, wanted: (string, Value) -> bool, sorted: set<string> -> seq<string>,
                                     path: seq<Part>)
    requires SortsKeys(sorted) && Leads(v, wanted, path)
    ensures Find(v, wanted, sorted) != []
    decreases |path|, 1, 0
  {
    match path[0]
    case Key(k) =>
      assert k in sorted(v.fields.Keys);
      if |path| > 1 {
        FindFinds(v.fields[k], wanted, sorted, path[1..]);
      }
      FindInFieldsFinds(v, sorted(v.fields.Keys), wanted, sorted, k);
    case Index(i) =>
      FindFinds(v.items[i], wanted, sorted, path[1..]);
      FindInItemsFinds(v, 0, wanted, sorted, i);
  }

  lemma {:induction false} FindInFieldsFinds(v: Value, keys: seq<string>, wanted: (string, Value) -> bool,
                                             sorted: set<string> -> seq<string>, k: string)
    requires v.Obj? && SortsKeys(sorted) && forall i :: 0 <= i < |keys| ==> keys[i] in v.fields
    requires k in keys && (wanted(k, v.fields[k]) || Find(v.fields[k], wanted, sorted) != [])
    ensures FindInFields(v, keys, wanted, sorted) != []
  {
    if keys[0] != k {
      assert k in keys[1..];
      FindInFieldsFinds(v, keys[1..], wanted, sorted, k);
    }
  }

  lemma {:induction false} FindInItemsFinds(v: Value, i: nat, wanted: (string, Value) -> bool,
                                            sorted: set<string> -> seq<string>, n: nat)
    requires v.Arr? && i <= n < |v.items| && SortsKeys(sorted)
    requires Find(v.items[n], wanted, sorted) != []
    ensures FindInItems(v, i, wanted, sorted) != []
    decreases n - i
  {
    if i < n {
      FindInItemsFinds(v, i + 1, wanted, sorted, n);
    }
  }

  /** A path is found exactly when some path leads to an entry that is wanted, and the path found is one. */
  lemma FindExactly(v: Value, wanted: (string, Value) -> bool, sorted: set<string> -> seq<string>)
    requires SortsKeys(sorted)
    ensures Find(v, wanted, sorted) != [] ==> Leads(v, wanted, Find(v, wanted, sorted))
    ensures forall path :: Leads(v, wanted, path) ==> Find(v, wanted, sorted) != []
  {
    FindLeads(v, wanted, sorted);
    forall path | Leads(v, wanted, path)
      ensures Find(v, wanted, sorted) != []
    {
      FindFinds(v, wanted, sorted, path);
    }
  }

  /** No path leads to an entry that is wanted. */
  ghost predicate Without(v: Value, wanted: (string, Value) -> bool) {
    forall path :: !Leads(v, wanted, path)
  }

  /** No key before this one leads to an entry that is wanted. */
  ghost predicate FirstKey(v: Value, keys: seq<string>, wanted: (string, Value) -> bool, i: int)
    requires v.Obj? && forall k :: 0 <= k < |keys| ==> keys[k] in v.fields
  {
    && 0 <= i < |keys|
    && forall k :: 0 <= k < i ==> !wanted(keys[k], v.fields[keys[k]]) && Without(v.fields[keys[k]], wanted)
  }

  /** The path is the first: at each step nothing before it leads to an entry that is wanted. */
  ghost predicate IsFirst(v: Value, wanted: (string, Value) -> bool, sorted: set<string> -> seq<string>,
                          path: seq<Part>)
    requires SortsKeys(sorted)
    decreases |path|
  {
    path != [] &&
    match path[0]
    case Key(k) =>
      && v.Obj? && k in v.fields
      && (exists i :: FirstKey(v, sorted(v.fields.Keys), wanted, i) && sorted(v.fields.Keys)[i] == k)
      && (if |path| == 1 then wanted(k, v.fields[k])
          else !wanted(k, v.fields[k]) && IsFirst(v.fields[k], wanted, sorted, path[1..]))
    case Index(i) =>
      && v.Arr? && 0 <= i < |v.items| && (forall k :: 0 <= k < i ==> Without(v.items[k], wanted))
      && IsFirst(v.items[i], wanted, sorted, path[1..])
  }

  lemma FoundOrWithout(v: Value, wanted: (string, Value) -> bool, sorted: set<string> -> seq<string>)
    requires SortsKeys(sorted)
    ensures Find(v, wanted, sorted) == [] ==> Without(v, wanted)
  {
    FindExactly(v, wanted, sorted);
  }

  /** The path that is found is the first, with keys in their sorted order. */
  lemma {:induction false} FindsTheFirst(v: Value, wanted: (string, Value) -> bool, sorted: set<string> -> seq<string>)
    requires SortsKeys(sorted)
    ensures Find(v, wanted, sorted) != [] ==> IsFirst(v, wanted, sorted, Find(v, wanted, sorted))
    decreases v, 1, 0
  {
    match v
    case Obj(fields) =>
      var keys := sorted(fields.Keys);
      if keys != [] {
        assert keys[0..] == keys;
        FirstInFields(v, 0, wanted, sorted);
      }
    case Arr(items) => FirstInItems(v, 0, wanted, sorted);
    case _ =>
  }

  lemma {:induction false} FirstInFields(v: Value, n: nat, wanted: (string, Value) -> bool,
                                         sorted: set<string> -> seq<string>)
    requires v.Obj? && SortsKeys(sorted) && n < |sorted(v.fields.Keys)|
    requires FirstKey(v, sorted(v.fields.Keys), wanted, n)
    ensures
      var path := FindInFields(v, sorted(v.fields.Keys)[n..], wanted, sorted);
      path != [] ==> IsFirst(v, wanted, sorted, path)
    decreases v, 0, |sorted(v.fields.Keys)| - n
  {
    var keys := sorted(v.fields.Keys);
    var key := keys[n];
    assert keys[n..][0] == key && keys[n..][1..] == keys[n + 1..];
    if !wanted(key, v.fields[key]) {
      FindsTheFirst(v.fields[key], wanted, sorted);
      var nested := Find(v.fields[key], wanted, sorted);
      assert ([Key(key)] + nested)[1..] == nested;
      if nested == [] && n + 1 < |keys| {
        FoundOrWithout(v.fields[key], wanted, sorted);
        FirstInFields(v, n + 1, wanted, sorted);
      }
    }
  }

  lemma {:induction false} FirstInItems(v: Value, n: nat, wanted: (string, Value) -> bool,
                                        sorted: set<string> -> seq<string>)
    requires v.Arr? && n <= |v.items| && SortsKeys(sorted)
    requires forall k :: 0 <= k < n ==> Without(v.items[k], wanted)
    ensures
      var path := FindInItems(v, n, wanted, sorted);
      path != [] ==> IsFirst(v, wanted, sorted, path)
    decreases v, 0, |v.items| - n
  {
    if n < |v.items| {
      FindsTheFirst(v.items[n], wanted, sorted);
      var nested := Find(v.items[n], wanted, sorted);
      assert ([Index(n)] + nested)[1..] == nested;
      if nested == [] {
        FoundOrWithout(v.items[n], wanted, sorted);
        FirstInItems(v, n + 1, wanted, sorted);
      }
    }
  }
}
