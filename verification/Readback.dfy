/**
 Finding a later read that shows what an earlier write stored.

 The naive search compares every write with every later read.  The program instead files each read under
 every ancestor of its path and looks a write's path up there.  Both find the same pairs.
 */
module Readback {
  import opened Words

  /** An operation as far as the search looks at it: whether it is eligible as a write or a read, its URL
      split into origin and path, the origin of its source, and the stable fields of its bodies. */
  datatype Operation = Operation(
    eligibleWrite: bool, eligibleRead: bool, urlOrigin: string, path: string, sourceOrigin: string,
    submitted: map<string, string>, returned: map<string, string>)
  {
    function Origin(): string {
      if urlOrigin == "" then sourceOrigin else urlOrigin
    }
  }

  type Place = (string, string)

  // ----- Paths -----

  function TrimSlashes(path: string): (r: string)
    ensures r <= path && (r == "" || r[|r| - 1] != '/')
  {
    if path != "" && path[|path| - 1] == '/' then TrimSlashes(path[..|path| - 1]) else path
  }

  /** The place of the last slash, or -1. */
  function LastSlash(path: string): (r: int)
    ensures -1 <= r < |path|
    ensures r >= 0 ==> path[r] == '/'
    ensures forall k :: r < k < |path| ==> path[k] != '/'
  {
    if path == "" then -1
    else if path[|path| - 1] == '/' then |path| - 1
    else LastSlash(path[..|path| - 1])
  }

  function ParentPath(path: string): (r: string)
    ensures r == "/" || |r| < |path|
  {
    var trimmed := TrimSlashes(path);
    var index := LastSlash(trimmed);
    if index <= 0 then "/" else trimmed[..index]
  }

  /** The ancestors of a path beyond the first: cut the last segment off until the root is reached. */
  function HigherAncestors(path: string): seq<string>
    decreases |path|
  {
    if path == "/" || path == "" then []
    else
      var parent := ParentPath(path);
      if parent == "/" then [] else [TrimSlashes(parent)] + HigherAncestors(parent)
  }

  function Ancestors(path: string): seq<string> {
    var trimmed := TrimSlashes(path);
    if trimmed == "" then [] else [trimmed] + HigherAncestors(trimmed)
  }

  method EndpointAncestors(path: string) returns (result: seq<string>)
    ensures result == Ancestors(path)
  {
    var current := TrimSlashes(path);
    if current == "" {
      return [];
    }
    result := [current];
    while current != "/"
      invariant current != ""
      invariant result + HigherAncestors(current) == Ancestors(path)
      decreases |current|
    {
      var parent := ParentPath(current);
      if parent == "/" {
        break;
      }
      result := result + [TrimSlashes(parent)];
      current := parent;
    }
  }

  // ----- What makes a read show a write -----

  predicate RelatedPaths(writePath: string, readPath: string) {
    var w, r := TrimSlashes(writePath), TrimSlashes(readPath);
    && w != "" && r != ""
    && (r == w || w + "/" <= r || TrimSlashes(ParentPath(r)) == w)
  }

  predicate RelatedReadback(write: Operation, read: Operation) {
    && (write.urlOrigin != "" && read.urlOrigin != "" ==> write.urlOrigin == read.urlOrigin)
    && RelatedPaths(write.path, read.path)
  }

  /** The fields on which two bodies agree. */
  ghost function Shared<K, V>(left: map<K, V>, right: map<K, V>): set<K> {
    set key | key in left && key in right && left[key] == right[key]
  }

  /** One telling field in common, or two fields of any kind. */
  ghost predicate Shares<K, V>(left: map<K, V>, right: map<K, V>, telling: (K, V) -> bool) {
    (exists key :: key in Shared(left, right) && telling(key, left[key])) || |Shared(left, right)| >= 2
  }

  /** Compares the fields in an arbitrary order, and stops at the first telling one. */
  method SharesStableField<K(==), V(==)>(left: map<K, V>, right: map<K, V>, telling: (K, V) -> bool) returns (r: bool)
    ensures r == Shares(left, right, telling)
  {
    var matches: nat := 0;
    var rest := left.Keys;
    ghost var found: set<K> := {};
    while rest != {}
      invariant matches == |found|
      invariant forall key :: key in rest ==> key in left && key !in found
      invariant forall key :: key in found ==> key in Shared(left, right) && !telling(key, left[key])
      invariant forall key :: key in Shared(left, right) ==> key in found || key in rest
      decreases |rest|
    {
      var key :| key in rest;
      rest := rest - {key};
      if key in right && right[key] == left[key] {
        assert key in Shared(left, right);
        found := found + {key};
        matches := matches + 1;
        if telling(key, left[key]) {
          return true;
        }
      }
    }
    assert found == Shared(left, right);
    return matches >= 2;
  }

  /** Tells a field that identifies an object, or whose value is not one the scanner fills in itself. */
  type Telling = (string, string) -> bool

  /** The naive search: what it takes for write `i` and read `j` to be a pair. */
  ghost predicate Pair(ops: seq<Operation>, telling: Telling, i: int, j: int) {
    && 0 <= i < j < |ops|
    && ops[i].eligibleWrite && ops[j].eligibleRead
    && ops[i].Origin() == ops[j].Origin()
    && RelatedReadback(ops[i], ops[j])
    && Shares(ops[i].submitted, ops[j].returned, telling)
  }

  function ObjectKey(op: Operation): Place {
    (op.Origin(), TrimSlashes(op.path))
  }

  // ----- The ancestor index misses no pair -----

  /** A shorter path that a slash follows is still one after trimming, or is what trimming leaves. */
  lemma {:induction false} TrimKeepsPrefix(p: string, path: string)
    requires p != "" && p[|p| - 1] != '/' && p <= path
    ensures p <= TrimSlashes(path)
  {
    if path != "" && path[|path| - 1] == '/' {
      assert |p| < |path|;
      TrimKeepsPrefix(p, path[..|path| - 1]);
    }
  }

  lemma TrimOfTrimmed(p: string)
    requires p == "" || p[|p| - 1] != '/'
    ensures TrimSlashes(p) == p
  {
  }

  /** Every proper prefix that ends where a segment ends is among the higher ancestors. */
  lemma {:induction false} PrefixIsAncestor(p: string, path: string)
    requires p != "" && p[|p| - 1] != '/' && p + "/" <= TrimSlashes(path)
    ensures p in HigherAncestors(path)
    decreases |path|
  {
    var trimmed := TrimSlashes(path);
    var index := LastSlash(trimmed);
    assert trimmed[|p|] == (p + "/")[|p|] == '/';
    assert |p| <= index;
    var parent := trimmed[..index];
    assert ParentPath(path) == parent;
    assert p <= parent by {
      assert (p + "/")[..|p|] == p;
    }
    assert p[0] == parent[0];
    TrimKeepsPrefix(p, parent);
    var next := TrimSlashes(parent);
    if p != next {
      assert p + "/" <= next by {
        assert |p| < |next|;
        assert next[|p|] == trimmed[|p|] == '/';
      }
      PrefixIsAncestor(p, parent);
    }
  }

  /** The parent of a path comes before its last slash. */
  lemma ParentIsFirst(path: string)
    requires TrimSlashes(path) == path && TrimSlashes(ParentPath(path)) != ""
    ensures TrimSlashes(ParentPath(path)) + "/" <= path
  {
    var index := LastSlash(path);
    var parent := path[..index];
    var w := TrimSlashes(parent);
    TrimmedByOne(parent);
    if |w| < |parent| {
      assert parent[|w|] == '/' && path[|w|] == '/';
    } else {
      assert path[|w|] == '/';
    }
  }

  lemma {:induction false} TrimmedByOne(path: string)
    ensures |TrimSlashes(path)| < |path| ==> path[|TrimSlashes(path)|] == '/'
  {
    if path != "" && path[|path| - 1] == '/' {
      TrimmedByOne(path[..|path| - 1]);
    }
  }

  /** A write and a read are related exactly when the write's segments come first among the read's. */
  lemma RelatedExactly(writePath: string, readPath: string)
    ensures RelatedPaths(writePath, readPath) <==>
      && TrimSlashes(writePath) != "" && TrimSlashes(readPath) != ""
      && Split(TrimSlashes(writePath), '/') <= Split(TrimSlashes(readPath), '/')
  {
    var w, r := TrimSlashes(writePath), TrimSlashes(readPath);
    WordsComeFirst(w, r, '/');
    TrimOfTrimmed(r);
    if w != "" && TrimSlashes(ParentPath(r)) == w {
      ParentIsFirst(r);
    }
  }

  /** The index is complete: the place of a related write is among the places its reads are filed under. */
  lemma RelatedIsFiled(writePath: string, readPath: string)
    requires RelatedPaths(writePath, readPath)
    ensures TrimSlashes(writePath) in Ancestors(readPath)
  {
    var w, r := TrimSlashes(writePath), TrimSlashes(readPath);
    TrimOfTrimmed(r);
    if w + "/" <= r {
      PrefixIsAncestor(w, r);
    } else if r != w {
      assert TrimSlashes("/") == "";
      assert ParentPath(r) != "/";
    }
  }

  // ----- The search -----

  /** Where an operation is filed: under every ancestor of its path, if it can be a read at all. */
  function PlacesOf(op: Operation): seq<Place> {
    if !op.eligibleRead || op.returned == map[] then []
    else
      var ancestors := Ancestors(op.path);
      seq(|ancestors|, i requires 0 <= i < |ancestors| => (op.Origin(), ancestors[i]))
  }

  /** Operation `i` is listed at `p`. */
  ghost predicate Lists<K>(index: map<K, seq<int>>, p: K, i: int) {
    p in index && i in index[p]
  }

  /** The index of the first `n` operations, which are filed under `places`. */
  ghost predicate IndexOf<K(!new)>(index: map<K, seq<int>>, places: seq<seq<K>>, n: nat)
    requires n <= |places|
  {
    forall p, i: int :: Lists(index, p, i) <==> 0 <= i < n && p in places[i]
  }

  ghost predicate FiledOnce<K(!new)>(before: map<K, seq<int>>, index: map<K, seq<int>>, places: seq<K>, j: nat) {
    forall p, i: int :: Lists(index, p, i) <==> Lists(before, p, i) || (i == j && p in places)
  }

  lemma FiledOneMore<K(!new)>(before: map<K, seq<int>>, index: map<K, seq<int>>, places: seq<K>, j: nat, place: K)
    requires FiledOnce(before, index, places, j)
    ensures FiledOnce(before, index[place := (if place in index then index[place] else []) + [j]], places + [place], j)
  {
    var list := if place in index then index[place] else [];
    var next := index[place := list + [j]];
    assert next[place][|list|] == j;
    forall p, i: int
      ensures Lists(next, p, i) <==> Lists(before, p, i) || (i == j && p in places + [place])
    {
      assert Lists(index, p, i) <==> Lists(before, p, i) || (i == j && p in places);
      if p == place {
        assert i in next[p] <==> i in list || i == j;
      }
    }
  }

  /** Files one read under each of its places. */
  method FileUnder<K(==, !new)>(before: map<K, seq<int>>, places: seq<K>, j: nat) returns (index: map<K, seq<int>>)
    ensures FiledOnce(before, index, places, j)
  {
    index := before;
    for a := 0 to |places|
      invariant FiledOnce(before, index, places[..a], j)
    {
      FiledOneMore(before, index, places[..a], j, places[a]);
      var list := if places[a] in index then index[places[a]] else [];
      index := index[places[a] := list + [j]];
      assert places[..a + 1] == places[..a] + [places[a]];
    }
    assert places[..|places|] == places;
  }

  method BuildIndex(ops: seq<Operation>, ghost places: seq<seq<Place>>) returns (index: map<Place, seq<int>>)
    requires |places| == |ops| && forall j :: 0 <= j < |ops| ==> places[j] == PlacesOf(ops[j])
    ensures IndexOf(index, places, |ops|)
  {
    index := map[];
    for j := 0 to |ops|
      invariant IndexOf(index, places, j)
    {
      if !ops[j].eligibleRead || ops[j].returned == map[] {
        IndexSkips(index, places, j);
        continue;
      }
      var ancestors := EndpointAncestors(ops[j].path);
      var mine := seq(|ancestors|, i requires 0 <= i < |ancestors| => (ops[j].Origin(), ancestors[i]));
      assert mine == places[j];
      ghost var before := index;
      index := FileUnder(index, mine, j);
      IndexGrows(before, index, places, j);
    }
  }

  lemma IndexGrows<K(!new)>(before: map<K, seq<int>>, index: map<K, seq<int>>, places: seq<seq<K>>, j: nat)
    requires j < |places| && IndexOf(before, places, j) && FiledOnce(before, index, places[j], j)
    ensures IndexOf(index, places, j + 1)
  {
    forall p, i: int
      ensures Lists(index, p, i) <==> 0 <= i < j + 1 && p in places[i]
    {
      assert Lists(index, p, i) <==> Lists(before, p, i) || (i == j && p in places[j]);
    }
  }

  lemma IndexSkips<K(!new)>(index: map<K, seq<int>>, places: seq<seq<K>>, j: nat)
    requires j < |places| && IndexOf(index, places, j) && places[j] == []
    ensures IndexOf(index, places, j + 1)
  {
  }

  // ----- Grouping pairs by the object that the read is about -----

  /** The groups hold exactly the operations of the pairs in `seen`; operation `j` is about object `keys[j]`. */
  ghost predicate GroupsOf<K(!new)>(groups: map<K, set<int>>, keys: seq<K>, seen: set<(int, int)>) {
    && (forall p :: p in seen ==> 0 <= p.1 < |keys|)
    && (forall key :: key in groups ==> exists i :: i in groups[key])
    && (forall key, i :: key in groups && i in groups[key] ==> Explained(keys, seen, key, i))
    && (forall p :: p in seen ==> keys[p.1] in groups && {p.0, p.1} <= groups[keys[p.1]])
  }

  /** Operation `i` belongs to a pair of `seen` whose read is about the object `key`. */
  ghost predicate Explained<K>(keys: seq<K>, seen: set<(int, int)>, key: K, i: int)
    requires forall p :: p in seen ==> 0 <= p.1 < |keys|
  {
    exists p :: p in seen && keys[p.1] == key && (i == p.0 || i == p.1)
  }

  lemma GroupsWithPair<K(!new)>(groups: map<K, set<int>>, keys: seq<K>, seen: set<(int, int)>, w: int, r: int)
    requires GroupsOf(groups, keys, seen) && 0 <= r < |keys|
    ensures
      var group := if keys[r] in groups then groups[keys[r]] else {};
      GroupsOf(groups[keys[r] := group + {w} + {r}], keys, seen + {(w, r)})
  {
    var next := groups[keys[r] := (if keys[r] in groups then groups[keys[r]] else {}) + {w} + {r}];
    var more := seen + {(w, r)};
    forall key, i | key in next && i in next[key]
      ensures Explained(keys, more, key, i)
    {
      if key in groups && i in groups[key] {
        assert Explained(keys, seen, key, i);
        var p :| p in seen && keys[p.1] == key && (i == p.0 || i == p.1);
        assert p in more;
      } else {
        assert (w, r) in more;
      }
    }
  }

  /** `seen` holds the pairs whose write comes before `w`, or is `w` with its read among `filed`. */
  ghost predicate PairsUpTo(ops: seq<Operation>, telling: Telling, seen: set<(int, int)>, w: nat, filed: seq<int>) {
    forall a: int, b: int :: (a, b) in seen <==> Pair(ops, telling, a, b) && (a < w || (a == w && b in filed))
  }

  lemma PairsWithOneMore(
    ops: seq<Operation>, telling: Telling, seen: set<(int, int)>, w: nat, filed: seq<int>, r: int)
    requires PairsUpTo(ops, telling, seen, w, filed)
    ensures Pair(ops, telling, w, r) ==> PairsUpTo(ops, telling, seen + {(w, r)}, w, filed + [r])
    ensures !Pair(ops, telling, w, r) ==> PairsUpTo(ops, telling, seen, w, filed + [r])
  {
    assert forall b :: b in filed + [r] <==> b in filed || b == r;
  }

  /** A pair's read is filed under its write's place. */
  lemma PairIsFiled(ops: seq<Operation>, telling: Telling, a: nat, b: int)
    requires Pair(ops, telling, a, b)
    ensures ops[a].submitted != map[]
    ensures ObjectKey(ops[a]) in PlacesOf(ops[b])
  {
    RelatedIsFiled(ops[a].path, ops[b].path);
    assert Shared(ops[a].submitted, ops[b].returned) != {};
    var k :| 0 <= k < |Ancestors(ops[b].path)| && Ancestors(ops[b].path)[k] == TrimSlashes(ops[a].path);
    assert PlacesOf(ops[b])[k] == ObjectKey(ops[a]);
  }

  ghost function Keys(ops: seq<Operation>): (keys: seq<Place>)
    ensures |keys| == |ops|
  {
    seq(|ops|, j requires 0 <= j < |ops| => ObjectKey(ops[j]))
  }

  /** Looks at the reads filed at a write's place. */
  method ScanReads(
    ops: seq<Operation>, telling: Telling, w: nat, filed: seq<int>, before: map<Place, set<int>>,
    ghost seenBefore: set<(int, int)>)
    returns (groups: map<Place, set<int>>, ghost seen: set<(int, int)>)
    requires w < |ops| && ops[w].eligibleWrite
    requires forall k :: 0 <= k < |filed| ==>
      0 <= filed[k] < |ops| && ops[filed[k]].eligibleRead && ops[filed[k]].Origin() == ops[w].Origin()
    requires GroupsOf(before, Keys(ops), seenBefore) && PairsUpTo(ops, telling, seenBefore, w, [])
    ensures GroupsOf(groups, Keys(ops), seen) && PairsUpTo(ops, telling, seen, w, filed)
  {
    groups, seen := before, seenBefore;
    for n := 0 to |filed|
      invariant GroupsOf(groups, Keys(ops), seen) && PairsUpTo(ops, telling, seen, w, filed[..n])
    {
      assert filed[..n + 1] == filed[..n] + [filed[n]];
      var r := filed[n];
      PairsWithOneMore(ops, telling, seen, w, filed[..n], r);
      if r <= w {
        continue;
      }
      if !RelatedReadback(ops[w], ops[r]) {
        continue;
      }
      var shares := SharesStableField(ops[w].submitted, ops[r].returned, telling);
      if !shares {
        continue;
      }
      GroupsWithPair(groups, Keys(ops), seen, w, r);
      var key := ObjectKey(ops[r]);
      assert Keys(ops)[r] == key;
      var group := if key in groups then groups[key] else {};
      groups := groups[key := group + {w} + {r}];
      seen := seen + {(w, r)};
    }
    assert filed[..|filed|] == filed;
  }

  /** Operation `i` belongs to a pair whose read is about the object `key`. */
  ghost predicate Proves(ops: seq<Operation>, telling: Telling, key: Place, i: int) {
    exists a, b :: Pair(ops, telling, a, b) && ObjectKey(ops[b]) == key && (i == a || i == b)
  }

  ghost predicate HasPair(ops: seq<Operation>, telling: Telling, key: Place) {
    exists a, b :: Pair(ops, telling, a, b) && ObjectKey(ops[b]) == key
  }

  /**
   The indexed search finds exactly what the naive search finds: the group of an object holds the operations
   of the pairs whose read is about that object, and no object without a pair has a group.
   */
  method PersistentReadbackGroups(ops: seq<Operation>, telling: Telling) returns (groups: map<Place, set<int>>)
    ensures forall key :: key in groups <==> HasPair(ops, telling, key)
    ensures forall key, i: int :: (key in groups && i in groups[key]) <==> Proves(ops, telling, key, i)
  {
    ghost var places := seq(|ops|, j requires 0 <= j < |ops| => PlacesOf(ops[j]));
    var index := BuildIndex(ops, places);
    groups := map[];
    ghost var seen: set<(int, int)> := {};
    for w := 0 to |ops|
      invariant GroupsOf(groups, Keys(ops), seen) && PairsUpTo(ops, telling, seen, w, [])
    {
      var place := ObjectKey(ops[w]);
      if !ops[w].eligibleWrite || ops[w].submitted == map[] {
        NoPairs(ops, telling, seen, w);
        continue;
      }
      var filed := if place in index then index[place] else [];
      FiledReadsAreComplete(ops, telling, index, places, w, filed);
      groups, seen := ScanReads(ops, telling, w, filed, groups, seen);
      AllPairsSeen(ops, telling, seen, w, filed);
    }
    GroupsAreComplete(groups, ops, telling, seen);
  }

  lemma NoPairs(ops: seq<Operation>, telling: Telling, seen: set<(int, int)>, w: nat)
    requires w < |ops| && PairsUpTo(ops, telling, seen, w, [])
    requires !ops[w].eligibleWrite || ops[w].submitted == map[]
    ensures PairsUpTo(ops, telling, seen, w + 1, [])
  {
    forall b: int
      ensures !Pair(ops, telling, w, b)
    {
      if Pair(ops, telling, w, b) {
        PairIsFiled(ops, telling, w, b);
        assert false;
      }
    }
  }

  /** The reads filed at a write's place are reads of its origin, and no pair's read is missing. */
  lemma FiledReadsAreComplete(
    ops: seq<Operation>, telling: Telling, index: map<Place, seq<int>>, places: seq<seq<Place>>, w: nat,
    filed: seq<int>)
    requires w < |ops| == |places| && forall j :: 0 <= j < |ops| ==> places[j] == PlacesOf(ops[j])
    requires IndexOf(index, places, |ops|)
    requires filed == if ObjectKey(ops[w]) in index then index[ObjectKey(ops[w])] else []
    ensures forall k :: 0 <= k < |filed| ==>
      0 <= filed[k] < |ops| && ops[filed[k]].eligibleRead && ops[filed[k]].Origin() == ops[w].Origin()
    ensures forall b: int :: Pair(ops, telling, w, b) ==> b in filed
  {
    var place := ObjectKey(ops[w]);
    LookUp(index, places, place, filed);
    forall k | 0 <= k < |filed|
      ensures 0 <= filed[k] < |ops| && ops[filed[k]].eligibleRead && ops[filed[k]].Origin() == ops[w].Origin()
    {
      assert filed[k] in filed;
      FiledIsRead(ops[filed[k]], place);
    }
    forall b: int | Pair(ops, telling, w, b)
      ensures b in filed
    {
      PairIsFiled(ops, telling, w, b);
    }
  }

  lemma LookUp<K(!new)>(index: map<K, seq<int>>, places: seq<seq<K>>, place: K, filed: seq<int>)
    requires IndexOf(index, places, |places|)
    requires filed == if place in index then index[place] else []
    ensures forall j :: j in filed <==> 0 <= j < |places| && place in places[j]
  {
    forall j: int
      ensures j in filed <==> 0 <= j < |places| && place in places[j]
    {
      assert Lists(index, place, j) <==> 0 <= j < |places| && place in places[j];
    }
  }

  lemma FiledIsRead(op: Operation, place: Place)
    requires place in PlacesOf(op)
    ensures op.eligibleRead && op.Origin() == place.0
  {
  }

  lemma AllPairsSeen(ops: seq<Operation>, telling: Telling, seen: set<(int, int)>, w: nat, filed: seq<int>)
    requires PairsUpTo(ops, telling, seen, w, filed)
    requires forall b: int :: Pair(ops, telling, w, b) ==> b in filed
    ensures PairsUpTo(ops, telling, seen, w + 1, [])
  {
  }

  lemma MemberIsProved(groups: map<Place, set<int>>, ops: seq<Operation>, telling: Telling, seen: set<(int, int)>,
                       key: Place, i: int)
    requires GroupsOf(groups, Keys(ops), seen) && PairsUpTo(ops, telling, seen, |ops|, [])
    requires key in groups && i in groups[key]
    ensures Proves(ops, telling, key, i) && HasPair(ops, telling, key)
  {
    assert Explained(Keys(ops), seen, key, i);
    var p :| p in seen && Keys(ops)[p.1] == key && (i == p.0 || i == p.1);
    assert (p.0, p.1) in seen;
    assert Pair(ops, telling, p.0, p.1);
  }

  lemma GroupsAreComplete(groups: map<Place, set<int>>, ops: seq<Operation>, telling: Telling, seen: set<(int, int)>)
    requires GroupsOf(groups, Keys(ops), seen) && PairsUpTo(ops, telling, seen, |ops|, [])
    ensures forall key :: key in groups <==> HasPair(ops, telling, key)
    ensures forall key, i: int :: (key in groups && i in groups[key]) <==> Proves(ops, telling, key, i)
  {
    forall key, i: int | key in groups && i in groups[key]
      ensures Proves(ops, telling, key, i) && HasPair(ops, telling, key)
    {
      MemberIsProved(groups, ops, telling, seen, key, i);
    }
    forall a: int, b: int | Pair(ops, telling, a, b)
      ensures ObjectKey(ops[b]) in groups && a in groups[ObjectKey(ops[b])] && b in groups[ObjectKey(ops[b])]
    {
      assert (a, b) in seen;
      assert Keys(ops)[b] == ObjectKey(ops[b]);
    }
    forall key | key in groups
      ensures HasPair(ops, telling, key)
    {
      var i :| i in groups[key];
    }
  }
}
