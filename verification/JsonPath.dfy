/**
 Reading and changing decoded JSON along paths. Object keys are matched without regard to case, and an
 object may be ranged over in any order.
 */
module JsonPath {
  import opened Text
  import opened Wrappers
  import opened Json

  const MAXIMUM_INDEX := 1000

  datatype Part = Key(name: string) | Index(index: int)

  predicate SameFold(a: string, b: string) {
    ToLower(a) == ToLower(b)
  }

  /** A key of the object that matches; when none does, the key itself. */
  ghost function MatchingKey(fields: map<string, Value>, wanted: string): string {
    if k :| k in fields && SameFold(k, wanted) then k else wanted
  }

  /** At most one key of the object matches. */
  ghost predicate OneMatch(fields: map<string, Value>, wanted: string) {
    forall j, k :: j in fields && k in fields && SameFold(j, wanted) && SameFold(k, wanted) ==> j == k
  }

  /** What ranging over the object in some order may come up with. */
  ghost predicate Possible(fields: map<string, Value>, wanted: string, key: string) {
    if key in fields then SameFold(key, wanted)
    else key == wanted && forall k :: k in fields ==> !SameFold(k, wanted)
  }

  /** Writing under one key that may come up and reading under one that may come up then. */
  ghost predicate ReadsBack(fields: map<string, Value>, wanted: string, value: Value, j: string, k: string) {
    var after := fields[j := value];
    Possible(fields, wanted, j) && Possible(after, wanted, k) ==> k in after && after[k] == value
  }

  /** Only with at most one matching key is every value sure to be read back, whatever the order. */
  lemma ReadsBackExactly(fields: map<string, Value>, wanted: string)
    ensures OneMatch(fields, wanted) <==> forall value, j, k :: ReadsBack(fields, wanted, value, j, k)
  {
    if !OneMatch(fields, wanted) {
      var j, k :| j in fields && k in fields && SameFold(j, wanted) && SameFold(k, wanted) && j != k;
      var other := if fields[k] == Null then Bool(true) else Null;
      assert !ReadsBack(fields, wanted, other, j, k);
    }
  }

  /** For example, an object with the keys a and A. */
  lemma AmbiguousKeys()
    ensures
      var fields := map["a" := Null, "A" := Null];
      !OneMatch(fields, "a") && !ReadsBack(fields, "a", Bool(true), "a", "A")
  {
    assert ToLower("a") == ToLower("A") == "a";
    assert "a"[0] != "A"[0];
    var fields := map["a" := Null, "A" := Null];
    assert "a" in fields && "A" in fields && SameFold("a", "a") && SameFold("A", "a");
  }

  method MatchingObjectKey(fields: map<string, Value>, wanted: string) returns (key: string)
    ensures OneMatch(fields, wanted) ==> key == MatchingKey(fields, wanted)
    ensures Possible(fields, wanted, key)
  {
    var rest := fields.Keys;
    while rest != {}
      invariant rest <= fields.Keys
      invariant forall k :: k in fields && k !in rest ==> !SameFold(k, wanted)
    {
      key :| key in rest;
      if SameFold(key, wanted) {
        return;
      }
      rest := rest - {key};
    }
    return wanted;
  }

  // ----- Setting -----

  function Container(path: seq<Part>): Value {
    if path == [] then Null else if path[0].Key? then Obj(map[]) else Arr([])
  }

  /** Filled up so that the index is there. */
  function Padded(items: seq<Value>, index: nat, filler: Value): (padded: seq<Value>)
    ensures |padded| > index && items <= padded
    ensures forall i :: |items| <= i < |padded| ==> padded[i] == filler
  {
    if |items| > index then items else items + seq(index + 1 - |items|, _ => filler)
  }

  function FieldsOf(v: Value): map<string, Value> {
    if v.Obj? then v.fields else map[]
  }

  function ItemsOf(v: Value): seq<Value> {
    if v.Arr? then v.items else []
  }

  /** What is set into along a key: the field that matches, or a new container. */
  ghost function Below(v: Value, name: string, rest: seq<Part>): Value {
    var fields := FieldsOf(v);
    var key := MatchingKey(fields, name);
    if key in fields then fields[key] else Container(rest)
  }

  /** The value with the change, and whether there is one. Anything in the way is replaced by a container. */
  ghost function Set(current: Value, path: seq<Part>, value: Value): (Value, bool)
    decreases |path|
  {
    if path == [] then (if current == value then (current, false) else (value, true))
    else
      match path[0]
      case Key(name) =>
        var fields := FieldsOf(current);
        var (updated, changed) := Set(Below(current, name, path[1..]), path[1..], value);
        (Obj(if changed then fields[MatchingKey(fields, name) := updated] else fields), changed)
      case Index(index) =>
        if index < 0 || index > MAXIMUM_INDEX then (current, false)
        else
          var items := Padded(ItemsOf(current), index, Container(path[1..]));
          var (updated, changed) := Set(items[index], path[1..], value);
          (Arr(if changed then items[index := updated] else items), changed)
  }

  /** Along the path no object has two keys that match the path's key there. */
  ghost predicate Clear(current: Value, path: seq<Part>)
    decreases |path|
  {
    path == [] ||
    match path[0]
    case Key(name) =>
      OneMatch(FieldsOf(current), name) && Clear(Below(current, name, path[1..]), path[1..])
    case Index(index) =>
      0 <= index < |ItemsOf(current)| ==> Clear(ItemsOf(current)[index], path[1..])
  }

  lemma {:induction false} ContainerClear(path: seq<Part>)
    ensures Clear(Container(path), path)
  {
    if path != [] && path[0].Key? {
      assert Below(Container(path), path[0].name, path[1..]) == Container(path[1..]);
      ContainerClear(path[1..]);
    }
  }

  // ----- Setting in every order -----

  /** What is set into under a key that came up: its field, or a new container. */
  function FieldAt(v: Value, key: string, rest: seq<Part>): Value {
    if key in FieldsOf(v) then FieldsOf(v)[key] else Container(rest)
  }

  function ItemAt(v: Value, index: nat, rest: seq<Part>): Value {
    Padded(ItemsOf(v), index, Container(rest))[index]
  }

  /** These keys may come up along the path, in some order of ranging over each object on it. */
  ghost predicate MayPick(current: Value, path: seq<Part>, picks: seq<string>)
    decreases |path|
  {
    && |picks| == |path|
    && (path == [] ||
        match path[0]
        case Key(name) =>
          && Possible(FieldsOf(current), name, picks[0])
          && MayPick(FieldAt(current, picks[0], path[1..]), path[1..], picks[1..])
        case Index(index) =>
          0 <= index <= MAXIMUM_INDEX ==> MayPick(ItemAt(current, index, path[1..]), path[1..], picks[1..]))
  }

  /** The change when these keys come up. */
  function SetVia(current: Value, path: seq<Part>, picks: seq<string>, value: Value): (Value, bool)
    requires |picks| == |path|
    decreases |path|
  {
    if path == [] then (value, current != value)
    else
      match path[0]
      case Key(name) =>
        var (updated, changed) := SetVia(FieldAt(current, picks[0], path[1..]), path[1..], picks[1..], value);
        (Obj(if changed then FieldsOf(current)[picks[0] := updated] else FieldsOf(current)), changed)
      case Index(index) =>
        if index < 0 || index > MAXIMUM_INDEX then (current, false)
        else
          var items := Padded(ItemsOf(current), index, Container(path[1..]));
          var (updated, changed) := SetVia(items[index], path[1..], picks[1..], value);
          (Arr(if changed then items[index := updated] else items), changed)
  }

  lemma OnePick(fields: map<string, Value>, wanted: string, key: string)
    requires OneMatch(fields, wanted) && Possible(fields, wanted, key)
    ensures key == MatchingKey(fields, wanted)
  {
  }

  lemma OneWayAtKey(current: Value, path: seq<Part>, picks: seq<string>, value: Value)
    requires path != [] && path[0].Key? && |picks| == |path|
    requires OneMatch(FieldsOf(current), path[0].name) && Possible(FieldsOf(current), path[0].name, picks[0])
    requires
      var next := Below(current, path[0].name, path[1..]);
      SetVia(next, path[1..], picks[1..], value) == Set(next, path[1..], value)
    ensures FieldAt(current, picks[0], path[1..]) == Below(current, path[0].name, path[1..])
    ensures SetVia(current, path, picks, value) == Set(current, path, value)
  {
    OnePick(FieldsOf(current), path[0].name, picks[0]);
    assert FieldAt(current, picks[0], path[1..]) == Below(current, path[0].name, path[1..]);
  }

  lemma OneWayAtIndex(current: Value, path: seq<Part>, picks: seq<string>, value: Value)
    requires path != [] && path[0].Index? && |picks| == |path| && 0 <= path[0].index <= MAXIMUM_INDEX
    requires
      var next := ItemAt(current, path[0].index, path[1..]);
      SetVia(next, path[1..], picks[1..], value) == Set(next, path[1..], value)
    ensures SetVia(current, path, picks, value) == Set(current, path, value)
  {
  }

  /** Where no object has two matching keys, there is one change only. */
  lemma {:induction false} ClearIsOneWay(current: Value, path: seq<Part>, picks: seq<string>, value: Value)
    requires Clear(current, path) && MayPick(current, path, picks)
    ensures SetVia(current, path, picks, value) == Set(current, path, value)
    decreases |path|
  {
    if path != [] {
      match path[0]
      case Key(name) =>
        OnePick(FieldsOf(current), name, picks[0]);
        assert FieldAt(current, picks[0], path[1..]) == Below(current, name, path[1..]);
        ClearIsOneWay(Below(current, name, path[1..]), path[1..], picks[1..], value);
        OneWayAtKey(current, path, picks, value);
      case Index(index) =>
        if 0 <= index <= MAXIMUM_INDEX {
          ContainerClear(path[1..]);
          ClearIsOneWay(ItemAt(current, index, path[1..]), path[1..], picks[1..], value);
          OneWayAtIndex(current, path, picks, value);
        }
    }
  }

  lemma OneWayOnly(current: Value, path: seq<Part>, picks: seq<string>, value: Value)
    requires MayPick(current, path, picks)
    ensures Clear(current, path) ==> SetVia(current, path, picks, value) == Set(current, path, value)
  {
    if Clear(current, path) {
      ClearIsOneWay(current, path, picks, value);
    }
  }

  method Pad(items: seq<Value>, index: nat, filler: Value) returns (padded: seq<Value>)
    ensures padded == Padded(items, index, filler)
  {
    padded := items;
    while |padded| <= index
      invariant |items| <= |padded| && (|padded| > index + 1 ==> padded == items)
      invariant padded == items + seq(|padded| - |items|, _ => filler)
      decreases index - |padded|
    {
      padded := padded + [filler];
    }
  }

  /** In every order of ranging over the objects, makes the change for the keys that come up. */
  method SetJSONPath(current: Value, path: seq<Part>, value: Value)
    returns (updated: Value, changed: bool, ghost picks: seq<string>)
    ensures MayPick(current, path, picks) && (updated, changed) == SetVia(current, path, picks, value)
    ensures Clear(current, path) ==> (updated, changed) == Set(current, path, value)
    decreases |path|, 1
  {
    if |path| == 0 {
      if current == value {
        return current, false, [];
      }
      return value, true, [];
    }
    match path[0]
    case Key(name) => updated, changed, picks := SetField(current, name, path, value);
    case Index(index) => updated, changed, picks := SetItem(current, index, path, value);
  }

  /** One step along a key that came up, above a change for the keys that came up below it. */
  lemma StepAtKey(current: Value, path: seq<Part>, key: string, picks: seq<string>, value: Value)
    requires path != [] && path[0].Key? && Possible(FieldsOf(current), path[0].name, key)
    requires MayPick(FieldAt(current, key, path[1..]), path[1..], picks)
    ensures MayPick(current, path, [key] + picks)
    ensures
      var (updated, changed) := SetVia(FieldAt(current, key, path[1..]), path[1..], picks, value);
      SetVia(current, path, [key] + picks, value)
      == (Obj(if changed then FieldsOf(current)[key := updated] else FieldsOf(current)), changed)
  {
    assert ([key] + picks)[1..] == picks;
  }

  method SetField(current: Value, name: string, path: seq<Part>, value: Value)
    returns (updated: Value, changed: bool, ghost picks: seq<string>)
    requires path != [] && path[0] == Key(name)
    ensures MayPick(current, path, picks) && (updated, changed) == SetVia(current, path, picks, value)
    ensures Clear(current, path) ==> (updated, changed) == Set(current, path, value)
    decreases |path|, 0
  {
    var fields := map[];
    if current.Obj? {
      fields := current.fields;
    }
    var key := MatchingObjectKey(fields, name);
    var next := Container(path[1..]);
    if key in fields {
      next := fields[key];
    }
    updated, changed, picks := SetJSONPath(next, path[1..], value);
    StepAtKey(current, path, key, picks, value);
    picks := [key] + picks;
    if changed {
      fields := fields[key := updated];
    }
    updated := Obj(fields);
    OneWayOnly(current, path, picks, value);
  }

  method SetItem(current: Value, index: int, path: seq<Part>, value: Value)
    returns (updated: Value, changed: bool, ghost picks: seq<string>)
    requires path != [] && path[0] == Index(index)
    ensures MayPick(current, path, picks) && (updated, changed) == SetVia(current, path, picks, value)
    ensures Clear(current, path) ==> (updated, changed) == Set(current, path, value)
    decreases |path|, 0
  {
    if index < 0 || index > 1000 {
      return current, false, seq(|path|, _ => "");
    }
    var items := [];
    if current.Arr? {
      items := current.items;
    }
    items := Pad(items, index, Container(path[1..]));
    updated, changed, picks := SetJSONPath(items[index], path[1..], value);
    picks := [""] + picks;
    if changed {
      items := items[index := updated];
    }
    updated := Arr(items);
    OneWayOnly(current, path, picks, value);
  }

  // ----- Reading -----

  /** What is at the path. */
  ghost function Get(current: Value, path: seq<Part>): Option<Value> {
    if path == [] then Some(current)
    else
      match path[0]
      case Key(name) =>
        var fields := FieldsOf(current);
        var key := MatchingKey(fields, name);
        if key in fields then Get(fields[key], path[1..]) else None
      case Index(index) =>
        if 0 <= index < |ItemsOf(current)| then Get(ItemsOf(current)[index], path[1..]) else None
  }

  /** What is missing reads as null. */
  ghost function Reading(current: Value, path: seq<Part>): Value {
    match Get(current, path) case None => Null case Some(v) => v
  }

  predicate IndicesInRange(path: seq<Part>) {
    forall i :: 0 <= i < |path| && path[i].Index? ==> 0 <= path[i].index <= MAXIMUM_INDEX
  }

  lemma {:induction false} ContainerReadsNull(path: seq<Part>)
    ensures Reading(Container(path), path) == Null
  {
  }

  lemma FirstIndexFits(path: seq<Part>)
    requires path != []
    ensures IndicesInRange(path) <==>
              (path[0].Index? ==> 0 <= path[0].index <= MAXIMUM_INDEX) && IndicesInRange(path[1..])
  {
    assert path == [path[0]] + path[1..];
  }

  lemma ReadsBelow(current: Value, path: seq<Part>)
    requires path != [] && path[0].Key?
    ensures Reading(current, path) == Reading(Below(current, path[0].name, path[1..]), path[1..])
  {
    ContainerReadsNull(path[1..]);
  }

  lemma ReadsItem(current: Value, path: seq<Part>)
    requires path != [] && path[0].Index? && 0 <= path[0].index
    ensures Reading(current, path)
         == Reading(Padded(ItemsOf(current), path[0].index, Container(path[1..]))[path[0].index], path[1..])
  {
    ContainerReadsNull(path[1..]);
  }

  /** A change is reported exactly when the path's indices are in range and it does not read as the value yet. */
  lemma {:induction false} ChangedExactly(current: Value, path: seq<Part>, value: Value)
    ensures Set(current, path, value).1 <==> IndicesInRange(path) && Reading(current, path) != value
    decreases |path|
  {
    if path != [] {
      FirstIndexFits(path);
      match path[0]
      case Key(name) =>
        ReadsBelow(current, path);
        ChangedExactly(Below(current, name, path[1..]), path[1..], value);
      case Index(index) =>
        if 0 <= index <= MAXIMUM_INDEX {
          ReadsItem(current, path);
          var items := Padded(ItemsOf(current), index, Container(path[1..]));
          ChangedExactly(items[index], path[1..], value);
        }
    }
  }

  lemma MatchAfterUpdate(fields: map<string, Value>, name: string, updated: Value)
    requires OneMatch(fields, name)
    ensures
      var key := MatchingKey(fields, name);
      OneMatch(fields[key := updated], name) && MatchingKey(fields[key := updated], name) == key
  {
    var key := MatchingKey(fields, name);
    assert SameFold(key, name);
    var after := fields[key := updated];
    assert forall k :: k in after && SameFold(k, name) ==> k == key;
    assert key in after;
  }

  /** After a change the path reads as the value. */
  lemma {:induction false} SetThenGet(current: Value, path: seq<Part>, value: Value)
    requires Clear(current, path) && Set(current, path, value).1
    ensures Get(Set(current, path, value).0, path) == Some(value)
    decreases |path|
  {
    if path != [] {
      match path[0]
      case Key(name) =>
        var next := Below(current, name, path[1..]);
        SetThenGet(next, path[1..], value);
        MatchAfterUpdate(FieldsOf(current), name, Set(next, path[1..], value).0);
      case Index(index) =>
        var items := Padded(ItemsOf(current), index, Container(path[1..]));
        ContainerClear(path[1..]);
        SetThenGet(items[index], path[1..], value);
    }
  }

  /** Setting the same value again changes nothing. */
  lemma SetAgain(current: Value, path: seq<Part>, value: Value)
    requires Clear(current, path) && Set(current, path, value).1
    ensures !Set(Set(current, path, value).0, path, value).1
  {
    SetThenGet(current, path, value);
    ChangedExactly(Set(current, path, value).0, path, value);
  }

  // ----- When exactly a change reads back -----

  /** What is at the path when these keys come up. */
  function GetVia(current: Value, path: seq<Part>, picks: seq<string>): Option<Value>
    requires |picks| == |path|
  {
    if path == [] then Some(current)
    else
      match path[0]
      case Key(_) =>
        if picks[0] in FieldsOf(current) then GetVia(FieldsOf(current)[picks[0]], path[1..], picks[1..]) else None
      case Index(index) =>
        if 0 <= index < |ItemsOf(current)| then GetVia(ItemsOf(current)[index], path[1..], picks[1..]) else None
  }

  function ReadingVia(current: Value, path: seq<Part>, picks: seq<string>): Value
    requires |picks| == |path|
  {
    match GetVia(current, path, picks) case None => Null case Some(v) => v
  }

  lemma {:induction false} ContainerReadsNullVia(path: seq<Part>, picks: seq<string>)
    requires |picks| == |path|
    ensures ReadingVia(Container(path), path, picks) == Null
  {
  }

  lemma ReadsFieldVia(current: Value, path: seq<Part>, picks: seq<string>)
    requires path != [] && path[0].Key? && |picks| == |path|
    ensures ReadingVia(current, path, picks)
         == ReadingVia(FieldAt(current, picks[0], path[1..]), path[1..], picks[1..])
  {
    ContainerReadsNullVia(path[1..], picks[1..]);
  }

  lemma ReadsItemVia(current: Value, path: seq<Part>, picks: seq<string>)
    requires path != [] && path[0].Index? && 0 <= path[0].index && |picks| == |path|
    ensures ReadingVia(current, path, picks)
         == ReadingVia(ItemAt(current, path[0].index, path[1..]), path[1..], picks[1..])
  {
    ContainerReadsNullVia(path[1..], picks[1..]);
  }

  /** Whichever keys come up, a change is made exactly when the path does not read as the value under them yet. */
  lemma {:induction false} ChangedVia(current: Value, path: seq<Part>, picks: seq<string>, value: Value)
    requires |picks| == |path|
    ensures SetVia(current, path, picks, value).1
       <==> IndicesInRange(path) && ReadingVia(current, path, picks) != value
    decreases |path|
  {
    if path != [] {
      FirstIndexFits(path);
      match path[0]
      case Key(_) =>
        ReadsFieldVia(current, path, picks);
        ChangedVia(FieldAt(current, picks[0], path[1..]), path[1..], picks[1..], value);
      case Index(index) =>
        if 0 <= index <= MAXIMUM_INDEX {
          ReadsItemVia(current, path, picks);
          ChangedVia(ItemAt(current, index, path[1..]), path[1..], picks[1..], value);
        }
    }
  }

  /** Some keys come up. */
  lemma {:induction false} SomePicks(current: Value, path: seq<Part>) returns (picks: seq<string>)
    ensures MayPick(current, path, picks)
    decreases |path|
  {
    if path == [] {
      picks := [];
    } else {
      match path[0]
      case Key(name) =>
        var key := MatchingKey(FieldsOf(current), name);
        picks := SomePicks(FieldAt(current, key, path[1..]), path[1..]);
        picks := [key] + picks;
      case Index(index) =>
        picks := seq(|path| - 1, _ => "");
        if 0 <= index <= MAXIMUM_INDEX {
          picks := SomePicks(ItemAt(current, index, path[1..]), path[1..]);
        }
        picks := [""] + picks;
    }
  }

  /** A change made under keys that may come up is read back under keys that may come up then. */
  ghost predicate ReadsBackVia(current: Value, path: seq<Part>, value: Value, written: seq<string>, read: seq<string>) {
    MayPick(current, path, written) && SetVia(current, path, written, value).1
      && MayPick(SetVia(current, path, written, value).0, path, read) ==>
    GetVia(SetVia(current, path, written, value).0, path, read) == Some(value)
  }

  lemma {:induction false} ClearReadsBack(current: Value, path: seq<Part>, value: Value, written: seq<string>,
                                          read: seq<string>)
    requires Clear(current, path)
    ensures ReadsBackVia(current, path, value, written, read)
    decreases |path|
  {
    if path != [] && MayPick(current, path, written) && SetVia(current, path, written, value).1
       && MayPick(SetVia(current, path, written, value).0, path, read) {
      match path[0]
      case Key(name) => ClearKeyReadsBack(current, path, value, written, read);
      case Index(index) =>
        ContainerClear(path[1..]);
        ClearReadsBack(ItemAt(current, index, path[1..]), path[1..], value, written[1..], read[1..]);
    }
  }

  lemma {:induction false} ClearKeyReadsBack(current: Value, path: seq<Part>, value: Value, written: seq<string>,
                                             read: seq<string>)
    requires Clear(current, path) && path != [] && path[0].Key?
    requires MayPick(current, path, written) && SetVia(current, path, written, value).1
    requires MayPick(SetVia(current, path, written, value).0, path, read)
    ensures GetVia(SetVia(current, path, written, value).0, path, read) == Some(value)
    decreases |path|, 0
  {
    var name, rest := path[0].name, path[1..];
    OnePick(FieldsOf(current), name, written[0]);
    MatchAfterUpdate(FieldsOf(current), name,
                     SetVia(FieldAt(current, written[0], rest), rest, written[1..], value).0);
    OnePick(FieldsOf(SetVia(current, path, written, value).0), name, read[0]);
    ClearReadsBack(FieldAt(current, written[0], rest), rest, value, written[1..], read[1..]);
  }

  /** A value that differs from both. */
  function Other(a: Value, b: Value): (value: Value)
    ensures value != a && value != b
  {
    if Null !in {a, b} then Null else if Bool(true) !in {a, b} then Bool(true) else Bool(false)
  }

  /** Under two matching keys of one object, a value written under the one is not there under the other. */
  lemma TwoMatchesLose(current: Value, path: seq<Part>, j: string, k: string)
    returns (value: Value, written: seq<string>, read: seq<string>)
    requires path != [] && path[0].Key? && IndicesInRange(path) && j != k
    requires j in FieldsOf(current) && SameFold(j, path[0].name)
    requires k in FieldsOf(current) && SameFold(k, path[0].name)
    ensures !ReadsBackVia(current, path, value, written, read)
  {
    var rest, fields := path[1..], FieldsOf(current);
    FirstIndexFits(path);
    var p := SomePicks(fields[j], rest);
    var q := SomePicks(fields[k], rest);
    value := Other(ReadingVia(fields[j], rest, p), ReadingVia(fields[k], rest, q));
    written, read := [j] + p, [k] + q;
    ChangedVia(fields[j], rest, p, value);
    assert written[1..] == p && read[1..] == q;
    assert FieldAt(current, j, rest) == fields[j];
    var after := fields[j := SetVia(fields[j], rest, p, value).0];
    assert SetVia(current, path, written, value) == (Obj(after), true);
    assert after[k] == fields[k] && FieldAt(Obj(after), k, rest) == fields[k];
  }

  /** Along a path with two matching keys somewhere, some value may not be read back. */
  lemma {:induction false} UnclearLoses(current: Value, path: seq<Part>)
    returns (value: Value, written: seq<string>, read: seq<string>)
    requires !Clear(current, path) && IndicesInRange(path)
    ensures !ReadsBackVia(current, path, value, written, read)
    decreases |path|
  {
    FirstIndexFits(path);
    var rest := path[1..];
    match path[0]
    case Key(name) =>
      var fields := FieldsOf(current);
      if !OneMatch(fields, name) {
        var j, k :| j in fields && k in fields && SameFold(j, name) && SameFold(k, name) && j != k;
        value, written, read := TwoMatchesLose(current, path, j, k);
      } else {
        ContainerClear(rest);
        var key := MatchingKey(fields, name);
        value, written, read := UnclearLoses(fields[key], rest);
        LosesUnderKey(current, path, value, written, read);
        written, read := [key] + written, [key] + read;
      }
    case Index(index) =>
      value, written, read := UnclearLoses(ItemsOf(current)[index], rest);
      LosesUnderIndex(current, path, value, written, read);
      written, read := [""] + written, [""] + read;
  }

  lemma LosesUnderKey(current: Value, path: seq<Part>, value: Value, written: seq<string>, read: seq<string>)
    requires path != [] && path[0].Key?
    requires MatchingKey(FieldsOf(current), path[0].name) in FieldsOf(current)
    requires !ReadsBackVia(FieldsOf(current)[MatchingKey(FieldsOf(current), path[0].name)], path[1..], value, written,
                           read)
    ensures
      var key := MatchingKey(FieldsOf(current), path[0].name);
      !ReadsBackVia(current, path, value, [key] + written, [key] + read)
  {
    var rest, fields, key := path[1..], FieldsOf(current), MatchingKey(FieldsOf(current), path[0].name);
    assert ([key] + written)[1..] == written && ([key] + read)[1..] == read;
    assert FieldAt(current, key, rest) == fields[key];
    var after := fields[key := SetVia(fields[key], rest, written, value).0];
    assert SetVia(current, path, [key] + written, value) == (Obj(after), true);
    assert FieldAt(Obj(after), key, rest) == after[key];
  }

  lemma LosesUnderIndex(current: Value, path: seq<Part>, value: Value, written: seq<string>, read: seq<string>)
    requires path != [] && path[0].Index? && 0 <= path[0].index <= MAXIMUM_INDEX
    requires path[0].index < |ItemsOf(current)|
    requires !ReadsBackVia(ItemsOf(current)[path[0].index], path[1..], value, written, read)
    ensures !ReadsBackVia(current, path, value, [""] + written, [""] + read)
  {
    var rest, items, index := path[1..], ItemsOf(current), path[0].index;
    assert ([""] + written)[1..] == written && ([""] + read)[1..] == read;
    assert ItemAt(current, index, rest) == items[index];
    var after := items[index := SetVia(items[index], rest, written, value).0];
    assert SetVia(current, path, [""] + written, value) == (Arr(after), true);
    assert ItemAt(Arr(after), index, rest) == after[index];
  }

  /**
   Every change along a path is sure to be read back, whatever the orders of ranging, if and only if no object on the
   path has two matching keys; a path with an index out of range makes no change.
   */
  lemma PathReadsBackExactly(current: Value, path: seq<Part>)
    ensures (forall value, written, read :: ReadsBackVia(current, path, value, written, read))
       <==> Clear(current, path) || !IndicesInRange(path)
  {
    if !IndicesInRange(path) {
      forall value, written, read
        ensures ReadsBackVia(current, path, value, written, read)
      {
        if |written| == |path| {
          ChangedVia(current, path, written, value);
        }
      }
    } else if Clear(current, path) {
      forall value, written, read
        ensures ReadsBackVia(current, path, value, written, read)
      {
        ClearReadsBack(current, path, value, written, read);
      }
    } else {
      var value, written, read := UnclearLoses(current, path);
    }
  }

  // ----- What a change leaves alone -----

  /** The paths part at a key or at an index. */
  predicate Parting(p: Part, q: Part) {
    (p.Key? && q.Key? && !SameFold(p.name, q.name)) || (p.Index? && q.Index? && p.index != q.index)
  }

  predicate SamePart(p: Part, q: Part) {
    (p.Key? && q.Key? && SameFold(p.name, q.name)) || (p.Index? && p == q)
  }

  predicate Diverge(p: seq<Part>, q: seq<Part>) {
    p != [] && q != [] && (Parting(p[0], q[0]) || (SamePart(p[0], q[0]) && Diverge(p[1..], q[1..])))
  }

  lemma OtherMatch(fields: map<string, Value>, name: string, other: string, updated: Value)
    requires OneMatch(fields, other) && !SameFold(name, other)
    requires MatchingKey(fields, other) in fields
    ensures
      var after := fields[MatchingKey(fields, name) := updated];
      && MatchingKey(after, other) == MatchingKey(fields, other)
      && after[MatchingKey(fields, other)] == fields[MatchingKey(fields, other)]
  {
    var key, kept := MatchingKey(fields, name), MatchingKey(fields, other);
    assert SameFold(key, name) && SameFold(kept, other);
    var after := fields[key := updated];
    assert forall k :: k in after && SameFold(k, other) ==> k == kept;
    assert kept in after;
  }

  lemma SameMatch(fields: map<string, Value>, name: string, other: string)
    requires OneMatch(fields, name) && SameFold(name, other)
    requires MatchingKey(fields, other) in fields
    ensures MatchingKey(fields, name) == MatchingKey(fields, other)
  {
    var kept := MatchingKey(fields, other);
    assert SameFold(kept, other);
    assert SameFold(kept, name);
  }

  /** What was there along any other path is still there. */
  lemma {:induction false} SetKeepsTheRest(current: Value, path: seq<Part>, value: Value, other: seq<Part>)
    requires Clear(current, path) && Clear(current, other) && Diverge(path, other)
    requires Get(current, other).Some?
    ensures Get(Set(current, path, value).0, other) == Get(current, other)
  {
    match path[0]
    case Key(name) =>
      var fields := FieldsOf(current);
      var next := Below(current, name, path[1..]);
      var (updated, changed) := Set(next, path[1..], value);
      if Parting(path[0], other[0]) {
        OtherMatch(fields, name, other[0].name, updated);
      } else {
        SameMatch(fields, name, other[0].name);
        SetKeepsTheRest(next, path[1..], value, other[1..]);
        MatchAfterUpdate(fields, other[0].name, updated);
      }
    case Index(index) =>
      if 0 <= index <= MAXIMUM_INDEX && path[0] == other[0] {
        SetKeepsTheRest(ItemsOf(current)[index], path[1..], value, other[1..]);
      }
  }
}
