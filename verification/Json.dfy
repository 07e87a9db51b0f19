/**
 Decoded JSON, and the leaf count that decides whether a response carries object data.

 A JSON object is a map, and the program ranges over it in no fixed order.  The counting method below
 draws its keys in an arbitrary order too, so what it ensures holds for every order.
 */
module Json {
  import opened Text

  /** `Number` keeps the literal, and its value when that fits a 64-bit integer.  `Int` is a number the
      program made itself, which is a different dynamic type from a decoded literal. */
  datatype Value =
    | Null
    | Bool(flag: bool)
    | Number(literal: string, integer: Integer)
    | Int(made: int)
    | Str(text: string)
    | Arr(items: seq<Value>)
    | Obj(fields: map<string, Value>)

  datatype Integer = NotInt64 | Int64(value: int)

  /** The number of substantive leaves: non-blank strings, numbers and booleans, at any depth. */
  ghost function Leaves(v: Value): nat
    decreases v, 1, 0
  {
    match v
    case Null | Int(_) => 0
    case Bool(_) | Number(_, _) => 1
    case Str(text) => if Blank(text) then 0 else 1
    case Arr(items) => ItemLeaves(v, |items|)
    case Obj(fields) => FieldLeaves(v, fields.Keys)
  }

  /** The leaves of the first `n` items. */
  ghost function ItemLeaves(v: Value, n: nat): nat
    requires v.Arr? && n <= |v.items|
    decreases v, 0, n
  {
    if n == 0 then 0 else ItemLeaves(v, n - 1) + Leaves(v.items[n - 1])
  }

  /** The leaves of the fields named by `keys`. */
  ghost function FieldLeaves(v: Value, keys: set<string>): nat
    requires v.Obj? && keys <= v.fields.Keys
    decreases v, 0, |keys|
  {
    if keys == {} then 0
    else
      var key :| key in keys;
      Leaves(v.fields[key]) + FieldLeaves(v, keys - {key})
  }

  /** Any key may be counted first. */
  lemma {:induction false} FieldLeavesAnyOrder(v: Value, keys: set<string>, key: string)
    requires v.Obj? && keys <= v.fields.Keys && key in keys
    ensures FieldLeaves(v, keys) == Leaves(v.fields[key]) + FieldLeaves(v, keys - {key})
    decreases |keys|
  {
    var first :| first in keys && FieldLeaves(v, keys) == Leaves(v.fields[first]) + FieldLeaves(v, keys - {first});
    if first != key {
      FieldLeavesAnyOrder(v, keys - {first}, key);
      FieldLeavesAnyOrder(v, keys - {key}, first);
      assert keys - {first} - {key} == keys - {key} - {first};
    }
  }

  lemma {:induction false} ItemLeavesGrow(v: Value, m: nat, n: nat)
    requires v.Arr? && m <= n <= |v.items|
    ensures ItemLeaves(v, m) <= ItemLeaves(v, n)
  {
    if m < n {
      ItemLeavesGrow(v, m, n - 1);
    }
  }

  function Min(a: int, b: int): int {
    if a < b then a else b
  }

  /** Counts leaves up to `limit` and stops early, whatever order the keys come in. */
  method SubstantiveLeafCount(v: Value, limit: int) returns (count: nat)
    ensures count == if limit < 1 then 0 else Min(Leaves(v), limit)
    decreases v
  {
    if limit < 1 {
      return 0;
    }
    match v {
      case Obj(fields) =>
        count := 0;
        var rest := fields.Keys;
        while rest != {}
          invariant rest <= fields.Keys
          invariant count < limit
          invariant count + FieldLeaves(v, rest) == Leaves(v)
          decreases |rest|
        {
          var key :| key in rest;
          FieldLeavesAnyOrder(v, rest, key);
          var nested := SubstantiveLeafCount(fields[key], limit - count);
          count := count + nested;
          rest := rest - {key};
          if count >= limit {
            return;
          }
        }
      case Arr(items) =>
        count := 0;
        for i := 0 to |items|
          invariant count < limit
          invariant count == ItemLeaves(v, i)
        {
          ItemLeavesGrow(v, i + 1, |items|);
          var nested := SubstantiveLeafCount(items[i], limit - count);
          count := count + nested;
          if count >= limit {
            return;
          }
        }
      case Str(text) =>
        count := if Blank(text) then 0 else 1;
      case Bool(_) | Number(_, _) =>
        count := 1;
      case Null | Int(_) =>
        count := 0;
    }
  }

  /** A code in the range of HTTP failures. */
  predicate NumericFailureStatus(v: Value) {
    v.Number? && v.integer.Int64? && 400 <= v.integer.value <= 599
  }

  /** A field that says outright that the request failed. */
  ghost predicate FailureField(name: string, v: Value) {
    var key := ToLower(TrimSpace(name));
    if key in {"ok", "success", "valid"} then v == Bool(false)
    else if key in {"error", "errors", "exception"} then Leaves(v) > 0
    else if key == "status" then
      (v.Str? && ToLower(v.text) in {"error", "failed", "failure"}) || NumericFailureStatus(v)
    else key in {"code", "statuscode", "status_code"} && NumericFailureStatus(v)
  }

  ghost predicate FailureEnvelope(v: Value) {
    v.Obj? && exists key :: key in v.fields && FailureField(key, v.fields[key])
  }

  /** Looks for a failure field, in an arbitrary order, and stops at the first. */
  method ExplicitFailureEnvelope(v: Value) returns (failed: bool)
    ensures failed == FailureEnvelope(v)
  {
    if !v.Obj? {
      return false;
    }
    var rest := v.fields.Keys;
    while rest != {}
      invariant rest <= v.fields.Keys
      invariant forall key :: key in v.fields.Keys - rest ==> !FailureField(key, v.fields[key])
      decreases |rest|
    {
      var name :| name in rest;
      var value := v.fields[name];
      var key := ToLower(TrimSpace(name));
      if key in {"ok", "success", "valid"} {
        if value == Bool(false) {
          return true;
        }
      } else if key in {"error", "errors", "exception"} {
        var count := SubstantiveLeafCount(value, 1);
        if count > 0 {
          return true;
        }
      } else if key == "status" {
        if value.Str? && ToLower(value.text) in {"error", "failed", "failure"} {
          return true;
        }
        if NumericFailureStatus(value) {
          return true;
        }
      } else if key in {"code", "statuscode", "status_code"} && NumericFailureStatus(value) {
        return true;
      }
      rest := rest - {name};
    }
    return false;
  }

  /** The test a baseline body must pass: no failure envelope and at least two substantive leaves. */
  ghost predicate ObjectData(v: Value) {
    !FailureEnvelope(v) && Leaves(v) >= 2
  }

  method LooksLikeObjectData(v: Value) returns (r: bool)
    ensures r == ObjectData(v)
  {
    var failed := ExplicitFailureEnvelope(v);
    if failed {
      return false;
    }
    var count := SubstantiveLeafCount(v, 2);
    return count >= 2;
  }
}
