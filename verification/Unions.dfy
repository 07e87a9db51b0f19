/**
 Unions of finite sets, and when a union is no larger than the largest of its sets.
 */
module Unions {

  function Union<T>(sets: seq<set<T>>): set<T> {
    if sets == [] then {} else Union(sets[..|sets| - 1]) + sets[|sets| - 1]
  }

  function LargestSize<T>(sets: seq<set<T>>): nat {
    if sets == [] then 0
    else
      var before, last := LargestSize(sets[..|sets| - 1]), |sets[|sets| - 1]|;
      if before < last then last else before
  }

  /** This set has everything that any of them has. */
  predicate HasAll<T(==)>(sets: seq<set<T>>, i: int) {
    0 <= i < |sets| && forall j :: 0 <= j < |sets| ==> sets[j] <= sets[i]
  }

  predicate OneHasAll<T(==)>(sets: seq<set<T>>) {
    sets == [] || exists i :: 0 <= i < |sets| && HasAll(sets, i)
  }

  lemma {:induction false} InUnion<T>(sets: seq<set<T>>, x: T)
    ensures x in Union(sets) <==> exists i :: 0 <= i < |sets| && x in sets[i]
  {
    if sets == [] {
    } else {
      var front := sets[..|sets| - 1];
      InUnion(front, x);
      if i :| 0 <= i < |front| && x in front[i] {
        assert x in sets[i];
      }
      if i :| 0 <= i < |front| && x in sets[i] {
        assert x in front[i];
      }
    }
  }

  lemma PartOfUnion<T>(sets: seq<set<T>>, i: nat)
    requires i < |sets|
    ensures sets[i] <= Union(sets)
  {
    forall x | x in sets[i]
      ensures x in Union(sets)
    {
      InUnion(sets, x);
    }
  }

  lemma SizeOfPart<T>(part: set<T>, whole: set<T>)
    requires part <= whole
    ensures |part| <= |whole| && (|part| == |whole| ==> part == whole)
  {
    assert |whole - part| == |whole| - |part|;
    assert whole == part + (whole - part);
  }

  lemma {:induction false} LargestIsReached<T>(sets: seq<set<T>>) returns (i: nat)
    requires sets != []
    ensures i < |sets| && |sets[i]| == LargestSize(sets)
  {
    var front := sets[..|sets| - 1];
    i := |sets| - 1;
    if LargestSize(front) >= |sets[i]| && front != [] {
      i := LargestIsReached(front);
    }
  }

  lemma {:induction false} NoneIsLarger<T>(sets: seq<set<T>>, i: nat)
    requires i < |sets|
    ensures |sets[i]| <= LargestSize(sets)
  {
    if i < |sets| - 1 {
      NoneIsLarger(sets[..|sets| - 1], i);
    }
  }

  /** A union has at least as many members as the largest set, and as many exactly when that set has all of them. */
  lemma LargestExactly<T>(sets: seq<set<T>>)
    ensures LargestSize(sets) <= |Union(sets)|
    ensures |Union(sets)| == LargestSize(sets) <==> OneHasAll(sets)
  {
    if sets != [] {
      var most := LargestIsReached(sets);
      PartOfUnion(sets, most);
      SizeOfPart(sets[most], Union(sets));
      if |Union(sets)| == LargestSize(sets) {
        forall j | 0 <= j < |sets|
          ensures sets[j] <= sets[most]
        {
          PartOfUnion(sets, j);
        }
        assert HasAll(sets, most);
      }
      if OneHasAll(sets) {
        var i :| 0 <= i < |sets| && HasAll(sets, i);
        AllInOne(sets, i);
        NoneIsLarger(sets, i);
      }
    }
  }

  lemma AllInOne<T>(sets: seq<set<T>>, i: nat)
    requires HasAll(sets, i)
    ensures Union(sets) == sets[i]
  {
    PartOfUnion(sets, i);
    forall x | x in Union(sets)
      ensures x in sets[i]
    {
      InUnion(sets, x);
    }
  }

  lemma UnionOfOne(s: set<int>)
    ensures Union([s]) == s
  {
    assert [s][..0] == [];
    assert Union([s]) == {} + s;
  }

  lemma PairOfSets(m: int, n: int)
    requires m != n
    ensures LargestSize([{m}, {n}]) == 1 && Union([{m}, {n}]) == {m, n} && |{m, n}| == 2
  {
    var sets := [{m}, {n}];
    assert sets[..1] == [{m}] && sets[..1][..0] == [];
    assert |{m}| == 1 && |{n}| == 1;
    assert LargestSize(sets[..1]) == 1 && Union(sets[..1]) == {m};
  }

  /** The numbers 1, 2, ... n. */
  function UpTo(n: int): (numbers: set<int>)
    ensures forall k :: k in numbers <==> 1 <= k <= n
  {
    if n <= 0 then {} else UpTo(n - 1) + {n}
  }

  lemma {:induction false} SizeUpTo(n: nat)
    ensures |UpTo(n)| == n
  {
    if n > 0 {
      SizeUpTo(n - 1);
    }
  }
}
