/**
 Collecting mutations in place. The collector keeps no more than its limit while the generators run, and is proved to
 hold exactly the first of what an unlimited one would hold.
 */
module Mutations {
  import opened Wrappers
  import opened Numerals
  import opened MutationPlan

  class MutationCollector {
    var values: seq<Mutation>
    const limit: int
    ghost var offered: seq<Mutation>

    ghost predicate Valid()
      reads this
    {
      0 <= limit && values == First(limit, Distinct(offered))
    }

    constructor (limit: int)
      requires 0 <= limit
      ensures Valid() && offered == [] && this.limit == limit
    {
      this.limit := limit;
      values, offered := [], [];
    }

    method Repeats(mutation: Mutation) returns (found: bool)
      ensures found == Holds(values, mutation)
    {
      for i := 0 to |values|
        invariant forall k :: 0 <= k < i ==> !SameRequest(values[k], mutation)
      {
        if values[i].url == mutation.url && values[i].body == mutation.body {
          assert SameRequest(values[i], mutation);
          return true;
        }
      }
      return false;
    }

    method Add(mutation: Mutation)
      requires Valid()
      modifies this
      ensures Valid() && offered == old(offered) + [mutation]
    {
      FirstOfOneMore(limit, offered, mutation);
      offered := offered + [mutation];
      if |values| >= limit || |mutation.body| > MAXIMUM_PAYLOAD_BYTES {
        return;
      }
      var found := Repeats(mutation);
      if !found {
        values := values + [mutation];
      }
    }

    method AddAll(mutations: seq<Mutation>)
      requires Valid()
      modifies this
      ensures Valid() && offered == old(offered) + mutations
    {
      for i := 0 to |mutations|
        invariant Valid() && offered == old(offered) + mutations[..i]
      {
        Add(mutations[i]);
        assert mutations[..i + 1] == mutations[..i] + [mutations[i]];
      }
      assert mutations[..|mutations|] == mutations;
    }

    /** The last thing added; with the limit reached it is not, and then it is not among the first either. */
    method EnsureVerboseProbe(probe: Mutation)
      requires Valid()
      modifies this
      ensures values == First(limit, Unlimited(offered, probe)) && offered == old(offered)
    {
      for i := 0 to |values|
        invariant forall k :: 0 <= k < i ==> values[k].category != VerboseError
        invariant Valid() && offered == old(offered) && values == old(values)
      {
        if values[i].category == VerboseError {
          assert Distinct(offered)[i] == values[i];
          return;
        }
      }
      if |values| >= limit {
        return;
      }
      ghost var generated := offered;
      Add(probe);
      assert offered[..|offered| - 1] == generated;
      offered := generated;
    }
  }

  /** One step of a limited collector is one step of an unlimited one, cut off at the limit. */
  lemma FirstOfOneMore(limit: int, offered: seq<Mutation>, m: Mutation)
    requires 0 <= limit
    ensures
      var values := First(limit, Distinct(offered));
      First(limit, Distinct(offered + [m]))
      == if |values| >= limit || !Fits(m) || Holds(values, m) then values else values + [m]
  {
    assert (offered + [m])[..|offered|] == offered;
  }

  /**
   The requests of a range, in the order in which they are handed to the collector; the generators do not look at the
   collector, so they are gathered here first.
   */
  method NumericRangeMutations(library: Library, request: Request, url: Url, options: Options)
    returns (made: seq<Mutation>)
    requires options.idRange.Some? && options.idRange.value.start <= options.idRange.value.end
    ensures made == RangePart(library, request, url, options)
  {
    PositionsFit(library, request, url);
    made := NumericRangesAt(library, request, url, Positions(library, request, url), options.idRange.value);
  }

  method NumericRangesAt(library: Library, request: Request, url: Url, positions: seq<Position>, idRange: NumericRange)
    returns (made: seq<Mutation>)
    requires idRange.start <= idRange.end && AllFit(url, positions)
    ensures made == RangeRequests(library, request, url, positions, idRange)
  {
    made := [];
    for i := 0 to |positions|
      invariant made == RangeRequests(library, request, url, positions[..i], idRange)
    {
      var here := NumericRangeAt(library, request, url, positions[i], idRange);
      assert positions[..i + 1][..i] == positions[..i];
      made := made + here;
    }
    assert positions[..|positions|] == positions;
  }

  /** Every number of the range at one position, from the start up. */
  method NumericRangeAt(library: Library, request: Request, url: Url, position: Position, idRange: NumericRange)
    returns (made: seq<Mutation>)
    requires idRange.start <= idRange.end && Fitting(url, position)
    ensures made == RangeAt(library, request, url, position, idRange.start, idRange.end)
  {
    made := [];
    var candidate := idRange.start;
    while candidate <= idRange.end
      invariant idRange.start <= candidate <= idRange.end + 1
      invariant made == RangeAt(library, request, url, position, idRange.start, candidate - 1)
    {
      made := made + RequestAt(library, request, url, position, candidate);
      candidate := candidate + 1;
    }
  }

  lemma OneMoreIdentifier(library: Library, done: set<string>, key: string)
    requires key !in done
    ensures |IdentifiersIn(library, done + {key})|
         == |IdentifiersIn(library, done)| + (if library.isIdentifier(key) then 1 else 0)
  {
    var before, after := IdentifiersIn(library, done), IdentifiersIn(library, done + {key});
    if library.isIdentifier(key) {
      assert after == before + {key};
    } else {
      assert after == before;
    }
  }

  /** Counts the identifiers among the keys, in any order. */
  method CountIdentifiers(library: Library, keys: set<string>) returns (n: int)
    ensures n == |IdentifiersIn(library, keys)|
  {
    n := 0;
    var left := keys;
    ghost var done: set<string> := {};
    while left != {}
      invariant left !! done && left + done == keys
      invariant n == |IdentifiersIn(library, done)|
    {
      var key :| key in left;
      OneMoreIdentifier(library, done, key);
      if library.isIdentifier(key) {
        n := n + 1;
      }
      left := left - {key};
      done := done + {key};
    }
    assert done == keys;
  }

  /** Counts those of the body, if it is an object that is looked at. */
  method CountInBody(library: Library, request: Request) returns (n: int)
    ensures n == |Identifiers(library, BodyFields(library, request))|
  {
    var keys: set<string> := {};
    if request.body != "" && |request.body| <= MAXIMUM_PAYLOAD_BYTES {
      var decoded := library.decodeObject(request.body);
      if decoded.Some? {
        keys := decoded.value.Keys;
      }
    }
    assert keys == BodyFields(library, request).Keys;
    n := CountIdentifiers(library, keys);
  }

  method NumericRangeMutationCount(library: Library, request: Request, url: Url, idRange: NumericRange)
    returns (count: int)
    ensures count == RangeCount(library, request, url, idRange)
  {
    var width := idRange.end - idRange.start + 1;
    var dimensions := |PathIndexes(Segments(url), |Segments(url)|)|;
    var inQuery := CountIdentifiers(library, library.queryOf(url.rawQuery).Keys);
    var inBody := CountInBody(library, request);
    dimensions := dimensions + inQuery + inBody;
    assert dimensions == Dimensions(library, request, url);
    return width * dimensions;
  }

  /** Special characters get one case more than the limit, so that a plan over the limit shows. */
  method MutationsFor(library: Library, request: Request, options: Options, generated: Generated)
    returns (r: Result<seq<Mutation>, MutationError>)
    requires options.idRange.Some?
        ==> MIN_INT <= options.idRange.value.start <= MAX_INT && MIN_INT <= options.idRange.value.end <= MAX_INT
    ensures r == Outcome(library, request, options, generated)
  {
    var maxCases := if options.maxCases == 0 then 8 else options.maxCases;
    if maxCases < 1 || maxCases > MAXIMUM_MUTATION_CASES {
      return Err(BadLimit);
    }
    var parsed := library.parse(request.url);
    if parsed.None? {
      return Err(BadURL);
    }
    var url := parsed.value;
    var collectorLimit := maxCases;
    if options.specialCharacters {
      collectorLimit := collectorLimit + 1;
    }
    var collector := new MutationCollector(collectorLimit);
    if options.idRange.Some? {
      var idRange := options.idRange.value;
      if Validated(idRange).None? {
        return Err(BadRange);
      }
      ValidatedExactly(idRange);
      var required := NumericRangeMutationCount(library, request, url, idRange);
      if required > maxCases {
        return Err(RangeNeeds(required));
      }
      var made := NumericRangeMutations(library, request, url, options);
      collector.AddAll(made);
    }
    assert collector.offered == RangePart(library, request, url, options);
    collector.AddAll(generated.ordinary);
    if options.specialCharacters {
      collector.AddAll(generated.special);
    }
    var probe := VerboseProbe(library, request, url);
    assert Unlimited(collector.offered, probe) == Everything(library, request, url, options, generated) by {
      var part := RangePart(library, request, url, options);
      assert part + generated.ordinary + [] == part + generated.ordinary;
    }
    collector.EnsureVerboseProbe(probe);
    if options.specialCharacters && |collector.values| > maxCases {
      return Err(SpecialsExceed(maxCases));
    }
    return Ok(collector.values);
  }
}
