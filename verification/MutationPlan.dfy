/**
 Planning the mutations of one operation: which requests there are, before any limit is applied, and which of them a
 limit leaves.
 */
module MutationPlan {
  import opened Text
  import opened Wrappers
  import opened Numerals
  import opened Json
  import opened Words

  const MAXIMUM_PAYLOAD_BYTES := 4096
  const MAXIMUM_RANGE_VALUES := 1000
  const MAXIMUM_MUTATION_CASES := 4096
  const DEFAULT_MUTATION_CASES := 8

  datatype Category = VerboseError | IDORRange | Another(name: string)

  datatype Mutation = Mutation(name: string, category: Category, url: string, body: string)

  datatype NumericRange = NumericRange(start: int, end: int)

  datatype Options = Options(maxCases: int, idRange: Option<NumericRange>, specialCharacters: bool)

  datatype MutationError = BadLimit | BadURL | BadRange | RangeNeeds(cases: int) | SpecialsExceed(cases: int)

  // ----- First wins -----

  /** Two mutations that send the same request. */
  predicate SameRequest(m: Mutation, n: Mutation) {
    m.url == n.url && m.body == n.body
  }

  predicate Holds(values: seq<Mutation>, m: Mutation) {
    exists i :: 0 <= i < |values| && SameRequest(values[i], m)
  }

  predicate Fits(m: Mutation) {
    |m.body| <= MAXIMUM_PAYLOAD_BYTES
  }

  /** The generated mutations without the oversized ones and without repeated requests. */
  function Distinct(generated: seq<Mutation>): seq<Mutation> {
    if generated == [] then []
    else
      var before, m := Distinct(generated[..|generated| - 1]), generated[|generated| - 1];
      if !Fits(m) || Holds(before, m) then before else before + [m]
  }

  /** The first `limit` of them. */
  function First(limit: int, values: seq<Mutation>): seq<Mutation> {
    if limit < 0 then [] else if limit < |values| then values[..limit] else values
  }

  predicate HasVerboseProbe(values: seq<Mutation>) {
    exists i :: 0 <= i < |values| && values[i].category == VerboseError
  }

  /** A probe for verbose errors is made sure of. */
  function WithProbe(values: seq<Mutation>, probe: Mutation): seq<Mutation> {
    if HasVerboseProbe(values) || !Fits(probe) || Holds(values, probe) then values else values + [probe]
  }

  /** Everything there is to send, in order, each request once. */
  function Unlimited(generated: seq<Mutation>, probe: Mutation): seq<Mutation> {
    WithProbe(Distinct(generated), probe)
  }

  lemma HoldsInLonger(values: seq<Mutation>, more: seq<Mutation>, m: Mutation)
    requires Holds(values, m)
    ensures Holds(values + more, m)
  {
    var i :| 0 <= i < |values| && SameRequest(values[i], m);
    assert (values + more)[i] == values[i];
  }

  /** No request is there twice, every generated one that fits is there, and nothing else is. */
  lemma {:induction false} DistinctFacts(generated: seq<Mutation>)
    ensures
      var kept := Distinct(generated);
      && (forall i, j :: 0 <= i < j < |kept| ==> !SameRequest(kept[i], kept[j]))
      && (forall i :: 0 <= i < |generated| && Fits(generated[i]) ==> Holds(kept, generated[i]))
      && (forall i :: 0 <= i < |kept| ==> Fits(kept[i]) && kept[i] in generated)
      && |kept| <= |generated|
  {
    if generated != [] {
      var front, m := generated[..|generated| - 1], generated[|generated| - 1];
      var before, kept := Distinct(front), Distinct(generated);
      DistinctFacts(front);
      forall i | 0 <= i < |generated| && Fits(generated[i])
        ensures Holds(kept, generated[i])
      {
        if i < |front| {
          assert front[i] == generated[i];
          if kept != before {
            HoldsInLonger(before, [m], generated[i]);
          }
        } else if kept != before {
          assert SameRequest(kept[|before|], m);
        }
      }
      assert m in generated && forall n :: n in front ==> n in generated;
    }
  }

  /** The first mutation generated for a request is the one that is kept, in the order of generation. */
  lemma {:induction false} DistinctIsPrefix(generated: seq<Mutation>, more: seq<Mutation>)
    ensures Distinct(generated) <= Distinct(generated + more)
  {
    if more == [] {
      assert generated + more == generated;
    } else {
      assert (generated + more)[..|generated + more| - 1] == generated + more[..|more| - 1];
      DistinctIsPrefix(generated, more[..|more| - 1]);
    }
  }

  // ----- Numeric ranges -----

  /** START-END with non-negative numbers, in order, at most 1000 of them. */
  function ParseNumericRange(value: string): Option<NumericRange> {
    var text := TrimSpace(value);
    if Count(text, '-') != 1 then None
    else
      var cut := IndexOf(text, '-');
      var start, end := Atoi(TrimSpace(text[..cut])), Atoi(TrimSpace(text[cut + 1..]));
      if start.None? || end.None? || start.value < 0 || end.value < 0 then None
      else if end.value < start.value then None
      else if end.value - start.value >= MAXIMUM_RANGE_VALUES then None
      else Some(NumericRange(start.value, end.value))
  }

  function Count(s: string, c: char): int {
    if s == "" then 0 else (if s[0] == c then 1 else 0) + Count(s[1..], c)
  }

  function IndexOf(s: string, c: char): (i: nat)
    requires Count(s, c) > 0
    ensures i < |s| && s[i] == c
  {
    if s[0] == c then 0 else 1 + IndexOf(s[1..], c)
  }

  function Validated(idRange: NumericRange): Option<NumericRange> {
    ParseNumericRange(Itoa(idRange.start) + "-" + Itoa(idRange.end))
  }

  lemma {:induction false} CountOfDigits(s: string)
    requires AllDigits(s)
    ensures Count(s, '-') == 0
  {
    if s != "" {
      CountOfDigits(s[1..]);
    }
  }

  lemma {:induction false} CountOfBoth(s: string, t: string)
    ensures Count(s + t, '-') == Count(s, '-') + Count(t, '-')
  {
    if s == "" {
      assert s + t == t;
    } else {
      assert (s + t)[1..] == s[1..] + t;
      CountOfBoth(s[1..], t);
    }
  }

  lemma {:induction false} IndexAfterDigits(s: string, t: string)
    requires AllDigits(s) && Count(s + "-" + t, '-') > 0
    ensures IndexOf(s + "-" + t, '-') == |s|
  {
    if s != "" {
      assert (s + "-" + t)[1..] == s[1..] + "-" + t;
      IndexAfterDigits(s[1..], t);
    }
  }

  lemma CountOfNumeral(n: int)
    ensures Count(Itoa(n), '-') == if n < 0 then 1 else 0
  {
    ItoaShape(n);
    if n < 0 {
      assert Itoa(n) == "-" + Itoa(n)[1..];
      CountOfDigits(Itoa(n)[1..]);
      assert "-"[1..] == "";
      CountOfBoth("-", Itoa(n)[1..]);
    } else {
      CountOfDigits(Itoa(n));
    }
  }

  /** Writing a range out and parsing it accepts exactly the ranges that are in order and within the bounds. */
  lemma ValidatedExactly(idRange: NumericRange)
    requires MIN_INT <= idRange.start <= MAX_INT && MIN_INT <= idRange.end <= MAX_INT
    ensures
      var accepted := 0 <= idRange.start <= idRange.end && idRange.end - idRange.start < MAXIMUM_RANGE_VALUES;
      Validated(idRange) == if accepted then Some(idRange) else None
  {
    var left, right := Itoa(idRange.start), Itoa(idRange.end);
    var text := left + "-" + right;
    ItoaShape(idRange.start);
    ItoaShape(idRange.end);
    CountOfNumeral(idRange.start);
    CountOfNumeral(idRange.end);
    assert Count("-", '-') == 1 by {
      assert "-"[1..] == "";
    }
    CountOfBoth(left + "-", right);
    CountOfBoth(left, "-");
    TrimOfSolid(text);
    if idRange.start >= 0 && idRange.end >= 0 {
      IndexAfterDigits(left, right);
      assert text[..|left|] == left && text[|left| + 1..] == right;
      AtoiOfItoa(idRange.start);
      AtoiOfItoa(idRange.end);
    }
  }

  // ----- The requests of a range -----

  /** A parsed URL; what is around the path and the query does not matter here. */
  datatype Url = Url(site: string, path: string, rawPath: string, rawQuery: string)

  /** The libraries the planner calls: URL and JSON encoding, sorting of keys, and the naming heuristic. */
  datatype Library = Library(
    parse: string -> Option<Url>,
    render: Url -> string,
    queryOf: string -> map<string, seq<string>>,
    encodeQuery: map<string, seq<string>> -> string,
    decodeObject: string -> Option<map<string, Value>>,
    encodeObject: map<string, Value> -> Option<string>,
    sorted: set<string> -> seq<string>,
    isIdentifier: string -> bool)

  /** The operation whose request is mutated. */
  datatype Request = Request(url: string, body: string)

  function TrimSlashes(s: string): string
    decreases |s|
  {
    if s != "" && s[0] == '/' then TrimSlashes(s[1..])
    else if s != "" && s[|s| - 1] == '/' then TrimSlashes(s[..|s| - 1])
    else s
  }

  function Segments(url: Url): seq<string> {
    Split(TrimSlashes(url.path), '/')
  }

  predicate LooksLikeUUID(s: string) {
    |s| == 36 && Count(s, '-') == 4
  }

  predicate IdentifierSegment(s: string) {
    Atoi(s).Some? || ToLower(s) == "testvalue" || LooksLikeUUID(s)
  }

  /** The first `n` places of the path, those that hold an identifier. */
  function PathIndexes(segments: seq<string>, n: nat): (indexes: seq<nat>)
    requires n <= |segments|
    ensures forall i :: 0 <= i < |indexes| ==> indexes[i] < n
    ensures forall k :: 0 <= k < n && IdentifierSegment(segments[k]) ==> k in indexes
  {
    if n == 0 then []
    else PathIndexes(segments, n - 1) + (if IdentifierSegment(segments[n - 1]) then [n - 1] else [])
  }

  ghost predicate Sorts(library: Library, keys: set<string>) {
    var order := library.sorted(keys);
    |order| == |keys| && forall k :: k in order <==> k in keys
  }

  /** The keys that name identifiers. */
  function IdentifiersIn(library: Library, keys: set<string>): set<string> {
    set k | k in keys && library.isIdentifier(k)
  }

  function Identifiers<V>(library: Library, fields: map<string, V>): set<string> {
    IdentifiersIn(library, fields.Keys)
  }

  function PathRequest(library: Library, request: Request, url: Url, index: nat, candidate: int): Mutation
    requires index < |Segments(url)|
  {
    var changed := Segments(url)[index := Itoa(candidate)];
    Mutation("idor_range:path:" + Itoa(index) + ":" + Itoa(candidate), IDORRange,
             library.render(url.(path := "/" + Join(changed, "/"), rawPath := "")), request.body)
  }

  function QueryRequest(library: Library, request: Request, url: Url, key: string, candidate: int): Mutation {
    var changed := library.queryOf(url.rawQuery)[key := [Itoa(candidate)]];
    Mutation("idor_range:query:" + key + ":" + Itoa(candidate), IDORRange,
             library.render(url.(rawQuery := library.encodeQuery(changed))), request.body)
  }

  /** Nothing is sent when the changed body cannot be encoded. */
  function BodyRequest(library: Library, request: Request, fields: map<string, Value>, key: string, candidate: int)
    : seq<Mutation>
  {
    match library.encodeObject(fields[key := Int(candidate)])
    case None => []
    case Some(text) => [Mutation("idor_range:body:" + key + ":" + Itoa(candidate), IDORRange, request.url, text)]
  }

  /** One position in the request that holds an identifier. */
  datatype Position = InPath(index: nat) | InQuery(key: string) | InBody(fields: map<string, Value>, key: string)

  predicate Fitting(url: Url, position: Position) {
    position.InPath? ==> position.index < |Segments(url)|
  }

  predicate AllFit(url: Url, positions: seq<Position>) {
    forall i :: 0 <= i < |positions| ==> Fitting(url, positions[i])
  }

  function RequestAt(library: Library, request: Request, url: Url, position: Position, candidate: int): seq<Mutation>
    requires Fitting(url, position)
  {
    match position
    case InPath(index) => [PathRequest(library, request, url, index, candidate)]
    case InQuery(key) => [QueryRequest(library, request, url, key, candidate)]
    case InBody(fields, key) => BodyRequest(library, request, fields, key, candidate)
  }

  /** The body's fields, when it is a JSON object of a size that is looked at. */
  function BodyFields(library: Library, request: Request): map<string, Value> {
    if request.body == "" || |request.body| > MAXIMUM_PAYLOAD_BYTES then map[]
    else match library.decodeObject(request.body) case None => map[] case Some(fields) => fields
  }

  function PathPositions(indexes: seq<nat>): seq<Position> {
    seq(|indexes|, i requires 0 <= i < |indexes| => InPath(indexes[i]))
  }

  function QueryPositions(keys: seq<string>): seq<Position> {
    seq(|keys|, i requires 0 <= i < |keys| => InQuery(keys[i]))
  }

  function BodyPositions(fields: map<string, Value>, keys: seq<string>): seq<Position> {
    seq(|keys|, i requires 0 <= i < |keys| => InBody(fields, keys[i]))
  }

  /** Path first, then the query, then the body; keys in their sorted order. */
  function Positions(library: Library, request: Request, url: Url): seq<Position> {
    var fields := BodyFields(library, request);
    PathPositions(PathIndexes(Segments(url), |Segments(url)|))
    + QueryPositions(library.sorted(Identifiers(library, library.queryOf(url.rawQuery))))
    + BodyPositions(fields, library.sorted(Identifiers(library, fields)))
  }

  /** The requests for the numbers from `start` to `end`, at one position. */
  function RangeAt(library: Library, request: Request, url: Url, position: Position, start: int, end: int)
    : seq<Mutation>
    requires Fitting(url, position)
    decreases end + 1 - start
  {
    if start > end then []
    else RangeAt(library, request, url, position, start, end - 1) + RequestAt(library, request, url, position, end)
  }

  function RangeRequests(library: Library, request: Request, url: Url, positions: seq<Position>, idRange: NumericRange)
    : seq<Mutation>
    requires AllFit(url, positions)
  {
    if positions == [] then []
    else
      RangeRequests(library, request, url, positions[..|positions| - 1], idRange)
      + RangeAt(library, request, url, positions[|positions| - 1], idRange.start, idRange.end)
  }

  lemma PositionsFit(library: Library, request: Request, url: Url)
    ensures AllFit(url, Positions(library, request, url))
  {
  }

  /** How many positions there are, counted without listing them. */
  function Dimensions(library: Library, request: Request, url: Url): nat {
    |PathIndexes(Segments(url), |Segments(url)|)| + |Identifiers(library, library.queryOf(url.rawQuery))|
    + |Identifiers(library, BodyFields(library, request))|
  }

  /** How many requests a range makes at so many positions. */
  function Width(idRange: NumericRange, positions: int): int {
    (idRange.end - idRange.start + 1) * positions
  }

  /** What the count promises: the width of the range times the number of positions. */
  function RangeCount(library: Library, request: Request, url: Url, idRange: NumericRange): int {
    Width(idRange, Dimensions(library, request, url))
  }

  predicate Encodable(library: Library, position: Position, candidate: int) {
    position.InBody? ==> library.encodeObject(position.fields[position.key := Int(candidate)]).Some?
  }

  ghost predicate AllEncodable(library: Library, position: Position, idRange: NumericRange) {
    forall c :: idRange.start <= c <= idRange.end ==> Encodable(library, position, c)
  }

  lemma {:induction false} RangeAtSize(library: Library, request: Request, url: Url, position: Position,
                                       idRange: NumericRange, end: int)
    requires Fitting(url, position) && idRange.start <= end + 1 <= idRange.end + 1
    ensures |RangeAt(library, request, url, position, idRange.start, end)| <= end + 1 - idRange.start
    ensures AllEncodable(library, position, idRange)
        ==> |RangeAt(library, request, url, position, idRange.start, end)| == end + 1 - idRange.start
    decreases end + 1 - idRange.start
  {
    if idRange.start <= end {
      RangeAtSize(library, request, url, position, idRange, end - 1);
      assert AllEncodable(library, position, idRange) ==> Encodable(library, position, end);
    }
  }

  lemma Times(width: int, n: int)
    ensures width * n == width * (n - 1) + width
  {
  }

  lemma {:induction false} RangeRequestsSize(library: Library, request: Request, url: Url, positions: seq<Position>,
                                             idRange: NumericRange)
    requires AllFit(url, positions)
    requires idRange.start <= idRange.end
    ensures |RangeRequests(library, request, url, positions, idRange)|
         <= Width(idRange, |positions|)
  {
    if positions != [] {
      RangeRequestsSize(library, request, url, positions[..|positions| - 1], idRange);
      RangeAtSize(library, request, url, positions[|positions| - 1], idRange, idRange.end);
      Times(idRange.end - idRange.start + 1, |positions|);
    }
  }

  /** With bodies that encode, the requests are exactly the width times the positions. */
  lemma {:induction false} RangeRequestsExactSize(library: Library, request: Request, url: Url,
                                                  positions: seq<Position>, idRange: NumericRange)
    requires AllFit(url, positions)
    requires idRange.start <= idRange.end
    requires forall i :: 0 <= i < |positions| ==> AllEncodable(library, positions[i], idRange)
    ensures |RangeRequests(library, request, url, positions, idRange)|
         == Width(idRange, |positions|)
  {
    if positions != [] {
      RangeRequestsExactSize(library, request, url, positions[..|positions| - 1], idRange);
      RangeAtSize(library, request, url, positions[|positions| - 1], idRange, idRange.end);
      Times(idRange.end - idRange.start + 1, |positions|);
    }
  }

  lemma PositionsCounted(library: Library, request: Request, url: Url)
    requires Sorts(library, Identifiers(library, library.queryOf(url.rawQuery)))
    requires Sorts(library, Identifiers(library, BodyFields(library, request)))
    ensures |Positions(library, request, url)| == Dimensions(library, request, url)
  {
  }

  lemma RangePartIs(library: Library, request: Request, url: Url, options: Options)
    requires options.idRange.Some?
    ensures AllFit(url, Positions(library, request, url))
    ensures RangePart(library, request, url, options)
         == RangeRequests(library, request, url, Positions(library, request, url), options.idRange.value)
  {
    PositionsFit(library, request, url);
  }

  /** The count that the limit is checked against is the number of requests the range makes. */
  lemma RangeCountExact(library: Library, request: Request, url: Url, options: Options)
    requires options.idRange.Some? && options.idRange.value.start <= options.idRange.value.end
    requires Sorts(library, Identifiers(library, library.queryOf(url.rawQuery)))
    requires Sorts(library, Identifiers(library, BodyFields(library, request)))
    requires forall i :: 0 <= i < |Positions(library, request, url)|
                 ==> AllEncodable(library, Positions(library, request, url)[i], options.idRange.value)
    ensures |RangePart(library, request, url, options)| == RangeCount(library, request, url, options.idRange.value)
  {
    RangePartIs(library, request, url, options);
    PositionsCounted(library, request, url);
    var positions, idRange := Positions(library, request, url), options.idRange.value;
    RangeRequestsExactSize(library, request, url, positions, idRange);
  }

  /** Every position and candidate is among the requests. */
  lemma {:induction false} RangeAtHolds(library: Library, request: Request, url: Url, position: Position, start: int,
                                        end: int, candidate: int, m: Mutation)
    requires Fitting(url, position) && start <= candidate <= end
    requires m in RequestAt(library, request, url, position, candidate)
    ensures m in RangeAt(library, request, url, position, start, end)
    decreases end + 1 - start
  {
    if candidate < end {
      RangeAtHolds(library, request, url, position, start, end - 1, candidate, m);
    }
  }

  lemma {:induction false} RangeRequestsHold(library: Library, request: Request, url: Url, positions: seq<Position>,
                                             idRange: NumericRange, k: nat, candidate: int, m: Mutation)
    requires AllFit(url, positions)
    requires k < |positions| && idRange.start <= candidate <= idRange.end
    requires m in RequestAt(library, request, url, positions[k], candidate)
    ensures m in RangeRequests(library, request, url, positions, idRange)
  {
    if k < |positions| - 1 {
      RangeRequestsHold(library, request, url, positions[..|positions| - 1], idRange, k, candidate, m);
    } else {
      RangeAtHolds(library, request, url, positions[k], idRange.start, idRange.end, candidate, m);
    }
  }

  // ----- The whole plan -----

  /** The mutations that the other generators make, which do not depend on the limit. */
  datatype Generated = Generated(ordinary: seq<Mutation>, special: seq<Mutation>)

  function MutationLimit(configured: int): int {
    if configured == 0 then DEFAULT_MUTATION_CASES else configured
  }

  function RangePart(library: Library, request: Request, url: Url, options: Options): seq<Mutation> {
    match options.idRange
    case None => []
    case Some(idRange) =>
      PositionsFit(library, request, url);
      RangeRequests(library, request, url, Positions(library, request, url), idRange)
  }

  function VerboseProbe(library: Library, request: Request, url: Url): Mutation {
    var changed := library.queryOf(url.rawQuery)["sj_probe" := ["invalid'\""]];
    Mutation("invalid_type", VerboseError, library.render(url.(rawQuery := library.encodeQuery(changed))),
             request.body)
  }

  /** All there is to send for the operation. */
  function Everything(library: Library, request: Request, url: Url, options: Options, generated: Generated)
    : seq<Mutation>
  {
    Unlimited(RangePart(library, request, url, options) + generated.ordinary
              + (if options.specialCharacters then generated.special else []),
              VerboseProbe(library, request, url))
  }

  /**
   The outcome in terms of the unlimited list: special characters need all of it, otherwise the first of it will do,
   and a range is refused when it does not fit.
   */
  function Outcome(library: Library, request: Request, options: Options, generated: Generated)
    : Result<seq<Mutation>, MutationError>
  {
    var cases := MutationLimit(options.maxCases);
    if cases < 1 || cases > MAXIMUM_MUTATION_CASES then Err(BadLimit)
    else if library.parse(request.url).None? then Err(BadURL)
    else
      var url := library.parse(request.url).value;
      if options.idRange.Some? && Validated(options.idRange.value).None? then Err(BadRange)
      else if options.idRange.Some? && RangeCount(library, request, url, options.idRange.value) > cases then
        Err(RangeNeeds(RangeCount(library, request, url, options.idRange.value)))
      else
        var all := Everything(library, request, url, options, generated);
        if options.specialCharacters && |all| > cases then Err(SpecialsExceed(cases))
        else Ok(First(cases, all))
  }

  /** With special characters a plan is complete or refused. */
  lemma SpecialsAreComplete(library: Library, request: Request, options: Options, generated: Generated)
    requires options.specialCharacters && Outcome(library, request, options, generated).Ok?
    ensures Outcome(library, request, options, generated).value
         == Everything(library, request, library.parse(request.url).value, options, generated)
  {
  }

  /** What the generator of the range makes is in the plan, if it fits: the limit never cuts into the range. */
  lemma RangeIsHeld(library: Library, request: Request, options: Options, generated: Generated, k: nat,
                    candidate: int, m: Mutation)
    requires options.idRange.Some? && Outcome(library, request, options, generated).Ok?
    requires MIN_INT <= options.idRange.value.start <= MAX_INT && MIN_INT <= options.idRange.value.end <= MAX_INT
    requires
      var url := library.parse(request.url).value;
      && Sorts(library, Identifiers(library, library.queryOf(url.rawQuery)))
      && Sorts(library, Identifiers(library, BodyFields(library, request)))
      && k < |Positions(library, request, url)|
      && Fitting(url, Positions(library, request, url)[k])
      && options.idRange.value.start <= candidate <= options.idRange.value.end
      && m in RequestAt(library, request, url, Positions(library, request, url)[k], candidate)
      && Fits(m)
    ensures Holds(Outcome(library, request, options, generated).value, m)
  {
    var url, idRange := library.parse(request.url).value, options.idRange.value;
    var part := RangePart(library, request, url, options);
    ValidatedExactly(idRange);
    assert |Distinct(part)| <= MutationLimit(options.maxCases) by {
      RangePartFits(library, request, url, options);
      DistinctFacts(part);
    }
    assert Holds(Distinct(part), m) by {
      PositionsFit(library, request, url);
      RangeRequestsHold(library, request, url, Positions(library, request, url), idRange, k, candidate, m);
      DistinctHolds(part, m);
    }
    RangePartFirst(library, request, url, options, generated);
    StillHolds(Distinct(part), Everything(library, request, url, options, generated),
               MutationLimit(options.maxCases), m);
  }

  lemma DistinctHolds(generated: seq<Mutation>, m: Mutation)
    requires m in generated && Fits(m)
    ensures Holds(Distinct(generated), m)
  {
    DistinctFacts(generated);
  }

  lemma RangePartFits(library: Library, request: Request, url: Url, options: Options)
    requires options.idRange.Some? && options.idRange.value.start <= options.idRange.value.end
    requires Sorts(library, Identifiers(library, library.queryOf(url.rawQuery)))
    requires Sorts(library, Identifiers(library, BodyFields(library, request)))
    ensures |RangePart(library, request, url, options)| <= RangeCount(library, request, url, options.idRange.value)
  {
    RangePartIs(library, request, url, options);
    PositionsCounted(library, request, url);
    var positions, idRange := Positions(library, request, url), options.idRange.value;
    RangeRequestsSize(library, request, url, positions, idRange);
  }

  lemma PartFirst(part: seq<Mutation>, ordinary: seq<Mutation>, special: seq<Mutation>, probe: Mutation)
    ensures Distinct(part) <= Unlimited(part + ordinary + special, probe)
  {
    DistinctIsPrefix(part, ordinary + special);
    assert part + (ordinary + special) == part + ordinary + special;
  }

  lemma RangePartFirst(library: Library, request: Request, url: Url, options: Options, generated: Generated)
    ensures Distinct(RangePart(library, request, url, options))
         <= Everything(library, request, url, options, generated)
  {
    PartFirst(RangePart(library, request, url, options), generated.ordinary,
              if options.specialCharacters then generated.special else [], VerboseProbe(library, request, url));
  }

  lemma StillHolds(some: seq<Mutation>, all: seq<Mutation>, limit: int, m: Mutation)
    requires some <= all && |some| <= limit && Holds(some, m)
    ensures Holds(First(limit, all), m)
  {
    var i :| 0 <= i < |some| && SameRequest(some[i], m);
    assert First(limit, all)[i] == some[i];
  }

  /** The positions are the identifier segments of the path and the identifier keys of the query and the body. */
  lemma PositionsExactly(library: Library, request: Request, url: Url, position: Position)
    requires Sorts(library, Identifiers(library, library.queryOf(url.rawQuery)))
    requires Sorts(library, Identifiers(library, BodyFields(library, request)))
    ensures position in Positions(library, request, url) <==>
      match position
      case InPath(index) => index < |Segments(url)| && IdentifierSegment(Segments(url)[index])
      case InQuery(key) => key in library.queryOf(url.rawQuery) && library.isIdentifier(key)
      case InBody(fields, key) =>
        fields == BodyFields(library, request) && key in fields && library.isIdentifier(key)
  {
    var indexes := PathIndexes(Segments(url), |Segments(url)|);
    var queryKeys := library.sorted(Identifiers(library, library.queryOf(url.rawQuery)));
    var fields := BodyFields(library, request);
    var bodyKeys := library.sorted(Identifiers(library, fields));
    var p, q, b := PathPositions(indexes), QueryPositions(queryKeys), BodyPositions(fields, bodyKeys);
    assert position in Positions(library, request, url) <==> position in p || position in q || position in b;
    IndexesAreIdentifiers(Segments(url), |Segments(url)|);
    match position
    case InPath(index) =>
      if index in indexes {
        var i :| 0 <= i < |indexes| && indexes[i] == index;
        assert p[i] == position;
      }
    case InQuery(key) =>
      if key in queryKeys {
        var i :| 0 <= i < |queryKeys| && queryKeys[i] == key;
        assert q[i] == position;
      }
    case InBody(f, key) =>
      if f == fields && key in bodyKeys {
        var i :| 0 <= i < |bodyKeys| && bodyKeys[i] == key;
        assert b[i] == position;
      }
  }

  lemma {:induction false} IndexesAreIdentifiers(segments: seq<string>, n: nat)
    requires n <= |segments|
    ensures forall i :: 0 <= i < |PathIndexes(segments, n)| ==> IdentifierSegment(segments[PathIndexes(segments, n)[i]])
  {
    if n > 0 {
      IndexesAreIdentifiers(segments, n - 1);
    }
  }
}
