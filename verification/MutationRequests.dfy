/**
 What the requests of a numeric range carry: each number of the range at each identifier of the path, the query and
 the body, and nothing else changed.
 */
module MutationRequests {
  import opened Wrappers
  import opened Numerals
  import opened Json
  import opened MutationPlan
  import opened Words

  // ----- The path -----

  /** No separator at either end. */
  predicate Bare(s: string) {
    s != "" ==> s[0] != '/' && s[|s| - 1] != '/'
  }

  lemma {:induction false} TrimmedIsBare(s: string)
    ensures Bare(TrimSlashes(s))
    decreases |s|
  {
    if s != "" && s[0] == '/' {
      TrimmedIsBare(s[1..]);
    } else if s != "" && s[|s| - 1] == '/' {
      TrimmedIsBare(s[..|s| - 1]);
    }
  }

  lemma {:induction false} LastOfJoin(words: seq<string>, separator: string)
    requires words != [] && words[|words| - 1] != ""
    ensures Join(words, separator) != ""
    ensures Join(words, separator)[|Join(words, separator)| - 1] == words[|words| - 1][|words[|words| - 1]| - 1]
  {
    if |words| > 1 {
      LastOfJoin(words[1..], separator);
    }
  }

  lemma EmptyEnds(words: seq<string>)
    requires |words| > 1
    ensures words[0] == "" ==> Join(words, "/") != "" && Join(words, "/")[0] == '/'
    ensures words[|words| - 1] == "" ==> Join(words, "/") != "" && Join(words, "/")[|Join(words, "/")| - 1] == '/'
  {
    if words[|words| - 1] == "" {
      EmptyLast(words);
    }
  }

  lemma {:induction false} EmptyLast(words: seq<string>)
    requires |words| > 1 && words[|words| - 1] == ""
    ensures Join(words, "/") != "" && Join(words, "/")[|Join(words, "/")| - 1] == '/'
  {
    if |words| > 2 {
      EmptyLast(words[1..]);
    } else {
      assert words[1..] == [""];
    }
  }

  /** The segments of a path have no separators, and more than one of them have text at both ends. */
  lemma SegmentFacts(url: Url)
    ensures NoneHas(Segments(url), '/')
    ensures |Segments(url)| > 1 ==> Segments(url)[0] != "" && Segments(url)[|Segments(url)| - 1] != ""
  {
    var path := TrimSlashes(url.path);
    TrimmedIsBare(url.path);
    SplitHasNone(path, '/', "");
    JoinOfSplit(path, '/', "");
    assert "" + path == path;
    if |Segments(url)| > 1 {
      EmptyEnds(Segments(url));
    }
  }

  lemma NumeralIsWord(n: int)
    ensures Itoa(n) != "" && '/' !in Itoa(n)
  {
    ItoaShape(n);
    if n < 0 {
      assert Itoa(n) == ['-'] + Itoa(n)[1..];
    }
  }

  lemma BareJoin(words: seq<string>)
    requires words != [] && NoneHas(words, '/') && words[0] != "" && words[|words| - 1] != ""
    ensures Join(words, "/") != "" && Bare(Join(words, "/"))
  {
    LastOfJoin(words, "/");
    assert Join(words, "/")[0] == words[0][0];
  }

  lemma TrimBehindSlash(s: string)
    requires s != "" && Bare(s)
    ensures TrimSlashes("/" + s) == s
  {
    assert ("/" + s)[1..] == s;
  }

  /** Rewriting one segment and joining them again changes that segment only. */
  lemma SegmentReplaced(url: Url, index: nat, n: int)
    requires index < |Segments(url)|
    ensures
      var changed := Segments(url)[index := Itoa(n)];
      Split(TrimSlashes("/" + Join(changed, "/")), '/') == changed
  {
    var changed := Segments(url)[index := Itoa(n)];
    SegmentFacts(url);
    NumeralIsWord(n);
    BareJoin(changed);
    TrimBehindSlash(Join(changed, "/"));
    SplitOfJoin(changed, '/');
  }

  // ----- What a request carries -----

  /** The URL with the number as its segment at the index, and everything else as it was. */
  predicate CarriesInPath(url: Url, sent: Url, index: nat, n: int) {
    && sent.site == url.site && sent.rawQuery == url.rawQuery && sent.rawPath == "" && sent.path != ""
    && sent.path[0] == '/' && index < |Segments(url)|
    && Segments(sent) == Segments(url)[index := Itoa(n)]
  }

  /** The map with the value under the key, and everything else as it was. */
  predicate CarriesUnder<V(==)>(fields: map<string, V>, sent: map<string, V>, key: string, value: V) {
    && sent.Keys == fields.Keys + {key} && sent[key] == value
    && forall k :: k in fields && k != key ==> sent[k] == fields[k]
  }

  /** The URL has the path it had. */
  predicate SamePath(url: Url, sent: Url) {
    sent.site == url.site && sent.path == url.path && sent.rawPath == url.rawPath
  }

  /** The request carries the number at the position, and is otherwise the operation's own. */
  ghost predicate Carries(library: Library, request: Request, url: Url, position: Position, n: int, m: Mutation) {
    match position
    case InPath(index) =>
      m.body == request.body && exists sent :: m.url == library.render(sent) && CarriesInPath(url, sent, index, n)
    case InQuery(key) =>
      && m.body == request.body
      && exists sent, query ::
           && m.url == library.render(sent) && SamePath(url, sent) && sent.rawQuery == library.encodeQuery(query)
           && CarriesUnder(library.queryOf(url.rawQuery), query, key, [Itoa(n)])
    case InBody(fields, key) =>
      && m.url == request.url
      && exists sent :: library.encodeObject(sent) == Some(m.body) && CarriesUnder(fields, sent, key, Int(n))
  }

  lemma MadeCarries(library: Library, request: Request, url: Url, position: Position, n: int, m: Mutation)
    requires Fitting(url, position) && m in RequestAt(library, request, url, position, n)
    ensures Carries(library, request, url, position, n, m)
  {
    match position
    case InPath(index) =>
      var changed := Segments(url)[index := Itoa(n)];
      SegmentReplaced(url, index, n);
      assert CarriesInPath(url, url.(path := "/" + Join(changed, "/"), rawPath := ""), index, n);
    case InQuery(key) =>
      var query := library.queryOf(url.rawQuery)[key := [Itoa(n)]];
      var sent := url.(rawQuery := library.encodeQuery(query));
      assert m.url == library.render(sent) && SamePath(url, sent);
      assert CarriesUnder(library.queryOf(url.rawQuery), query, key, [Itoa(n)]);
    case InBody(fields, key) =>
      assert CarriesUnder(fields, fields[key := Int(n)], key, Int(n));
  }

  // ----- The range -----

  /** An identifier of the request: a segment of its path, a key of its query, or a key of its body. */
  predicate IsIdentifier(library: Library, request: Request, url: Url, position: Position) {
    match position
    case InPath(index) => index < |Segments(url)| && IdentifierSegment(Segments(url)[index])
    case InQuery(key) => key in library.queryOf(url.rawQuery) && library.isIdentifier(key)
    case InBody(fields, key) => fields == BodyFields(library, request) && key in fields && library.isIdentifier(key)
  }

  /** The request can be sent: its body encodes, and is not too large. */
  predicate Sendable(library: Library, request: Request, position: Position, n: int) {
    match position
    case InBody(fields, key) =>
      var text := library.encodeObject(fields[key := Int(n)]);
      text.Some? && |text.value| <= MAXIMUM_PAYLOAD_BYTES
    case _ => |request.body| <= MAXIMUM_PAYLOAD_BYTES
  }

  ghost predicate Sorted(library: Library, request: Request, url: Url) {
    && Sorts(library, Identifiers(library, library.queryOf(url.rawQuery)))
    && Sorts(library, Identifiers(library, BodyFields(library, request)))
  }

  /** Some mutation of the plan carries the number at the position. */
  ghost predicate Covered(library: Library, request: Request, url: Url, position: Position, n: int, plan: seq<Mutation>)
  {
    exists i :: 0 <= i < |plan| && Carries(library, request, url, position, n, plan[i])
  }

  lemma SameRequestCarries(library: Library, request: Request, url: Url, position: Position, n: int, m: Mutation,
                           other: Mutation)
    requires Carries(library, request, url, position, n, m) && SameRequest(other, m)
    ensures Carries(library, request, url, position, n, other)
  {
  }

  /**
   A range is covered: a plan that is made carries every number of the range at every identifier of the request,
   wherever the request can be sent, whatever the limit.
   */
  lemma RangeIsCovered(library: Library, request: Request, options: Options, generated: Generated,
                       position: Position, n: int)
    requires options.idRange.Some? && Outcome(library, request, options, generated).Ok?
    requires MIN_INT <= options.idRange.value.start <= MAX_INT && MIN_INT <= options.idRange.value.end <= MAX_INT
    requires Sorted(library, request, library.parse(request.url).value)
    requires IsIdentifier(library, request, library.parse(request.url).value, position)
    requires options.idRange.value.start <= n <= options.idRange.value.end && Sendable(library, request, position, n)
    ensures Covered(library, request, library.parse(request.url).value, position, n,
                    Outcome(library, request, options, generated).value)
  {
    var url, plan := library.parse(request.url).value, Outcome(library, request, options, generated).value;
    var positions := Positions(library, request, url);
    PositionsExactly(library, request, url, position);
    PositionsFit(library, request, url);
    var k :| 0 <= k < |positions| && positions[k] == position;
    var m := RequestAt(library, request, url, position, n)[0];
    RangeIsHeld(library, request, options, generated, k, n, m);
    var i :| 0 <= i < |plan| && SameRequest(plan[i], m);
    MadeCarries(library, request, url, position, n, m);
    SameRequestCarries(library, request, url, position, n, m, plan[i]);
  }

  /** Where a request of the range comes from. */
  ghost predicate ComesFrom(library: Library, request: Request, url: Url, idRange: NumericRange, position: Position,
                            n: int, m: Mutation)
  {
    && IsIdentifier(library, request, url, position) && idRange.start <= n <= idRange.end
    && Carries(library, request, url, position, n, m)
  }

  lemma {:induction false} FromRangeAt(library: Library, request: Request, url: Url, position: Position, start: int,
                                       end: int, m: Mutation)
    returns (n: int)
    requires Fitting(url, position) && m in RangeAt(library, request, url, position, start, end)
    ensures start <= n <= end && m in RequestAt(library, request, url, position, n)
    decreases end + 1 - start
  {
    if m in RequestAt(library, request, url, position, end) {
      n := end;
    } else {
      n := FromRangeAt(library, request, url, position, start, end - 1, m);
    }
  }

  lemma {:induction false} FromRange(library: Library, request: Request, url: Url, positions: seq<Position>,
                                     idRange: NumericRange, m: Mutation)
    returns (k: nat, n: int)
    requires AllFit(url, positions) && m in RangeRequests(library, request, url, positions, idRange)
    ensures k < |positions| && idRange.start <= n <= idRange.end
    ensures m in RequestAt(library, request, url, positions[k], n)
  {
    var last := |positions| - 1;
    if m in RangeAt(library, request, url, positions[last], idRange.start, idRange.end) {
      k := last;
      n := FromRangeAt(library, request, url, positions[last], idRange.start, idRange.end, m);
    } else {
      k, n := FromRange(library, request, url, positions[..last], idRange, m);
    }
  }

  /** And nothing else is made for the range: each of its requests carries one of its numbers at one identifier. */
  lemma RangeIsAll(library: Library, request: Request, url: Url, options: Options, m: Mutation)
    requires options.idRange.Some? && Sorted(library, request, url)
    requires m in RangePart(library, request, url, options)
    ensures exists position, n :: ComesFrom(library, request, url, options.idRange.value, position, n, m)
  {
    RangePartIs(library, request, url, options);
    var positions := Positions(library, request, url);
    var k, n := FromRange(library, request, url, positions, options.idRange.value, m);
    assert positions[k] in positions;
    PositionsExactly(library, request, url, positions[k]);
    MadeCarries(library, request, url, positions[k], n, m);
    assert ComesFrom(library, request, url, options.idRange.value, positions[k], n, m);
  }

  // ----- As the server reads it -----

  /** Parsing and decoding give back what rendering and encoding were given. */
  ghost predicate RoundTrips(library: Library) {
    && (forall u :: library.parse(library.render(u)) == Some(u))
    && (forall q :: library.queryOf(library.encodeQuery(q)) == q)
    && (forall f :: library.encodeObject(f).Some? ==> library.decodeObject(library.encodeObject(f).value) == Some(f))
  }

  /** The server reads the number at the position, and everything else as the operation has it. */
  ghost predicate Reads(library: Library, request: Request, url: Url, position: Position, n: int, m: Mutation) {
    match position
    case InPath(index) =>
      && m.body == request.body && library.parse(m.url).Some?
      && CarriesInPath(url, library.parse(m.url).value, index, n)
    case InQuery(key) =>
      && m.body == request.body && library.parse(m.url).Some? && SamePath(url, library.parse(m.url).value)
      && CarriesUnder(library.queryOf(url.rawQuery), library.queryOf(library.parse(m.url).value.rawQuery), key,
                      [Itoa(n)])
    case InBody(fields, key) =>
      && m.url == request.url && library.decodeObject(m.body).Some?
      && CarriesUnder(fields, library.decodeObject(m.body).value, key, Int(n))
  }

  lemma CarriedIsRead(library: Library, request: Request, url: Url, position: Position, n: int, m: Mutation)
    requires RoundTrips(library) && Carries(library, request, url, position, n, m)
    ensures Reads(library, request, url, position, n, m)
  {
  }

  /** So for libraries that round trip, every number of the range reaches the server at every identifier. */
  lemma RangeIsRead(library: Library, request: Request, options: Options, generated: Generated, position: Position,
                    n: int)
    requires RoundTrips(library)
    requires options.idRange.Some? && Outcome(library, request, options, generated).Ok?
    requires MIN_INT <= options.idRange.value.start <= MAX_INT && MIN_INT <= options.idRange.value.end <= MAX_INT
    requires Sorted(library, request, library.parse(request.url).value)
    requires IsIdentifier(library, request, library.parse(request.url).value, position)
    requires options.idRange.value.start <= n <= options.idRange.value.end && Sendable(library, request, position, n)
    ensures
      var url, plan := library.parse(request.url).value, Outcome(library, request, options, generated).value;
      exists i :: 0 <= i < |plan| && Reads(library, request, url, position, n, plan[i])
  {
    var url, plan := library.parse(request.url).value, Outcome(library, request, options, generated).value;
    RangeIsCovered(library, request, options, generated, position, n);
    var i :| 0 <= i < |plan| && Carries(library, request, url, position, n, plan[i]);
    CarriedIsRead(library, request, url, position, n, plan[i]);
  }

  // ----- The probe for verbose errors -----

  /** The request asks with an odd value under its own key, and is otherwise the operation's own. */
  ghost predicate Probes(library: Library, request: Request, url: Url, m: Mutation) {
    && m.category == VerboseError && m.body == request.body
    && exists sent, query ::
         && m.url == library.render(sent) && SamePath(url, sent) && sent.rawQuery == library.encodeQuery(query)
         && CarriesUnder(library.queryOf(url.rawQuery), query, "sj_probe", ["invalid'\""])
  }

  lemma ProbeProbes(library: Library, request: Request, url: Url)
    ensures Probes(library, request, url, VerboseProbe(library, request, url))
  {
    var query := library.queryOf(url.rawQuery)["sj_probe" := ["invalid'\""]];
    var sent := url.(rawQuery := library.encodeQuery(query));
    assert VerboseProbe(library, request, url).url == library.render(sent) && SamePath(url, sent);
    assert CarriesUnder(library.queryOf(url.rawQuery), query, "sj_probe", ["invalid'\""]);
  }

  lemma RoomForAll(library: Library, request: Request, options: Options, generated: Generated)
    requires Outcome(library, request, options, generated).Ok?
    requires |Outcome(library, request, options, generated).value| < MutationLimit(options.maxCases)
    ensures
      Outcome(library, request, options, generated).value
      == Everything(library, request, library.parse(request.url).value, options, generated)
  {
  }

  lemma ProbeIsThere(generated: seq<Mutation>, probe: Mutation)
    requires probe.category == VerboseError && Fits(probe)
    ensures
      var all := Unlimited(generated, probe);
      HasVerboseProbe(all) || Holds(all, probe)
  {
    var values, all := Distinct(generated), Unlimited(generated, probe);
    if !HasVerboseProbe(values) && !Holds(values, probe) {
      assert all == values + [probe] && all[|values|] == probe;
    }
  }

  /**
   A plan with room left provokes verbose errors: some mutation of it is of that category, or sends the very request
   of the probe, unless the body is too large to send at all.
   */
  lemma VerboseErrorsAreProbed(library: Library, request: Request, options: Options, generated: Generated)
    requires Outcome(library, request, options, generated).Ok?
    requires |Outcome(library, request, options, generated).value| < MutationLimit(options.maxCases)
    requires |request.body| <= MAXIMUM_PAYLOAD_BYTES
    ensures
      var plan := Outcome(library, request, options, generated).value;
      || HasVerboseProbe(plan)
      || exists m :: Probes(library, request, library.parse(request.url).value, m) && Holds(plan, m)
  {
    var url := library.parse(request.url).value;
    var made := RangePart(library, request, url, options) + generated.ordinary
                + (if options.specialCharacters then generated.special else []);
    RoomForAll(library, request, options, generated);
    ProbeProbes(library, request, url);
    ProbeIsThere(made, VerboseProbe(library, request, url));
  }
}
