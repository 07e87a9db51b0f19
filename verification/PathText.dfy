/**
 Writing paths and reading them back: names separated by dots, indices in brackets.
 */
module PathText {
  import opened Text
  import opened Wrappers
  import opened Numerals
  import opened JsonPath
  import opened Words

  // ----- Writing -----

  function Written(part: Part, first: bool): string {
    match part
    case Key(name) => if first then name else "." + name
    case Index(index) => "[" + Itoa(index) + "]"
  }

  /** The path after its first part. */
  function WrittenRest(path: seq<Part>): string {
    if path == [] then "" else Written(path[0], false) + WrittenRest(path[1..])
  }

  function Display(path: seq<Part>): string {
    if path == [] then "" else Written(path[0], true) + WrittenRest(path[1..])
  }

  /** The same, built up from the left as the loop does. */
  function BuiltUp(path: seq<Part>): string {
    if path == [] then "" else BuiltUp(path[..|path| - 1]) + Written(path[|path| - 1], |path| == 1)
  }

  lemma {:induction false} RestOfLonger(path: seq<Part>, part: Part)
    ensures WrittenRest(path + [part]) == WrittenRest(path) + Written(part, false)
  {
    if path == [] {
      assert path + [part] == [part] && [part][1..] == [];
      assert WrittenRest([part]) == Written(part, false) + "";
    } else {
      assert (path + [part])[0] == path[0] && (path + [part])[1..] == path[1..] + [part];
      RestOfLonger(path[1..], part);
      Associates(Written(path[0], false), WrittenRest(path[1..]), Written(part, false));
    }
  }

  lemma Associates(a: string, b: string, c: string)
    ensures a + (b + c) == a + b + c
  {
  }

  lemma BuiltUpNext(path: seq<Part>, i: nat)
    requires i < |path|
    ensures BuiltUp(path[..i + 1]) == BuiltUp(path[..i]) + Written(path[i], i == 0)
  {
    assert path[..i + 1][..i] == path[..i];
  }

  lemma DisplayOfLonger(path: seq<Part>, part: Part)
    requires path != []
    ensures Display(path + [part]) == Display(path) + Written(part, false)
  {
    assert (path + [part])[1..] == path[1..] + [part];
    RestOfLonger(path[1..], part);
    Associates(Written(path[0], true), WrittenRest(path[1..]), Written(part, false));
  }

  lemma DisplayOfOne(part: Part)
    ensures Display([part]) == "" + Written(part, true)
  {
    assert [part][1..] == [];
    assert Written(part, true) + "" == "" + Written(part, true);
  }

  lemma LastWritten(path: seq<Part>)
    requires path != []
    ensures Display(path) == Display(path[..|path| - 1]) + Written(path[|path| - 1], |path| == 1)
  {
    var front, last := path[..|path| - 1], path[|path| - 1];
    assert path == front + [last];
    if front == [] {
      DisplayOfOne(last);
    } else {
      DisplayOfLonger(front, last);
    }
  }

  lemma {:induction false} BuiltUpIsDisplay(path: seq<Part>)
    ensures BuiltUp(path) == Display(path)
  {
    if path == [] {
    } else {
      BuiltUpIsDisplay(path[..|path| - 1]);
      LastWritten(path);
    }
  }

  /** Writes one part after what is there. */
  method WritePart(before: string, part: Part, first: bool) returns (text: string)
    ensures text == before + Written(part, first)
  {
    text := before;
    match part
    case Key(name) =>
      if !first {
        text := text + ".";
      }
      text := text + name;
    case Index(index) =>
      text := text + "[" + Itoa(index) + "]";
      assert text == before + ("[" + Itoa(index) + "]");
  }

  method DisplayPath(path: seq<Part>) returns (text: string)
    ensures text == Display(path)
  {
    text := "";
    for i := 0 to |path|
      invariant text == BuiltUp(path[..i])
    {
      BuiltUpNext(path, i);
      text := WritePart(text, path[i], i == 0);
    }
    assert path[..|path|] == path;
    BuiltUpIsDisplay(path);
  }

  // ----- Reading -----

  function TrimPrefix(s: string, c: char): string {
    if s != "" && s[0] == c then s[1..] else s
  }

  /** The place of the first such character, or the length. */
  function FirstOf(s: string, chars: set<char>): (i: nat)
    ensures i <= |s|
    ensures forall k :: 0 <= k < i ==> s[k] !in chars
    ensures i < |s| ==> s[i] in chars
  {
    if s == "" || s[0] in chars then 0 else 1 + FirstOf(s[1..], chars)
  }

  /** The first part of a text, and what is left; nothing if there is no part. */
  function FirstPart(text: string): (r: Option<(Part, string)>)
    requires text != ""
    ensures r.Some? ==> |r.value.1| < |text|
  {
    var value := TrimPrefix(text, '.');
    if value != "" && value[0] == '[' then
      var end := FirstOf(value, {']'});
      if end == |value| || Atoi(value[1..end]).None? then None
      else
        var index := Atoi(value[1..end]).value;
        if index < 0 || index > MAXIMUM_INDEX then None else Some((Index(index), value[end + 1..]))
    else
      var end := FirstOf(value, {'.', '[', ' '});
      if end == 0 then None else Some((Key(value[..end]), value[end..]))
  }

  /** All parts, or none if the text is not a path. */
  function Parts(text: string): Option<seq<Part>>
    decreases |text|
  {
    if text == "" then Some([])
    else
      match FirstPart(text)
      case None => None
      case Some((part, rest)) => (match Parts(rest) case None => None case Some(parts) => Some([part] + parts))
  }

  function Stripped(text: string): string {
    TrimPrefix(TrimPrefix(TrimSpace(text), '$'), '.')
  }

  /** What reading gives: the empty path when the text is not a path. */
  function Parsed(text: string): seq<Part> {
    match Parts(Stripped(text)) case None => [] case Some(parts) => parts
  }

  function Prepended(front: seq<Part>, rest: Option<seq<Part>>): Option<seq<Part>> {
    match rest case None => None case Some(parts) => Some(front + parts)
  }

  lemma PrependedStep(front: seq<Part>, part: Part, rest: Option<seq<Part>>)
    ensures Prepended(front, Prepended([part], rest)) == Prepended(front + [part], rest)
    ensures Prepended([], rest) == rest
  {
    match rest
    case None =>
    case Some(parts) =>
      assert front + ([part] + parts) == front + [part] + parts;
      assert [] + parts == parts;
  }

  method ParseASPNetPath(text: string) returns (path: seq<Part>)
    ensures path == Parsed(text)
  {
    var value := Stripped(text);
    path := [];
    PrependedStep([], Index(0), Parts(value));
    while |value| > 0
      invariant Parts(Stripped(text)) == Prepended(path, Parts(value))
      decreases |value|
    {
      match FirstPart(value)
      case None =>
        return [];
      case Some((part, rest)) =>
        PrependedStep(path, part, Parts(rest));
        path := path + [part];
        value := rest;
    }
    assert path + [] == path;
  }

  // ----- Round trip -----

  /** A name that can be written: not empty, and without dots, brackets and white space. */
  predicate Writable(part: Part) {
    match part
    case Key(name) =>
      name != "" && forall i :: 0 <= i < |name| ==> name[i] != '.' && name[i] != '[' && !IsSpace(name[i])
    case Index(index) => 0 <= index <= MAXIMUM_INDEX
  }

  predicate WellFormed(path: seq<Part>) {
    && path != []
    && (forall i :: 0 <= i < |path| ==> Writable(path[i]))
    && (path[0].Key? ==> path[0].name[0] != '$')
  }

  /** What follows a part starts a new one. */
  predicate Starts(rest: string) {
    rest == "" || rest[0] == '.' || rest[0] == '['
  }

  lemma FirstOfExactly(s: string, chars: set<char>, i: nat)
    requires i <= |s| && (forall k :: 0 <= k < i ==> s[k] !in chars) && (i < |s| ==> s[i] in chars)
    ensures FirstOf(s, chars) == i
  {
  }

  lemma NameRoundTrip(name: string, rest: string)
    requires Writable(Key(name)) && Starts(rest)
    ensures FirstOf(name + rest, {'.', '[', ' '}) == |name|
    ensures (name + rest)[..|name|] == name && (name + rest)[|name|..] == rest
    ensures (name + rest)[0] != '.' && (name + rest)[0] != '['
  {
    var value := name + rest;
    forall k | 0 <= k < |name|
      ensures value[k] !in {'.', '[', ' '}
    {
      assert value[k] == name[k];
    }
    FirstOfExactly(value, {'.', '[', ' '}, |name|);
  }

  lemma DotTrimmed(name: string, rest: string, first: bool)
    requires (name + rest) != "" && (name + rest)[0] != '.'
    ensures TrimPrefix(Written(Key(name), first) + rest, '.') == name + rest
  {
    var value, text := name + rest, Written(Key(name), first) + rest;
    if first {
      assert text == value;
    } else {
      assert text == "." + value && ("." + value)[1..] == value;
    }
  }

  lemma KeyRoundTrip(name: string, rest: string, first: bool)
    requires Writable(Key(name)) && Starts(rest)
    ensures FirstPart(Written(Key(name), first) + rest) == Some((Key(name), rest))
  {
    var value := name + rest;
    NameRoundTrip(name, rest);
    DotTrimmed(name, rest, first);
    assert FirstPart(Written(Key(name), first) + rest) == Some((Key(value[..|name|]), value[|name|..]));
  }

  lemma IndexRoundTrip(index: int, rest: string, first: bool)
    requires Writable(Index(index))
    ensures FirstPart(Written(Index(index), first) + rest) == Some((Index(index), rest))
  {
    var digits := Itoa(index);
    ItoaShape(index);
    AtoiOfItoa(index);
    var text := "[" + digits + "]" + rest;
    forall k | 0 <= k < |digits| + 1
      ensures text[k] !in {']'}
    {
      assert k > 0 ==> text[k] == digits[k - 1];
    }
    assert text[|digits| + 1] == ']';
    FirstOfExactly(text, {']'}, |digits| + 1);
    assert text[1..|digits| + 1] == digits;
    assert text[|digits| + 2..] == rest;
    assert TrimPrefix(text, '.') == text;
    assert text == Written(Index(index), first) + rest;
  }

  /** A written part, followed by anything that starts a new one, is read back. */
  lemma PartRoundTrip(part: Part, rest: string, first: bool)
    requires Writable(part) && Starts(rest)
    ensures Written(part, first) + rest != ""
    ensures FirstPart(Written(part, first) + rest) == Some((part, rest))
  {
    match part
    case Key(name) => KeyRoundTrip(name, rest, first);
    case Index(index) => IndexRoundTrip(index, rest, first);
  }

  lemma RestStarts(path: seq<Part>)
    ensures Starts(WrittenRest(path))
  {
  }

  lemma {:induction false} RestRoundTrip(path: seq<Part>)
    requires forall i :: 0 <= i < |path| ==> Writable(path[i])
    ensures Parts(WrittenRest(path)) == Some(path)
  {
    if path != [] {
      RestStarts(path[1..]);
      PartRoundTrip(path[0], WrittenRest(path[1..]), false);
      RestRoundTrip(path[1..]);
      assert [path[0]] + path[1..] == path;
    }
  }

  /** The last character of a written path is no white space. */
  lemma {:induction false} LastIsSolid(path: seq<Part>, first: bool)
    requires path != [] && forall i :: 0 <= i < |path| ==> Writable(path[i])
    ensures
      var text := Written(path[0], first) + WrittenRest(path[1..]);
      text != "" && !IsSpace(text[|text| - 1])
  {
    var head := Written(path[0], first);
    assert head != "" && !IsSpace(head[|head| - 1]);
    if |path| > 1 {
      LastIsSolid(path[1..], false);
    } else {
      assert head + WrittenRest(path[1..]) == head;
    }
  }

  lemma PartsOfDisplay(path: seq<Part>)
    requires WellFormed(path)
    ensures Parts(Display(path)) == Some(path)
  {
    RestStarts(path[1..]);
    PartRoundTrip(path[0], WrittenRest(path[1..]), true);
    RestRoundTrip(path[1..]);
    assert [path[0]] + path[1..] == path;
  }

  lemma {:induction false} TrimFront(before: string, s: string)
    requires Blank(before)
    ensures TrimSpace(before + s) == TrimSpace(s)
  {
    if before == "" {
      assert before + s == s;
    } else {
      assert (before + s)[0] == before[0] && (before + s)[1..] == before[1..] + s;
      TrimFront(before[1..], s);
    }
  }

  lemma {:induction false} TrimBack(s: string, after: string)
    requires s != "" && !IsSpace(s[0]) && !IsSpace(s[|s| - 1]) && Blank(after)
    ensures TrimSpace(s + after) == s
  {
    if after == "" {
      assert s + after == s;
      TrimOfSolid(s);
    } else {
      assert (s + after)[..|s + after| - 1] == s + after[..|after| - 1];
      TrimBack(s, after[..|after| - 1]);
    }
  }

  lemma StartsSolid(path: seq<Part>)
    requires WellFormed(path)
    ensures
      var text := Display(path);
      && text != "" && text[0] != '.' && text[0] != '$' && !IsSpace(text[0]) && !IsSpace(text[|text| - 1])
  {
    LastIsSolid(path, true);
    assert Display(path)[0] == Written(path[0], true)[0];
  }

  lemma TrimAround(before: string, s: string, after: string)
    requires s != "" && !IsSpace(s[0]) && !IsSpace(s[|s| - 1]) && Blank(before) && Blank(after)
    ensures TrimSpace(before + s + after) == s
  {
    Associates(before, s, after);
    TrimFront(before, s + after);
    TrimBack(s, after);
  }

  /** What an error report may write in front of a path. */
  predicate IsPrefix(prefix: string) {
    prefix == "" || prefix == "$" || prefix == "$." || prefix == "."
  }

  lemma PrefixStripped(s: string, prefix: string)
    requires s != "" && s[0] != '.' && s[0] != '$' && !IsSpace(s[0]) && !IsSpace(s[|s| - 1]) && IsPrefix(prefix)
    ensures
      var text := prefix + s;
      && text != "" && !IsSpace(text[0]) && !IsSpace(text[|text| - 1])
      && TrimPrefix(TrimPrefix(text, '$'), '.') == s
  {
    if prefix == "" {
      assert prefix + s == s;
    } else if prefix == "$." {
      assert (prefix + s)[1..] == "." + s && ("." + s)[1..] == s;
    } else {
      assert (prefix + s)[1..] == s;
    }
  }

  /**
   A path is read however an error report writes it: bare, after a dollar sign, or after a dollar sign and a dot, and
   with white space around it.
   */
  lemma ReportedRoundTrip(path: seq<Part>, prefix: string, before: string, after: string)
    requires WellFormed(path) && IsPrefix(prefix) && Blank(before) && Blank(after)
    ensures Parsed(before + (prefix + Display(path)) + after) == path
  {
    var display := Display(path);
    StartsSolid(path);
    PrefixStripped(display, prefix);
    TrimAround(before, prefix + display, after);
    assert Stripped(before + (prefix + display) + after) == display;
    PartsOfDisplay(path);
  }

  /** Whatever the text, a part that is read is a name without separators or an index within the bounds. */
  predicate Readable(part: Part) {
    match part
    case Key(name) => name != "" && '[' !in name && ' ' !in name && '.' !in name
    case Index(index) => 0 <= index <= MAXIMUM_INDEX
  }

  lemma {:induction false} PartsReadable(text: string)
    requires Parts(text).Some?
    ensures forall i :: 0 <= i < |Parts(text).value| ==> Readable(Parts(text).value[i])
    decreases |text|
  {
    if text != "" {
      PartsReadable(FirstPart(text).value.1);
    }
  }

  lemma ParsedReadable(text: string)
    ensures forall i :: 0 <= i < |Parsed(text)| ==> Readable(Parsed(text)[i])
  {
    if Parts(Stripped(text)).Some? {
      PartsReadable(Stripped(text));
    }
  }

  lemma NothingAround(s: string)
    ensures "" + ("" + s) + "" == s
  {
  }

  /** Reading a written path gives it back. */
  lemma RoundTrip(path: seq<Part>)
    requires WellFormed(path)
    ensures Parsed(Display(path)) == path
  {
    ReportedRoundTrip(path, "", "", "");
    NothingAround(Display(path));
  }

  /** So different paths are written differently. */
  lemma DisplayIsInjective(p: seq<Part>, q: seq<Part>)
    requires WellFormed(p) && WellFormed(q) && Display(p) == Display(q)
    ensures p == q
  {
    RoundTrip(p);
    RoundTrip(q);
  }

  // ----- Paths that are written alike -----

  /** The pieces between the dots: those of the names, with each index attached to what is before it. */
  function Pieces(path: seq<Part>): (pieces: seq<string>)
    ensures pieces != []
  {
    if path == [] then [""]
    else
      var before := Pieces(path[..|path| - 1]);
      match path[|path| - 1]
      case Key(name) => if |path| == 1 then Split(name, '.') else before + Split(name, '.')
      case Index(index) => Attached(before, "[" + Itoa(index) + "]")
  }

  function Attached(pieces: seq<string>, text: string): (r: seq<string>)
    requires pieces != []
    ensures r != []
  {
    pieces[..|pieces| - 1] + [pieces[|pieces| - 1] + text]
  }

  lemma {:induction false} JoinOfAttached(pieces: seq<string>, text: string)
    requires pieces != []
    ensures Join(Attached(pieces, text), ".") == Join(pieces, ".") + text
  {
    if |pieces| == 1 {
      assert Attached(pieces, text) == [pieces[0] + text];
    } else {
      assert Attached(pieces, text)[1..] == Attached(pieces[1..], text);
      JoinOfAttached(pieces[1..], text);
      Associates(pieces[0] + ".", Join(pieces[1..], "."), text);
    }
  }

  lemma {:induction false} DisplayIsJoined(path: seq<Part>)
    ensures Display(path) == Join(Pieces(path), ".")
  {
    if path == [] {
    } else {
      DisplayIsJoined(path[..|path| - 1]);
      LastWritten(path);
      JoinOfLast(path);
    }
  }

  lemma JoinOfLast(path: seq<Part>)
    requires path != []
    ensures
      var before := path[..|path| - 1];
      Join(Pieces(path), ".")
      == (if |path| == 1 then "" else Join(Pieces(before), ".")) + Written(path[|path| - 1], |path| == 1)
  {
    var before := path[..|path| - 1];
    match path[|path| - 1]
    case Key(name) =>
      JoinOfSplit(name, '.', "");
      NothingInFront(name);
      if |path| > 1 {
        JoinOfBoth(Pieces(before), Split(name, '.'), ".");
        Associates(Join(Pieces(before), "."), ".", name);
      }
    case Index(index) =>
      JoinOfAttached(Pieces(before), "[" + Itoa(index) + "]");
  }

  lemma NothingInFront(s: string)
    ensures "" + s == s
  {
  }

  lemma {:induction false} PiecesHaveNoDots(path: seq<Part>)
    ensures NoneHas(Pieces(path), '.')
  {
    if path == [] {
    } else {
      PiecesHaveNoDots(path[..|path| - 1]);
      match path[|path| - 1]
      case Key(name) => SplitHasNone(name, '.', "");
      case Index(index) =>
        ItoaShape(index);
        assert '.' !in Itoa(index);
    }
  }

  /** Any two paths are written alike exactly when they have the same pieces. */
  lemma WrittenAlikeExactly(p: seq<Part>, q: seq<Part>)
    ensures Display(p) == Display(q) <==> Pieces(p) == Pieces(q)
  {
    DisplayIsJoined(p);
    DisplayIsJoined(q);
    PiecesHaveNoDots(p);
    PiecesHaveNoDots(q);
    SplitOfJoin(Pieces(p), '.');
    SplitOfJoin(Pieces(q), '.');
  }

  // ----- Instructions told apart by their written paths -----

  datatype Instruction<T> = Instruction(location: string, path: seq<Part>, value: T)

  function Tag<T>(instruction: Instruction<T>): (string, string) {
    (instruction.location, Display(instruction.path))
  }

  function Tags<T>(instructions: seq<Instruction<T>>): set<(string, string)> {
    if instructions == [] then {}
    else Tags(instructions[..|instructions| - 1]) + {Tag(instructions[|instructions| - 1])}
  }

  /** The first instruction for each place. */
  function Firsts<T>(instructions: seq<Instruction<T>>): seq<Instruction<T>> {
    if instructions == [] then []
    else
      var front, last := instructions[..|instructions| - 1], instructions[|instructions| - 1];
      if Tag(last) in Tags(front) then Firsts(front) else Firsts(front) + [last]
  }

  method DeduplicateInstructions<T>(instructions: seq<Instruction<T>>) returns (kept: seq<Instruction<T>>)
    ensures kept == Firsts(instructions)
  {
    var seen: set<(string, string)> := {};
    kept := [];
    for i := 0 to |instructions|
      invariant seen == Tags(instructions[..i]) && kept == Firsts(instructions[..i])
    {
      var text := DisplayPath(instructions[i].path);
      var key := (instructions[i].location, text);
      assert instructions[..i + 1][..i] == instructions[..i];
      if key !in seen {
        seen := seen + {key};
        kept := kept + [instructions[i]];
      }
    }
    assert instructions[..|instructions|] == instructions;
  }

  lemma {:induction false} TagAt<T>(instructions: seq<Instruction<T>>, k: nat)
    requires k < |instructions|
    ensures Tag(instructions[k]) in Tags(instructions)
  {
    if k < |instructions| - 1 {
      TagAt(instructions[..|instructions| - 1], k);
    }
  }

  lemma {:induction false} TagFrom<T>(instructions: seq<Instruction<T>>, tag: (string, string)) returns (k: nat)
    requires tag in Tags(instructions)
    ensures k < |instructions| && Tag(instructions[k]) == tag
  {
    var front := instructions[..|instructions| - 1];
    if tag in Tags(front) {
      k := TagFrom(front, tag);
    } else {
      k := |instructions| - 1;
    }
  }

  predicate SamePlace<T>(x: Instruction<T>, y: Instruction<T>) {
    x.location == y.location && x.path == y.path
  }

  /** No instruction in front has the last one's place. */
  predicate IsNew<T>(front: seq<Instruction<T>>, last: Instruction<T>) {
    forall k :: 0 <= k < |front| ==> !SamePlace(front[k], last)
  }

  predicate AllWellFormed<T>(instructions: seq<Instruction<T>>) {
    forall i :: 0 <= i < |instructions| ==> WellFormed(instructions[i].path)
  }

  /** The instructions at the places that are new, in order. */
  function NewOnes<T>(instructions: seq<Instruction<T>>): seq<Instruction<T>> {
    if instructions == [] then []
    else
      var front, last := instructions[..|instructions| - 1], instructions[|instructions| - 1];
      NewOnes(front) + (if IsNew(front, last) then [last] else [])
  }

  /** No two instructions at different places of one location have paths with the same pieces. */
  predicate ToldApart<T>(instructions: seq<Instruction<T>>) {
    forall j, k :: 0 <= j < |instructions| && 0 <= k < |instructions| ==> Apart(instructions[j], instructions[k])
  }

  predicate Apart<T>(x: Instruction<T>, y: Instruction<T>) {
    x.location == y.location && Pieces(x.path) == Pieces(y.path) ==> x.path == y.path
  }

  /** An instruction at an earlier one's place has its tag; places told apart, one with its tag is at its place. */
  lemma TagsOfPlaces<T(!new)>(front: seq<Instruction<T>>, last: Instruction<T>)
    ensures !IsNew(front, last) ==> Tag(last) in Tags(front)
    ensures ToldApart(front + [last]) && Tag(last) in Tags(front) ==> !IsNew(front, last)
  {
    if k :| 0 <= k < |front| && SamePlace(front[k], last) {
      TagAt(front, k);
    }
    if ToldApart(front + [last]) && Tag(last) in Tags(front) {
      var all := front + [last];
      var k := TagFrom(front, Tag(last));
      WrittenAlikeExactly(front[k].path, last.path);
      assert Apart(all[k], all[|front|]);
      assert SamePlace(front[k], last);
    }
  }

  /** The first two places that are not told apart: the second is dropped though it is new. */
  lemma NotToldApart<T(!new)>(front: seq<Instruction<T>>, last: Instruction<T>)
    requires ToldApart(front) && !ToldApart(front + [last])
    ensures Tag(last) in Tags(front) && IsNew(front, last)
  {
    var all := front + [last];
    var j, k :| 0 <= j < |all| && 0 <= k < |all| && !Apart(all[j], all[k]);
    assert j == |front| || k == |front|;
    var other := if j < |front| then j else k;
    assert !Apart(front[other], last);
    WrittenAlikeExactly(front[other].path, last.path);
    TagAt(front, other);
    forall i | 0 <= i < |front|
      ensures !SamePlace(front[i], last)
    {
      assert Apart(front[i], front[other]);
    }
  }

  lemma ToldApartFront<T>(front: seq<Instruction<T>>, last: Instruction<T>)
    requires ToldApart(front + [last])
    ensures ToldApart(front)
  {
    var all := front + [last];
    forall j, k | 0 <= j < |front| && 0 <= k < |front|
      ensures Apart(front[j], front[k])
    {
      assert Apart(all[j], all[k]);
    }
  }

  lemma FirstsOnTop<T>(front: seq<Instruction<T>>, last: Instruction<T>)
    ensures Firsts(front + [last]) == if Tag(last) in Tags(front) then Firsts(front) else Firsts(front) + [last]
    ensures NewOnes(front + [last]) == NewOnes(front) + (if IsNew(front, last) then [last] else [])
  {
    assert (front + [last])[..|front|] == front;
  }

  /**
   Of each place the first instruction is kept, if and only if no two different paths of a location have the same
   pieces; else fewer are kept than there are places.
   */
  lemma {:induction false} FirstsExactlyApart<T(!new)>(instructions: seq<Instruction<T>>)
    ensures ToldApart(instructions) ==> Firsts(instructions) == NewOnes(instructions)
    ensures !ToldApart(instructions) ==> |Firsts(instructions)| < |NewOnes(instructions)|
  {
    if instructions == [] {
    } else {
      var front, last := instructions[..|instructions| - 1], instructions[|instructions| - 1];
      assert instructions == front + [last];
      FirstsExactlyApart(front);
      FirstsOnTop(front, last);
      TagsOfPlaces(front, last);
      if ToldApart(instructions) {
        ToldApartFront(front, last);
      } else if ToldApart(front) {
        NotToldApart(front, last);
      }
    }
  }

  lemma DottedAlike()
    ensures Display([Key("a.b")]) == "a.b" && Display([Key("a"), Key("b")]) == "a.b"
  {
    var path := [Key("a"), Key("b")];
    assert path[..1] == [Key("a")];
    DisplayOfOne(Key("a.b"));
    DisplayOfOne(Key("a"));
    LastWritten(path);
    assert Display(path) == "a" + ".b";
  }

  lemma FirstsOfTwo<T>(x: Instruction<T>, y: Instruction<T>)
    ensures Firsts([x, y]) == if Tag(x) == Tag(y) then [x] else [x, y]
    ensures NewOnes([x, y]) == if SamePlace(x, y) then [x] else [x, y]
  {
    assert [] + [x] == [x] && [x] + [y] == [x, y];
    FirstsOnTop([], x);
    FirstsOnTop([x], y);
    assert [x][..0] == [];
    assert Tags([x]) == {Tag(x)};
  }

  /** For example, a name with a dot and the two names around the dot: the second instruction is dropped. */
  lemma DottedNameDrops<T>(first: T, second: T)
    ensures
      var dotted, plain := Instruction("body", [Key("a.b")], first), Instruction("body", [Key("a"), Key("b")], second);
      Firsts([dotted, plain]) == [dotted] && NewOnes([dotted, plain]) == [dotted, plain]
  {
    DottedAlike();
    FirstsOfTwo(Instruction("body", [Key("a.b")], first), Instruction("body", [Key("a"), Key("b")], second));
  }

  /** For well-formed paths, an instruction is kept exactly when no earlier one has its location and its path. */
  lemma FirstsExactly<T(!new)>(instructions: seq<Instruction<T>>)
    requires AllWellFormed(instructions)
    ensures Firsts(instructions) == NewOnes(instructions)
  {
    FirstsExactlyApart(instructions);
    forall j, k | 0 <= j < |instructions| && 0 <= k < |instructions|
      ensures Apart(instructions[j], instructions[k])
    {
      var p, q := instructions[j].path, instructions[k].path;
      WrittenAlikeExactly(p, q);
      if Pieces(p) == Pieces(q) {
        DisplayIsInjective(p, q);
      }
    }
  }
}
