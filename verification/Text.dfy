/** The string operations the models need, over ASCII text. */
module Text {

  function Lower(c: char): char {
    if 'A' <= c <= 'Z' then (c as int + 32) as char else c
  }

  function Upper(c: char): char {
    if 'a' <= c <= 'z' then (c as int - 32) as char else c
  }

  function ToLower(s: string): (r: string)
    ensures |r| == |s| && forall i :: 0 <= i < |s| ==> r[i] == Lower(s[i])
  {
    seq(|s|, i requires 0 <= i < |s| => Lower(s[i]))
  }

  function ToUpper(s: string): (r: string)
    ensures |r| == |s| && forall i :: 0 <= i < |s| ==> r[i] == Upper(s[i])
  {
    seq(|s|, i requires 0 <= i < |s| => Upper(s[i]))
  }

  predicate IsDigit(c: char) {
    '0' <= c <= '9'
  }

  predicate IsSpace(c: char) {
    c == ' ' || c == '\t' || c == '\n' || c == '\r' || c == 11 as char || c == 12 as char
  }

  predicate Blank(s: string) {
    forall i :: 0 <= i < |s| ==> IsSpace(s[i])
  }

  function TrimLeft(s: string): string {
    if s != "" && IsSpace(s[0]) then TrimLeft(s[1..]) else s
  }

  function TrimRight(s: string): string {
    if s != "" && IsSpace(s[|s| - 1]) then TrimRight(s[..|s| - 1]) else s
  }

  function TrimSpace(s: string): string {
    TrimRight(TrimLeft(s))
  }

  /** The order of texts by their characters. */
  predicate TextLess(s: string, t: string) {
    if t == "" then false
    else if s == "" then true
    else s[0] < t[0] || (s[0] == t[0] && TextLess(s[1..], t[1..]))
  }

  lemma {:induction false} TextLessIrreflexive(s: string)
    ensures !TextLess(s, s)
  {
    if s != "" {
      TextLessIrreflexive(s[1..]);
    }
  }

  lemma {:induction false} TextLessTransitive(s: string, t: string, u: string)
    requires TextLess(s, t) && TextLess(t, u)
    ensures TextLess(s, u)
  {
    if s != "" && s[0] == t[0] == u[0] {
      TextLessTransitive(s[1..], t[1..], u[1..]);
    }
  }

  lemma {:induction false} TextLessTotal(s: string, t: string)
    ensures s == t || TextLess(s, t) || TextLess(t, s)
  {
    if s != "" && t != "" && s[0] == t[0] {
      TextLessTotal(s[1..], t[1..]);
      assert s == [s[0]] + s[1..] && t == [t[0]] + t[1..];
    }
  }

  /** Later texts are greater, so none is there twice. */
  ghost predicate Ascending(texts: seq<string>) {
    forall i, j :: 0 <= i < j < |texts| ==> TextLess(texts[i], texts[j])
  }

  /** The least of some texts. */
  method Least(texts: set<string>) returns (least: string)
    requires texts != {}
    ensures least in texts && forall s :: s in texts && s != least ==> TextLess(least, s)
  {
    least :| least in texts;
    var rest := texts - {least};
    while rest != {}
      invariant rest <= texts && least in texts && least !in rest
      invariant forall s :: s in texts && s != least && s !in rest ==> TextLess(least, s)
    {
      var s :| s in rest;
      rest := rest - {s};
      TextLessTotal(least, s);
      if TextLess(s, least) {
        forall u | u in texts && u != least && u !in rest && u != s
          ensures TextLess(s, u)
        {
          TextLessTransitive(s, least, u);
        }
        least := s;
      }
    }
  }

  /** All texts in order. */
  method SortedTexts(texts: set<string>) returns (sorted: seq<string>)
    ensures Ascending(sorted)
    ensures forall s :: s in sorted <==> s in texts
  {
    sorted := [];
    var rest := texts;
    while rest != {}
      invariant rest <= texts
      invariant Ascending(sorted)
      invariant forall s :: s in sorted <==> s in texts && s !in rest
      invariant forall i, s :: 0 <= i < |sorted| && s in rest ==> TextLess(sorted[i], s)
    {
      var least := Least(rest);
      sorted := sorted + [least];
      rest := rest - {least};
    }
  }
}
