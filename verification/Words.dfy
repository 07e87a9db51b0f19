/** Cutting a text at a separator, and joining the pieces. */
module Words {

  function Split(s: string, separator: char): seq<string> {
    SplitFrom(s, separator, "")
  }

  function SplitFrom(s: string, separator: char, word: string): (words: seq<string>)
    ensures |words| >= 1
    decreases |s|
  {
    if s == "" then [word]
    else if s[0] == separator then [word] + SplitFrom(s[1..], separator, "")
    else SplitFrom(s[1..], separator, word + [s[0]])
  }

  function Join(words: seq<string>, separator: string): string {
    if words == [] then "" else if |words| == 1 then words[0]
    else words[0] + separator + Join(words[1..], separator)
  }

  predicate NoneHas(words: seq<string>, c: char) {
    forall i :: 0 <= i < |words| ==> c !in words[i]
  }

  lemma {:induction false} SplitHasNone(s: string, separator: char, word: string)
    requires separator !in word
    ensures NoneHas(SplitFrom(s, separator, word), separator)
    decreases |s|
  {
    if s == "" {
    } else if s[0] == separator {
      SplitHasNone(s[1..], separator, "");
    } else {
      SplitHasNone(s[1..], separator, word + [s[0]]);
    }
  }

  lemma JoinOfMore(word: string, rest: seq<string>, separator: string)
    requires rest != []
    ensures Join([word] + rest, separator) == word + separator + Join(rest, separator)
  {
    assert ([word] + rest)[1..] == rest;
  }

  lemma FirstMoved(word: string, s: string)
    requires s != ""
    ensures word + [s[0]] + s[1..] == word + s && "" + s[1..] == s[1..]
  {
  }

  /** Joining what was split gives it back. */
  lemma {:induction false} JoinOfSplit(s: string, separator: char, word: string)
    ensures Join(SplitFrom(s, separator, word), [separator]) == word + s
    decreases |s|
  {
    if s == "" {
      assert word + s == word;
    } else {
      FirstMoved(word, s);
      if s[0] == separator {
        JoinOfSplit(s[1..], separator, "");
        JoinOfMore(word, SplitFrom(s[1..], separator, ""), [separator]);
      } else {
        JoinOfSplit(s[1..], separator, word + [s[0]]);
      }
    }
  }

  lemma {:induction false} SplitOfWord(word: string, rest: string, separator: char, before: string)
    requires separator !in word && (rest == "" || rest[0] == separator)
    ensures SplitFrom(word + rest, separator, before)
         == [before + word] + (if rest == "" then [] else SplitFrom(rest[1..], separator, ""))
    decreases |word|
  {
    if word == "" {
      assert word + rest == rest && before + word == before;
    } else {
      assert (word + rest)[0] == word[0] && (word + rest)[1..] == word[1..] + rest;
      SplitOfWord(word[1..], rest, separator, before + [word[0]]);
      assert before + [word[0]] + word[1..] == before + word;
    }
  }

  /** Splitting what was joined gives it back. */
  lemma {:induction false} SplitOfJoin(words: seq<string>, separator: char)
    requires words != [] && NoneHas(words, separator)
    ensures Split(Join(words, [separator]), separator) == words
  {
    if |words| == 1 {
      SplitOfWord(words[0], "", separator, "");
      assert words[0] + "" == words[0] && "" + words[0] == words[0];
      assert [words[0]] + [] == words;
    } else {
      var rest := Join(words[1..], [separator]);
      SplitOfJoin(words[1..], separator);
      SplitOfWord(words[0], [separator] + rest, separator, "");
      assert ([separator] + rest)[1..] == rest;
      assert words[0] + ([separator] + rest) == words[0] + [separator] + rest;
      assert "" + words[0] == words[0] && [words[0]] + words[1..] == words;
    }
  }

  lemma {:induction false} JoinOfBoth(a: seq<string>, b: seq<string>, separator: string)
    requires a != [] && b != []
    ensures Join(a + b, separator) == Join(a, separator) + separator + Join(b, separator)
  {
    assert (a + b)[1..] == a[1..] + b;
    if |a| == 1 {
      assert a[1..] + b == b;
    } else {
      JoinOfBoth(a[1..], b, separator);
      JoinedOn(a[0], separator, Join(a[1..], separator), Join(b, separator));
    }
  }

  lemma JoinedOn(word: string, separator: string, rest: string, more: string)
    ensures word + separator + (rest + separator + more) == (word + separator + rest) + separator + more
  {
  }

  lemma {:induction false} SplitOfBoth(s: string, t: string, separator: char, word: string)
    ensures SplitFrom(s + [separator] + t, separator, word)
         == SplitFrom(s, separator, word) + SplitFrom(t, separator, "")
    decreases |s|
  {
    var text := s + [separator] + t;
    if s == "" {
      assert text == [separator] + t && text[1..] == t;
    } else {
      assert text[0] == s[0] && text[1..] == s[1..] + [separator] + t;
      if s[0] == separator {
        SplitOfBoth(s[1..], t, separator, "");
      } else {
        SplitOfBoth(s[1..], t, separator, word + [s[0]]);
      }
    }
  }

  /** One text's words come first among another's exactly when it is that text, or ends where a separator follows. */
  lemma WordsComeFirst(s: string, t: string, separator: char)
    ensures Split(s, separator) <= Split(t, separator) <==> s == t || s + [separator] <= t
  {
    if s + [separator] <= t {
      var rest := t[|s| + 1..];
      assert t == s + [separator] + rest;
      SplitOfBoth(s, rest, separator, "");
    }
    if Split(s, separator) <= Split(t, separator) {
      var words, all := Split(s, separator), Split(t, separator);
      JoinOfSplit(s, separator, "");
      JoinOfSplit(t, separator, "");
      assert "" + s == s && "" + t == t;
      var rest := all[|words|..];
      assert all == words + rest;
      if rest == [] {
        assert words + rest == words;
      } else {
        JoinOfBoth(words, rest, [separator]);
      }
    }
  }
}
