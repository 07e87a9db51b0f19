/**
 Check-digit arithmetic: IBAN (MOD 97-10, ISO 13616-1 with ISO/IEC 7064) and payment cards (Luhn, Annex B
 of ISO/IEC 7812-1).

 Each loop is tied to the number it is about, and the errors that the check digits are for are proved to be
 caught.
 */
module CheckDigits {
  import opened Text

  predicate IsLetter(c: char) {
    'A' <= c <= 'Z'
  }

  /** A digit for a digit, or a letter for a letter. */
  predicate SameKind(c: char, d: char) {
    (IsDigit(c) && IsDigit(d)) || (IsLetter(c) && IsLetter(d))
  }

  predicate Expandable(s: string) {
    forall i :: 0 <= i < |s| ==> IsDigit(s[i]) || IsLetter(s[i])
  }

  /** The decimal value of a character: a letter stands for two digits, A for 10 up to Z for 35. */
  function Value(c: char): nat
    requires IsDigit(c) || IsLetter(c)
  {
    if IsDigit(c) then c as int - '0' as int else c as int - 'A' as int + 10
  }

  function Width(c: char): nat {
    if IsDigit(c) then 10 else 100
  }

  /** The integer written by a string with its letters expanded. */
  function Numeral(s: string): nat
    requires Expandable(s)
  {
    if s == "" then 0 else Numeral(s[..|s| - 1]) * Width(s[|s| - 1]) + Value(s[|s| - 1])
  }

  /** The check: rearranged, the number leaves remainder 1. */
  predicate IBAN(s: string) {
    && 15 <= |s| <= 34
    && Expandable(s)
    && Numeral(Rearranged(s)) % 97 == 1
  }

  function Rearranged(s: string): string
    requires |s| >= 4
  {
    s[4..] + s[..4]
  }

  function WithoutSpaces(s: string): string {
    if s == "" then "" else if s[0] == ' ' then WithoutSpaces(s[1..]) else [s[0]] + WithoutSpaces(s[1..])
  }

  /** Trimmed, without spaces, in upper case. */
  function Normalized(s: string): string {
    ToUpper(WithoutSpaces(TrimSpace(s)))
  }

  lemma ModStep(remainder: nat, number: nat, width: nat, value: nat)
    requires remainder == number % 97 && (width == 10 || width == 100)
    ensures (remainder * width + value) % 97 == (number * width + value) % 97
  {
    var q := number / 97;
    assert number * width + value == remainder * width + value + 97 * (q * width);
    ModOfMultiple(remainder * width + value, q * width);
  }

  lemma ModOfMultiple(a: int, q: int)
    ensures (a + 97 * q) % 97 == a % 97
  {
  }

  /** One more character: the remainder alone is enough to go on. */
  lemma RemainderStep(text: string, i: nat)
    requires i < |text| && Expandable(text[..i]) && (IsDigit(text[i]) || IsLetter(text[i]))
    ensures Expandable(text[..i + 1])
    ensures (Numeral(text[..i]) % 97 * Width(text[i]) + Value(text[i])) % 97 == Numeral(text[..i + 1]) % 97
  {
    var next := text[..i + 1];
    assert next[..i] == text[..i];
    assert forall k :: 0 <= k < i ==> next[k] == text[..i][k];
    ModStep(Numeral(text[..i]) % 97, Numeral(text[..i]), Width(text[i]), Value(text[i]));
  }

  /** The loop keeps only the remainder, and rejects any other character when it meets it. */
  method ValidIBAN(raw: string) returns (valid: bool)
    ensures valid == IBAN(Normalized(raw))
  {
    var value := Normalized(raw);
    if |value| < 15 || |value| > 34 {
      return false;
    }
    RearrangedExpandable(value);
    valid := LeavesOne(value[4..] + value[..4]);
  }

  method LeavesOne(rearranged: string) returns (valid: bool)
    ensures valid == (Expandable(rearranged) && Numeral(rearranged) % 97 == 1)
  {
    var remainder := 0;
    for i := 0 to |rearranged|
      invariant Expandable(rearranged[..i])
      invariant remainder == Numeral(rearranged[..i]) % 97
    {
      var c := rearranged[i];
      if IsDigit(c) {
        RemainderStep(rearranged, i);
        remainder := (remainder * 10 + (c as int - '0' as int)) % 97;
      } else if IsLetter(c) {
        RemainderStep(rearranged, i);
        var number := c as int - 'A' as int + 10;
        remainder := (remainder * 100 + number) % 97;
      } else {
        return false;
      }
    }
    assert rearranged[..|rearranged|] == rearranged;
    return remainder == 1;
  }

  lemma RearrangedExpandable(s: string)
    requires |s| >= 4
    ensures Expandable(Rearranged(s)) <==> Expandable(s)
  {
    var r := Rearranged(s);
    if Expandable(r) {
      forall i | 0 <= i < |s|
        ensures IsDigit(s[i]) || IsLetter(s[i])
      {
        assert s[i] == r[if i < 4 then |s| - 4 + i else i - 4];
      }
    }
  }

  // ----- Errors that the IBAN check catches -----

  lemma StepIsInjective(x: nat, y: nat, width: nat, value: nat)
    requires x % 97 != y % 97 && (width == 10 || width == 100)
    ensures (x * width + value) % 97 != (y * width + value) % 97
  {
    if (x * width + value) % 97 == (y * width + value) % 97 {
      SameRemainder(x * width + value, y * width + value);
      var k := (x * width - y * width) / 97;
      // 68 and 65 are the inverses of 10 and 100.
      if width == 10 {
        assert 680 * (x - y) == 97 * (68 * k);
        assert x == y + 97 * (68 * k - 7 * (x - y));
        ModOfMultiple(y, 68 * k - 7 * (x - y));
      } else {
        assert 6500 * (x - y) == 97 * (65 * k);
        assert x == y + 97 * (65 * k - 67 * (x - y));
        ModOfMultiple(y, 65 * k - 67 * (x - y));
      }
      assert false;
    }
  }

  lemma StillApart(x: nat, y: nat, width: nat, value: nat, nextX: nat, nextY: nat)
    requires x % 97 != y % 97 && (width == 10 || width == 100)
    requires nextX == x * width + value && nextY == y * width + value
    ensures nextX % 97 != nextY % 97
  {
    StepIsInjective(x, y, width, value);
  }

  lemma OneMoreCharacter(s: string, c: char)
    requires Expandable(s) && (IsDigit(c) || IsLetter(c))
    ensures Expandable(s + [c]) && Numeral(s + [c]) == Numeral(s) * Width(c) + Value(c)
  {
    assert (s + [c])[..|s|] == s;
  }

  lemma DifferenceStep(a: string, b: string, c: char)
    requires Expandable(a) && Expandable(b) && (IsDigit(c) || IsLetter(c))
    requires Numeral(a) % 97 != Numeral(b) % 97
    ensures Expandable(a + [c]) && Expandable(b + [c])
    ensures Numeral(a + [c]) % 97 != Numeral(b + [c]) % 97
  {
    OneMoreCharacter(a, c);
    OneMoreCharacter(b, c);
    StillApart(Numeral(a), Numeral(b), Width(c), Value(c), Numeral(a + [c]), Numeral(b + [c]));
  }

  lemma LastBehind(a: string, tail: string)
    requires tail != ""
    ensures a + tail[..|tail| - 1] + [tail[|tail| - 1]] == a + tail
  {
  }

  /** Different remainders stay different through the same characters: 10 and 100 are prime to 97. */
  lemma {:induction false} DifferenceSurvives(a: string, b: string, tail: string)
    requires Expandable(a) && Expandable(b) && Expandable(tail)
    requires Numeral(a) % 97 != Numeral(b) % 97
    ensures Expandable(a + tail) && Expandable(b + tail)
    ensures Numeral(a + tail) % 97 != Numeral(b + tail) % 97
  {
    if tail == "" {
      assert a + tail == a && b + tail == b;
    } else {
      var front, c := tail[..|tail| - 1], tail[|tail| - 1];
      DifferenceSurvives(a, b, front);
      DifferenceStep(a + front, b + front, c);
      LastBehind(a, tail);
      LastBehind(b, tail);
    }
  }

  lemma SameRemainder(a: int, b: int)
    requires a % 97 == b % 97
    ensures a - b == 97 * ((a - b) / 97)
  {
  }

  /** The strings differ at `i` and nowhere else. */
  ghost predicate DifferAt(s: string, t: string, i: nat) {
    && |s| == |t| && i < |s| && s[i] != t[i]
    && forall k :: 0 <= k < |s| && k != i ==> s[k] == t[k]
  }

  /** One wrong character of the same kind changes the remainder. */
  lemma SubstitutionChangesRemainder(s: string, t: string, i: nat)
    requires Expandable(s) && Expandable(t) && DifferAt(s, t, i) && SameKind(s[i], t[i])
    ensures Numeral(s) % 97 != Numeral(t) % 97
  {
    var head, tail := s[..i], s[i + 1..];
    assert s == head + [s[i]] + tail;
    assert t == head + [t[i]] + tail;
    var x, y := head + [s[i]], head + [t[i]];
    assert x[..i] == head && y[..i] == head;
    SmallDifference(Numeral(head) * Width(s[i]), Value(s[i]), Value(t[i]));
    DifferenceSurvives(x, y, tail);
  }

  lemma SmallDifference(base: nat, v: nat, w: nat)
    requires v < 97 && w < 97 && v != w
    ensures (base + v) % 97 != (base + w) % 97
  {
  }

  /** No two accepted IBANs differ in exactly one character that is a digit for a digit or a letter for a letter. */
  lemma IBANCatchesSubstitution(s: string, t: string, i: nat)
    requires IBAN(s) && DifferAt(s, t, i) && SameKind(s[i], t[i])
    ensures !IBAN(t)
  {
    if IBAN(t) {
      RearrangedExpandable(s);
      RearrangedExpandable(t);
      SubstitutionChangesRemainder(Rearranged(s), Rearranged(t), if i < 4 then |s| - 4 + i else i - 4);
      assert false;
    }
  }

  /** The same of the strings as they are found, spaces and small letters included. */
  lemma RawIBANCatchesSubstitution(s: string, t: string, i: nat)
    requires DifferAt(s, t, i) && SameKind(Upper(s[i]), Upper(t[i])) && Upper(s[i]) != Upper(t[i])
    requires IBAN(Normalized(s))
    ensures !IBAN(Normalized(t))
  {
    var k := NormalizedDiffersOnce(s, t, i);
    IBANCatchesSubstitution(Normalized(s), Normalized(t), k);
  }

  lemma NormalizedDiffersOnce(s: string, t: string, i: nat) returns (k: nat)
    requires DifferAt(s, t, i) && SameKind(Upper(s[i]), Upper(t[i])) && Upper(s[i]) != Upper(t[i])
    ensures DifferAt(Normalized(s), Normalized(t), k)
    ensures Normalized(s)[k] == Upper(s[i]) && Normalized(t)[k] == Upper(t[i])
  {
    var k1 := TrimLeftDiffersOnce(s, t, i);
    var k2 := TrimRightDiffersOnce(TrimLeft(s), TrimLeft(t), k1);
    k := WithoutSpacesDiffersOnce(TrimSpace(s), TrimSpace(t), k2);
  }

  lemma {:induction false} TrimLeftDiffersOnce(s: string, t: string, i: nat) returns (k: nat)
    requires DifferAt(s, t, i) && !IsSpace(s[i]) && !IsSpace(t[i])
    ensures DifferAt(TrimLeft(s), TrimLeft(t), k) && TrimLeft(s)[k] == s[i] && TrimLeft(t)[k] == t[i]
  {
    if IsSpace(s[0]) {
      k := TrimLeftDiffersOnce(s[1..], t[1..], i - 1);
    } else {
      k := i;
    }
  }

  lemma {:induction false} TrimRightDiffersOnce(s: string, t: string, i: nat) returns (k: nat)
    requires DifferAt(s, t, i) && !IsSpace(s[i]) && !IsSpace(t[i])
    ensures DifferAt(TrimRight(s), TrimRight(t), k) && TrimRight(s)[k] == s[i] && TrimRight(t)[k] == t[i]
  {
    if IsSpace(s[|s| - 1]) {
      k := TrimRightDiffersOnce(s[..|s| - 1], t[..|t| - 1], i);
    } else {
      k := i;
    }
  }

  lemma {:induction false} WithoutSpacesDiffersOnce(s: string, t: string, i: nat) returns (k: nat)
    requires DifferAt(s, t, i) && s[i] != ' ' && t[i] != ' '
    ensures DifferAt(WithoutSpaces(s), WithoutSpaces(t), k)
    ensures WithoutSpaces(s)[k] == s[i] && WithoutSpaces(t)[k] == t[i]
  {
    if i == 0 {
      assert s[1..] == t[1..];
      k := 0;
    } else {
      k := WithoutSpacesDiffersOnce(s[1..], t[1..], i - 1);
      if s[0] != ' ' {
        k := k + 1;
      }
    }
  }

  lemma NumeralOfPair(head: string, c: char, d: char)
    requires Expandable(head) && IsDigit(c) && IsDigit(d)
    ensures Expandable(head + [c, d]) && Numeral(head + [c, d]) == Numeral(head) * 100 + 10 * Value(c) + Value(d)
  {
    var pair := head + [c, d];
    assert pair[..|pair| - 1] == head + [c];
    assert (head + [c])[..|head|] == head;
  }

  lemma SwapChangesRemainder(head: string, c: char, d: char, tail: string)
    requires Expandable(head) && Expandable(tail) && IsDigit(c) && IsDigit(d) && c != d
    ensures Expandable(head + [c, d] + tail) && Expandable(head + [d, c] + tail)
    ensures Numeral(head + [c, d] + tail) % 97 != Numeral(head + [d, c] + tail) % 97
  {
    NumeralOfPair(head, c, d);
    NumeralOfPair(head, d, c);
    SmallDifference(Numeral(head) * 100 + Value(c) + Value(d), 9 * Value(c), 9 * Value(d));
    DifferenceSurvives(head + [c, d], head + [d, c], tail);
  }

  /** Swapping two neighbouring digits that stay neighbours when the first four characters move to the end. */
  lemma NeighboursSwapped(r: string, u: string, j: nat)
    requires Expandable(r) && |u| == |r| && j + 1 < |r|
    requires IsDigit(r[j]) && IsDigit(r[j + 1]) && r[j] != r[j + 1]
    requires u == r[j := r[j + 1]][j + 1 := r[j]]
    ensures Expandable(u) && Numeral(r) % 97 != Numeral(u) % 97
  {
    var head, tail := r[..j], r[j + 2..];
    assert r == head + [r[j], r[j + 1]] + tail;
    assert u == head + [r[j + 1], r[j]] + tail;
    assert Expandable(head) && Expandable(tail);
    SwapChangesRemainder(head, r[j], r[j + 1], tail);
  }

  // The fourth and the fifth character become the last and the first. There the powers of ten come in.

  /** Ten to the power of `k`, modulo 97. */
  function Power(k: nat): (p: int)
    ensures 0 <= p < 97
  {
    if k == 0 then 1 else Power(k - 1) * 10 % 97
  }

  lemma NextSix(k: nat, p: int)
    requires Power(k) == p
    ensures Power(k + 1) == p * 10 % 97 && Power(k + 2) == p * 100 % 97 && Power(k + 3) == p * 1000 % 97
    ensures Power(k + 4) == p * 10000 % 97 && Power(k + 5) == p * 100000 % 97 && Power(k + 6) == p * 1000000 % 97
  {
    ModStep(p * 10 % 97, p * 10, 10, 0);
    ModStep(p * 100 % 97, p * 100, 10, 0);
    ModStep(p * 1000 % 97, p * 1000, 10, 0);
    ModStep(p * 10000 % 97, p * 10000, 10, 0);
    ModStep(p * 100000 % 97, p * 100000, 10, 0);
  }

  lemma SixAreNotOne(k: nat, p: int, j: nat)
    requires Power(k) == p && 1 <= j <= 6
    requires p * 10 % 97 != 1 && p * 100 % 97 != 1 && p * 1000 % 97 != 1
    requires p * 10000 % 97 != 1 && p * 100000 % 97 != 1 && p * 1000000 % 97 != 1
    ensures Power(k + j) != 1
  {
    NextSix(k, p);
  }

  lemma SixOn(k: nat, p: int, q: int)
    requires Power(k) == p && p * 1000000 % 97 == q
    ensures Power(k + 6) == q
  {
    NextSix(k, p);
  }

  /** The powers of ten to every sixth exponent, by how many blocks of six are left. */
  predicate BlockStart(p: int, blocks: nat) {
    || (blocks == 11 && p == 1) || (blocks == 10 && p == 27) || (blocks == 9 && p == 50) || (blocks == 8 && p == 89)
    || (blocks == 7 && p == 75) || (blocks == 6 && p == 85) || (blocks == 5 && p == 64) || (blocks == 4 && p == 79)
    || (blocks == 3 && p == 96) || (blocks == 2 && p == 70) || (blocks == 1 && p == 47)
  }

  lemma BlockFacts(p: int, blocks: nat)
    requires BlockStart(p, blocks)
    ensures p * 10 % 97 != 1 && p * 100 % 97 != 1 && p * 1000 % 97 != 1
    ensures p * 10000 % 97 != 1 && p * 100000 % 97 != 1 && p * 1000000 % 97 != 1
    ensures blocks > 1 ==> BlockStart(p * 1000000 % 97, blocks - 1)
  {
  }

  /** Ten has order 96 modulo 97, so no numeral of an IBAN's length brings it back to one. */
  lemma {:induction false} PowerIsNotOne(k: nat, p: int, blocks: nat, j: nat)
    requires Power(k) == p && BlockStart(p, blocks) && 1 <= j <= 6 * blocks
    ensures Power(k + j) != 1
    decreases blocks
  {
    BlockFacts(p, blocks);
    if j <= 6 {
      SixAreNotOne(k, p, j);
    } else {
      SixOn(k, p, p * 1000000 % 97);
      PowerIsNotOne(k + 6, p * 1000000 % 97, blocks - 1, j - 6);
    }
  }

  /** How many decimal places the string takes. */
  function Places(s: string): (k: nat)
    ensures |s| <= k <= 2 * |s|
  {
    if s == "" then 0 else Places(s[..|s| - 1]) + (if IsDigit(s[|s| - 1]) then 1 else 2)
  }

  lemma ShiftTwice(p: int)
    requires 0 <= p
    ensures p * 10 % 97 * 10 % 97 == p * 100 % 97
  {
    ModStep(p * 10 % 97, p * 10, 10, 0);
  }

  lemma WidthShifts(k: nat, c: char)
    requires IsDigit(c) || IsLetter(c)
    ensures Power(k + (if IsDigit(c) then 1 else 2)) == Power(k) * Width(c) % 97
  {
    if !IsDigit(c) {
      assert Power(k + 2) == Power(k + 1) * 10 % 97;
      ShiftTwice(Power(k));
    }
  }

  /** What a digit in front of `t` makes the remainder. */
  predicate InFront(c: char, t: string)
    requires IsDigit(c) && Expandable(t) && Expandable([c] + t)
  {
    Numeral([c] + t) % 97 == (Value(c) * Power(Places(t)) + Numeral(t)) % 97
  }

  lemma NotNegative(a: int, b: int)
    requires 0 <= a && 0 <= b
    ensures 0 <= a * b
  {
  }

  lemma InFrontStep(c: char, front: string, d: char)
    requires IsDigit(c) && Expandable(front) && Expandable([c] + front) && InFront(c, front)
    requires IsDigit(d) || IsLetter(d)
    ensures Expandable(front + [d]) && Expandable([c] + (front + [d])) && InFront(c, front + [d])
  {
    var t := front + [d];
    assert t[..|front|] == front && ([c] + t)[..|t|] == [c] + front;
    WidthShifts(Places(front), d);
    NotNegative(Value(c), Power(Places(front)));
    FrontStep(Value(c), Power(Places(front)), Numeral(front), Numeral([c] + front), Width(d), Value(d));
  }

  lemma DigitAlone(c: char)
    requires IsDigit(c)
    ensures Expandable([c] + "") && InFront(c, "")
  {
    assert [c] + "" == [c] && [c][..0] == "";
    assert Places("") == 0 && Power(0) == 1 && Numeral("") == 0;
    assert Numeral([c]) == Numeral("") * Width(c) + Value(c) == Value(c);
  }

  /** A digit in front counts with the power of the places behind it. */
  lemma {:induction false} DigitInFront(c: char, t: string)
    requires IsDigit(c) && Expandable(t)
    ensures Expandable([c] + t) && InFront(c, t)
  {
    if t == "" {
      DigitAlone(c);
    } else {
      DigitInFront(c, t[..|t| - 1]);
      InFrontStep(c, t[..|t| - 1], t[|t| - 1]);
      assert t[..|t| - 1] + [t[|t| - 1]] == t;
    }
  }

  lemma ScaledRemainder(c: int, x: int, rest: int)
    ensures (c * x + rest) % 97 == (c * (x % 97) + rest) % 97
  {
    var q, r := x / 97, x % 97;
    assert c * (97 * q + r) == 97 * (c * q) + c * r;
    ModOfMultiple(c * r + rest, c * q);
  }

  lemma Shifted(c: int, p: int, n: int, width: int, value: int)
    requires width == 10 || width == 100
    ensures (c * p + n) * width + value == c * (p * width) + (n * width + value)
  {
    var product := c * p;
    if width == 10 {
      assert c * (p * 10) == product * 10;
    } else {
      assert c * (p * 100) == product * 100;
    }
  }

  lemma FrontStep(c: int, p: int, n: int, whole: int, width: nat, value: int)
    requires whole % 97 == (c * p + n) % 97 && (width == 10 || width == 100)
    requires 0 <= c * p && 0 <= n && 0 <= whole && 0 <= value
    ensures (whole * width + value) % 97 == (c * (p * width % 97) + (n * width + value)) % 97
  {
    ModStep(whole % 97, whole, width, value);
    ModStep(whole % 97, c * p + n, width, value);
    Shifted(c, p, n, width, value);
    ScaledRemainder(c, p * width, n * width + value);
  }

  lemma NoZeroMultiple(y: int, q: int)
    requires 1 <= y <= 95
    ensures 2 * y != 97 * q && 3 * y != 97 * q && 4 * y != 97 * q && 5 * y != 97 * q
    ensures 6 * y != 97 * q && 7 * y != 97 * q && 8 * y != 97 * q && 9 * y != 97 * q
  {
  }

  lemma NoZeroProduct(x: int, y: int)
    requires 1 <= x <= 9 && 1 <= y <= 95
    ensures x * y % 97 != 0
  {
    var q := x * y / 97;
    NoZeroMultiple(y, q);
    assert x * y != 97 * q by {
      match x {
        case 1 => assert x * y == y;
        case 2 => assert x * y == 2 * y;
        case 3 => assert x * y == 3 * y;
        case 4 => assert x * y == 4 * y;
        case 5 => assert x * y == 5 * y;
        case 6 => assert x * y == 6 * y;
        case 7 => assert x * y == 7 * y;
        case 8 => assert x * y == 8 * y;
        case _ => assert x * y == 9 * y;
      }
    }
  }

  /** The remainder of a numeral from its first digit, what is between, and its last digit. */
  function FromEnds(c: int, p: int, n: int, d: int): int {
    (c * p + (n * 10 + d)) % 97
  }

  lemma EndsDiffer(c: int, d: int, p: int, n: int)
    requires 0 <= c <= 9 && 0 <= d <= 9 && c != d && 0 <= p < 97 && p != 1 && p != 0
    ensures FromEnds(c, p, n, d) != FromEnds(d, p, n, c)
  {
    var left, right := c * p + (n * 10 + d), d * p + (n * 10 + c);
    if left % 97 == right % 97 {
      SameRemainder(left, right);
      assert left - right == (c - d) * (p - 1);
      if c > d {
        NoZeroProduct(c - d, p - 1);
      } else {
        SameRemainder(right, left);
        assert right - left == (d - c) * (p - 1);
        NoZeroProduct(d - c, p - 1);
      }
      assert false;
    }
  }

  lemma TenTimesIsNotZero(p: int)
    requires 1 <= p < 97
    ensures p * 10 % 97 != 0
  {
    var q := p * 10 / 97;
    assert p * 10 != 97 * q;
  }

  lemma {:induction false} PowerIsNotZero(k: nat)
    ensures Power(k) != 0
  {
    if k == 0 {
      assert Power(0) == 1;
    } else {
      PowerIsNotZero(k - 1);
      TenTimesIsNotZero(Power(k - 1));
    }
  }

  lemma ShortPower(k: nat)
    requires 1 <= k <= 66
    ensures Power(k) != 1 && Power(k) != 0
  {
    assert Power(0) == 1;
    PowerIsNotOne(0, 1, 11, k);
    PowerIsNotZero(k);
  }

  lemma DigitValues(c: char, d: char)
    requires IsDigit(c) && IsDigit(d) && c != d
    ensures 0 <= Value(c) <= 9 && 0 <= Value(d) <= 9 && Value(c) != Value(d)
  {
    assert c as int != d as int;
  }

  /** Swapping the first and the last digit. */
  lemma EndsSwapped(c: char, middle: string, d: char)
    requires Expandable(middle) && |middle| <= 32 && IsDigit(c) && IsDigit(d) && c != d
    ensures Expandable([c] + middle + [d]) && Expandable([d] + middle + [c])
    ensures Numeral([c] + middle + [d]) % 97 != Numeral([d] + middle + [c]) % 97
  {
    var places := Places(middle) + 1;
    EndsInFront(c, middle, d);
    EndsInFront(d, middle, c);
    ShortPower(places);
    DigitValues(c, d);
    EndsDiffer(Value(c), Value(d), Power(places), Numeral(middle));
  }

  lemma EndsInFront(c: char, middle: string, d: char)
    requires Expandable(middle) && IsDigit(c) && IsDigit(d)
    ensures Expandable([c] + middle + [d])
    ensures Numeral([c] + middle + [d]) % 97
         == FromEnds(Value(c), Power(Places(middle) + 1), Numeral(middle), Value(d))
  {
    var t := middle + [d];
    assert t[..|middle|] == middle;
    assert Expandable(t);
    DigitInFront(c, t);
    assert [c] + t == [c] + middle + [d];
  }

  /** Swapping any two neighbouring digits of an accepted IBAN makes it rejected. */
  lemma IBANCatchesTransposition(s: string, t: string, i: nat)
    requires IBAN(s) && |t| == |s| && i + 1 < |s|
    requires IsDigit(s[i]) && IsDigit(s[i + 1]) && s[i] != s[i + 1]
    requires t == s[i := s[i + 1]][i + 1 := s[i]]
    ensures !IBAN(t)
  {
    var r, u := Rearranged(s), Rearranged(t);
    if i == 3 {
      var middle := s[5..] + s[..3];
      assert r == [s[4]] + middle + [s[3]];
      assert u == [s[3]] + middle + [s[4]];
      assert Expandable(middle);
      EndsSwapped(s[4], middle, s[3]);
    } else {
      RearrangedExpandable(s);
      var j := if i < 4 then |s| - 4 + i else i - 4;
      assert u == r[j := r[j + 1]][j + 1 := r[j]];
      NeighboursSwapped(r, u, j);
    }
  }

  // ----- Which check digits complete a number -----

  /** An IBAN is a country code, two check digits, and the account behind them: in the number they come last. */
  lemma CheckDigitsComeLast(country: string, x: char, y: char, account: string)
    requires |country| == 2 && Expandable(country) && Expandable(account) && IsDigit(x) && IsDigit(y)
    ensures
      var s := country + [x, y] + account;
      && Rearranged(s) == account + country + [x] + [y]
      && Expandable(s) && Expandable(account + country) && Expandable(Rearranged(s))
      && Numeral(Rearranged(s)) == Numeral(account + country) * 100 + 10 * Value(x) + Value(y)
  {
    var s := country + [x, y] + account;
    assert s[..4] == country + [x, y] && s[4..] == account;
    assert account + (country + [x, y]) == account + country + [x] + [y];
    OneMoreCharacter(account + country, x);
    OneMoreCharacter(account + country + [x], y);
  }

  lemma RemainderWithCheck(number: int, check: int)
    ensures (number + check) % 97 == (number % 97 + check) % 97
    ensures check == 98 - number % 97 ==> (number % 97 + check) % 97 == 1
  {
  }

  /** The value of the check digits that completes the account: 98 less the remainder with zeros in their place. */
  function CheckValue(country: string, account: string): int
    requires Expandable(account + country)
  {
    98 - Numeral(account + country) * 100 % 97
  }

  lemma IBANCompletes(country: string, x: char, y: char, account: string)
    requires |country| == 2 && Expandable(country) && Expandable(account) && IsDigit(x) && IsDigit(y)
    requires 11 <= |account| <= 30 && Expandable(account + country)
    ensures IBAN(country + [x, y] + account)
       <==> (98 - CheckValue(country, account) + (10 * Value(x) + Value(y))) % 97 == 1
    ensures 10 * Value(x) + Value(y) == CheckValue(country, account) ==> IBAN(country + [x, y] + account)
  {
    CheckDigitsComeLast(country, x, y, account);
    RemainderWithCheck(Numeral(account + country) * 100, 10 * Value(x) + Value(y));
  }

  // ----- Luhn -----

  /** A digit's contribution: doubled at every second place, with nine taken off above nine. */
  function Weight(d: int, twice: bool): int {
    if !twice then d else if 2 * d > 9 then 2 * d - 9 else 2 * d
  }

  predicate DigitByte(b: int) {
    48 <= b <= 57
  }

  predicate Bytes(s: seq<int>) {
    forall i :: 0 <= i < |s| ==> 0 <= s[i] < 256
  }

  predicate AllDigits(s: seq<int>) {
    forall i :: 0 <= i < |s| ==> DigitByte(s[i])
  }

  /** Whether the digit at `i` is doubled: the last one is not, and every second one before it is. */
  predicate Doubled(s: seq<int>, i: int) {
    (|s| - 1 - i) % 2 == 1
  }

  /** The sum of the last characters, from `i` on. */
  function LuhnSum(s: seq<int>, i: int): int
    requires 0 <= i <= |s|
    decreases |s| - i
  {
    if i == |s| then 0 else Weight(s[i] - 48, Doubled(s, i)) + LuhnSum(s, i + 1)
  }

  predicate Luhn(s: seq<int>) {
    AllDigits(s) && LuhnSum(s, 0) > 0 && LuhnSum(s, 0) % 10 == 0
  }

  /** The loop runs from the last digit; subtracting '0' from a smaller byte wraps round to a large one. */
  method ValidLuhn(digits: seq<int>) returns (valid: bool)
    requires Bytes(digits)
    ensures valid == Luhn(digits)
  {
    var sum := 0;
    var twice := false;
    var index := |digits|;
    while index > 0
      invariant 0 <= index <= |digits|
      invariant forall i :: index <= i < |digits| ==> DigitByte(digits[i])
      invariant sum == LuhnSum(digits, index)
      invariant twice == ((|digits| - index) % 2 == 1)
    {
      index := index - 1;
      var value := (digits[index] - 48) % 256;
      if value < 0 || value > 9 {
        assert !DigitByte(digits[index]);
        return false;
      }
      if twice {
        value := value * 2;
        if value > 9 {
          value := value - 9;
        }
      }
      sum := sum + value;
      twice := !twice;
    }
    return sum > 0 && sum % 10 == 0;
  }

  /** Changing places before `i` does not change the sum from `i` on. */
  lemma {:induction false} LuhnSumFrom(s: seq<int>, t: seq<int>, i: int)
    requires |s| == |t| && 0 <= i <= |s| && forall k :: i <= k < |s| ==> s[k] == t[k]
    ensures LuhnSum(s, i) == LuhnSum(t, i)
    decreases |s| - i
  {
    if i < |s| {
      LuhnSumFrom(s, t, i + 1);
    }
  }

  /** Where the places before `j` agree, the whole sums differ by as much as the sums from `j` on. */
  lemma {:induction false} LuhnSumUpTo(s: seq<int>, t: seq<int>, i: int, j: int)
    requires |s| == |t| && 0 <= i <= j <= |s| && forall k :: i <= k < j ==> s[k] == t[k]
    ensures LuhnSum(s, i) - LuhnSum(s, j) == LuhnSum(t, i) - LuhnSum(t, j)
    decreases j - i
  {
    if i < j {
      LuhnSumUpTo(s, t, i + 1, j);
    }
  }

  /** Different digits have different weights, so the sum changes by something that ten does not divide. */
  lemma WeightsDiffer(sum: int, d: int, e: int, twice: bool)
    requires 0 <= d <= 9 && 0 <= e <= 9 && d != e && sum % 10 == 0
    ensures (sum + Weight(d, twice) - Weight(e, twice)) % 10 != 0
  {
  }

  /** Doubling one of two digits or the other gives the same sum modulo ten only for equal digits, or 0 and 9. */
  lemma WeightsSwapped(sum: int, d: int, e: int, twice: bool)
    requires 0 <= d <= 9 && 0 <= e <= 9 && d != e && sum % 10 == 0
    ensures
      var swapped := sum + Weight(e, twice) + Weight(d, !twice) - Weight(d, twice) - Weight(e, !twice);
      && (swapped % 10 == 0 <==> (d == 0 && e == 9) || (d == 9 && e == 0))
      && (swapped % 10 == 0 ==> swapped == sum)
  {
    assert Weight(d, true) - d == if d > 4 then d - 9 else d;
    assert Weight(e, true) - e == if e > 4 then e - 9 else e;
  }

  /** Changing one digit of an accepted number makes it rejected. */
  lemma LuhnCatchesSubstitution(s: seq<int>, i: nat, d: int)
    requires Luhn(s) && i < |s| && DigitByte(d) && d != s[i]
    ensures !Luhn(s[i := d])
  {
    var t := s[i := d];
    LuhnSumUpTo(s, t, 0, i);
    LuhnSumFrom(s, t, i + 1);
    assert Doubled(s, i) == Doubled(t, i);
    WeightsDiffer(LuhnSum(s, 0), d - 48, s[i] - 48, Doubled(s, i));
  }

  lemma TwoPlaces(s: seq<int>, i: nat, twice: bool)
    requires i + 1 < |s| && twice == Doubled(s, i)
    ensures LuhnSum(s, i) == Weight(s[i] - 48, twice) + Weight(s[i + 1] - 48, !twice) + LuhnSum(s, i + 2)
  {
    assert Doubled(s, i + 1) == !twice;
  }

  lemma SameDoubled(s: seq<int>, t: seq<int>, i: int)
    requires |s| == |t|
    ensures Doubled(s, i) == Doubled(t, i)
  {
  }

  lemma SwappedDigits(s: seq<int>, t: seq<int>, i: nat, twice: bool)
    requires AllDigits(s) && i + 1 < |s| && t == s[i := s[i + 1]][i + 1 := s[i]] && twice == Doubled(s, i)
    ensures AllDigits(t)
    ensures
      var d, e := s[i] - 48, s[i + 1] - 48;
      LuhnSum(t, 0)
      == LuhnSum(s, 0) + Weight(e, twice) + Weight(d, !twice) - Weight(d, twice) - Weight(e, !twice)
  {
    LuhnSumUpTo(s, t, 0, i);
    LuhnSumFrom(s, t, i + 2);
    SameDoubled(s, t, i);
    TwoPlaces(s, i, twice);
    TwoPlaces(t, i, twice);
  }

  /** Swapping two neighbouring different digits is caught exactly when they are not 0 and 9. */
  lemma LuhnCatchesTransposition(s: seq<int>, t: seq<int>, i: nat)
    requires Luhn(s) && i + 1 < |s| && s[i] != s[i + 1]
    requires t == s[i := s[i + 1]][i + 1 := s[i]]
    ensures Luhn(t) <==> (s[i] == 48 && s[i + 1] == 57) || (s[i] == 57 && s[i + 1] == 48)
  {
    var twice := Doubled(s, i);
    SwappedDigits(s, t, i, twice);
    WeightsSwapped(LuhnSum(s, 0), s[i] - 48, s[i + 1] - 48, twice);
  }

  /** The sum from the right: the last digit as it is, the one before it doubled, and so on. */
  function FromTheRight(s: seq<int>, twice: bool): int {
    if s == [] then 0 else Weight(s[|s| - 1] - 48, twice) + FromTheRight(s[..|s| - 1], !twice)
  }

  lemma {:induction false} OneMoreInFront(x: int, t: seq<int>, twice: bool)
    ensures FromTheRight([x] + t, twice)
         == FromTheRight(t, twice) + Weight(x - 48, if |t| % 2 == 1 then !twice else twice)
  {
    var all := [x] + t;
    if t == [] {
      assert all == [x] && [x][..0] == [];
      assert FromTheRight([x], twice) == Weight(x - 48, twice) + FromTheRight([], !twice);
    } else {
      assert all[..|all| - 1] == [x] + t[..|t| - 1];
      OneMoreInFront(x, t[..|t| - 1], !twice);
    }
  }

  lemma {:induction false} LuhnFromTheRight(s: seq<int>, i: nat)
    requires i <= |s|
    ensures LuhnSum(s, i) == FromTheRight(s[i..], false)
    decreases |s| - i
  {
    if i < |s| {
      LuhnFromTheRight(s, i + 1);
      assert s[i..] == [s[i]] + s[i + 1..];
      OneMoreInFront(s[i], s[i + 1..], false);
    }
  }

  /** Exactly one digit completes a number: what its sum, with the last digit doubled, lacks to a multiple of ten. */
  lemma LuhnCompletes(s: seq<int>, d: int)
    requires AllDigits(s) && DigitByte(d)
    ensures
      var sum := FromTheRight(s, true);
      Luhn(s + [d]) <==> d - 48 == (10 - sum % 10) % 10 && sum + (d - 48) > 0
  {
    var all := s + [d];
    assert all[0..] == all && all[..|s|] == s;
    LuhnFromTheRight(all, 0);
    Lacking(FromTheRight(s, true), d - 48);
  }

  lemma Lacking(sum: int, d: int)
    requires 0 <= d <= 9
    ensures (sum + d) % 10 == 0 <==> d == (10 - sum % 10) % 10
  {
  }
}
