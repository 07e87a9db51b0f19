/** Decimal numerals: Go's strconv.Itoa and strconv.Atoi for 64-bit integers. */
module Numerals {
  import opened Text
  import opened Wrappers

  const MIN_INT: int := -0x8000_0000_0000_0000
  const MAX_INT: int := 0x7fff_ffff_ffff_ffff

  function Digits(n: int): string
    requires n >= 0
  {
    if n < 10 then [(48 + n) as char] else Digits(n / 10) + [(48 + n % 10) as char]
  }

  function Itoa(n: int): string {
    if n < 0 then "-" + Digits(-n) else Digits(n)
  }

  predicate AllDigits(s: string) {
    forall i :: 0 <= i < |s| ==> IsDigit(s[i])
  }

  function ValueOf(s: string): int
    requires AllDigits(s)
  {
    if s == "" then 0 else 10 * ValueOf(s[..|s| - 1]) + (s[|s| - 1] as int - 48)
  }

  /** An optional sign, then one or more digits, within 64 bits. */
  function Atoi(s: string): Option<int> {
    var digits := if s != "" && (s[0] == '-' || s[0] == '+') then s[1..] else s;
    if digits == "" || !AllDigits(digits) then None
    else
      var n := if s[0] == '-' then -ValueOf(digits) else ValueOf(digits);
      if MIN_INT <= n <= MAX_INT then Some(n) else None
  }

  lemma {:induction false} DigitsFacts(n: int)
    requires n >= 0
    ensures Digits(n) != "" && AllDigits(Digits(n)) && ValueOf(Digits(n)) == n
  {
    if n >= 10 {
      DigitsFacts(n / 10);
      assert Digits(n)[..|Digits(n)| - 1] == Digits(n / 10);
    } else {
      assert Digits(n)[..0] == "";
    }
  }

  /** Reading a written number gives it back. */
  lemma AtoiOfItoa(n: int)
    requires MIN_INT <= n <= MAX_INT
    ensures Atoi(Itoa(n)) == Some(n)
  {
    if n < 0 {
      DigitsFacts(-n);
      assert Itoa(n)[1..] == Digits(-n);
    } else {
      DigitsFacts(n);
      assert Digits(n)[0] != '-' && Digits(n)[0] != '+';
    }
  }

  /** Written numbers start with a minus sign or a digit, and have only digits after that. */
  lemma ItoaShape(n: int)
    ensures Itoa(n) != ""
    ensures n >= 0 ==> AllDigits(Itoa(n))
    ensures n < 0 ==> Itoa(n)[0] == '-' && AllDigits(Itoa(n)[1..])
    ensures TrimSpace(Itoa(n)) == Itoa(n)
  {
    DigitsFacts(if n < 0 then -n else n);
    TrimOfSolid(Itoa(n));
  }

  lemma TrimOfSolid(s: string)
    requires s != "" && !IsSpace(s[0]) && !IsSpace(s[|s| - 1])
    ensures TrimSpace(s) == s
  {
  }
}
