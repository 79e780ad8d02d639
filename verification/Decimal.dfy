/** Integers as str() writes and int() reads them. */
module Decimal {
  import opened Types

  predicate IsDigit(c: char) {
    '0' <= c <= '9'
  }

  function DigitOf(d: int): char
    requires 0 <= d < 10
  {
    (48 + d) as char
  }

  function ValueOf(c: char): int
    requires IsDigit(c)
  {
    c as int - 48
  }

  function Digits(n: nat): (s: string)
    ensures s != [] && forall c :: c in s ==> IsDigit(c)
  {
    if n < 10 then [DigitOf(n)] else Digits(n / 10) + [DigitOf(n % 10)]
  }

  function Text(n: int): string {
    if n < 0 then "-" + Digits(-n) else Digits(n)
  }

  function ReadDigits(s: string): Option<int> {
    if s == [] || !IsDigit(s[|s| - 1]) then None
    else if |s| == 1 then Some(ValueOf(s[0]))
    else
      match ReadDigits(s[..|s| - 1])
      case None => None
      case Some(n) => Some(10 * n + ValueOf(s[|s| - 1]))
  }

  function Read(s: string): Option<int> {
    if s != [] && s[0] == '-' then
      match ReadDigits(s[1..])
      case None => None
      case Some(n) => Some(-n)
    else
      ReadDigits(s)
  }

  lemma {:induction false} DigitsReadBack(n: nat)
    ensures ReadDigits(Digits(n)) == Some(n)
  {
    if n >= 10 {
      DigitsReadBack(n / 10);
      var s := Digits(n);
      assert s[..|s| - 1] == Digits(n / 10);
      assert s[|s| - 1] == DigitOf(n % 10);
      assert |Digits(n / 10)| >= 1;
    }
  }

  lemma DigitsHaveNoSign(n: nat)
    ensures Digits(n)[0] != '-'
  {
    assert Digits(n)[0] in Digits(n);
  }

  lemma SignedReadsBack(digits: string, n: int)
    requires ReadDigits(digits) == Some(n)
    ensures Read("-" + digits) == Some(-n)
  {
    var s := "-" + digits;
    assert s[0] == '-' && s[1..] == digits;
  }

  /** int(str(n)) == n, so two integers with the same text are equal. */
  lemma ReadsBack(n: int)
    ensures Read(Text(n)) == Some(n)
  {
    if n < 0 {
      DigitsReadBack(-n);
      SignedReadsBack(Digits(-n), -n);
    } else {
      DigitsHaveNoSign(n);
      DigitsReadBack(n);
    }
  }
}
