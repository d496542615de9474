/** Decimal rendering of integers, as JavaScript's string concatenation
    (`"text" + n`) prints an integral number of magnitude at most 2^53.
    `ParseInt` is the inverse used to show that printing loses nothing: the
    printed exit code determines the code. */
module Decimal {
  import opened Optional

  predicate IsDigit(c: char) {
    '0' <= c <= '9'
  }

  predicate AllDigits(s: string) {
    forall i :: 0 <= i < |s| ==> IsDigit(s[i])
  }

  function DigitChar(d: nat): (c: char)
    requires d < 10
    ensures IsDigit(c)
  {
    ('0' as int + d) as char
  }

  function DigitValue(c: char): (d: nat)
    requires IsDigit(c)
    ensures d < 10
  {
    c as int - '0' as int
  }

  /** The shortest decimal numeral of `n`, most significant digit first. */
  function NatToString(n: nat): (s: string)
    ensures 0 < |s| && AllDigits(s)
    ensures s[0] == '0' <==> n == 0
    decreases n
  {
    if n < 10 then [DigitChar(n)] else NatToString(n / 10) + [DigitChar(n % 10)]
  }

  /** The value of a numeral read most significant digit first. */
  function ParseNat(s: string): nat
    requires AllDigits(s)
    decreases |s|
  {
    if s == [] then 0 else ParseNat(s[..|s| - 1]) * 10 + DigitValue(s[|s| - 1])
  }

  lemma {:induction false} ParseNatOfNatToString(n: nat)
    ensures ParseNat(NatToString(n)) == n
    decreases n
  {
    if n >= 10 {
      var s := NatToString(n);
      assert s[..|s| - 1] == NatToString(n / 10);
      ParseNatOfNatToString(n / 10);
    }
  }

  /** `"" + i` for an integral JavaScript number of magnitude at most 2^53
      (above that, doubles print rounded digits): a minus sign for negative
      values, then the digits of the magnitude. */
  function IntToString(i: int): (s: string)
    ensures 0 < |s|
    ensures s[0] == '-' <==> i < 0
    ensures i < 0 ==> 1 < |s| && AllDigits(s[1..])
    ensures 0 <= i ==> AllDigits(s)
    ensures s[if i < 0 then 1 else 0] == '0' <==> i == 0
  {
    if i < 0 then "-" + NatToString(-i) else NatToString(i)
  }

  /** Reads back an optionally signed numeral; anything else is `None`. */
  function ParseInt(s: string): Option<int> {
    if 0 < |s| && s[0] == '-' then
      if 1 < |s| && AllDigits(s[1..]) then Some(0 - ParseNat(s[1..]) as int) else None
    else if 0 < |s| && AllDigits(s) then Some(ParseNat(s) as int)
    else None
  }

  /** Printing an integer and reading it back gives the same integer. */
  lemma IntToStringRoundTrip(i: int)
    ensures ParseInt(IntToString(i)) == Some(i)
  {
    if i < 0 {
      assert IntToString(i)[1..] == NatToString(-i);
      ParseNatOfNatToString(-i);
    } else {
      ParseNatOfNatToString(i);
    }
  }

  /** Distinct integers print differently. */
  lemma IntToStringInjective(a: int, b: int)
    ensures IntToString(a) == IntToString(b) <==> a == b
  {
    if IntToString(a) == IntToString(b) {
      IntToStringRoundTrip(a);
      IntToStringRoundTrip(b);
    }
  }

  /** A printed integer never contains a space. */
  lemma IntToStringHasNoSpace(i: int)
    ensures forall k :: 0 <= k < |IntToString(i)| ==> IntToString(i)[k] != ' '
  {
  }
}
