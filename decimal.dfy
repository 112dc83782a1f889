/** Decimal text of integers: how Java's Integer.toString and Long.toString write a
    number (used when an int is concatenated into a string, and when org.json coerces
    a number to a string), and the sign-and-digits strings that Double.parseDouble
    reads back (used when org.json coerces a string to an int). */
module Decimal {
  import opened Optional

  predicate IsDigit(c: char) {
    '0' <= c <= '9'
  }

  predicate AllDigits(s: string) {
    forall i | 0 <= i < |s| :: IsDigit(s[i])
  }

  function DigitChar(d: nat): (c: char)
    requires d < 10
    ensures IsDigit(c)
  {
    (48 + d) as char
  }

  function DigitValue(c: char): (d: nat)
    requires IsDigit(c)
    ensures d < 10 && DigitChar(d) == c
  {
    c as int - 48
  }

  /** The digits of n, most significant first, without leading zeros. */
  function NatToText(n: nat): (s: string)
    ensures |s| > 0 && AllDigits(s)
    ensures s[0] == '0' ==> n == 0
  {
    if n < 10 then [DigitChar(n)] else NatToText(n / 10) + [DigitChar(n % 10)]
  }

  /** Integer.toString(n): a minus sign for negative numbers, then the digits of |n|. */
  function IntToText(n: int): (s: string)
    ensures |s| > 0
    ensures (s[0] == '-') <==> n < 0
  {
    if n < 0 then "-" + NatToText(-n) else NatToText(n)
  }

  /** The number a non-empty run of digits denotes, read left to right. */
  function DigitsValue(s: string): nat
    requires AllDigits(s)
  {
    if s == [] then 0 else DigitsValue(s[..|s| - 1]) * 10 + DigitValue(s[|s| - 1])
  }

  /** An optional '+' or '-' followed by at least one decimal digit, and its value. */
  function ParseInt(s: string): (r: Option<int>)
    ensures r.Some? ==> |s| > 0
  {
    if |s| > 1 && (s[0] == '-' || s[0] == '+') && AllDigits(s[1..]) then
      var v: int := DigitsValue(s[1..]);
      Some(if s[0] == '-' then -v else v)
    else if |s| > 0 && AllDigits(s) then
      Some(DigitsValue(s))
    else
      None
  }

  lemma {:induction false} NatTextValue(n: nat)
    ensures DigitsValue(NatToText(n)) == n
  {
    var s := NatToText(n);
    if n >= 10 {
      NatTextValue(n / 10);
      assert s[..|s| - 1] == NatToText(n / 10);
      assert DigitValue(s[|s| - 1]) == n % 10;
    }
  }

  /** Reading back the text of any integer gives that integer. */
  lemma IntTextRoundTrip(n: int)
    ensures ParseInt(IntToText(n)) == Some(n)
  {
    var s := IntToText(n);
    if n < 0 {
      NatTextValue(-n);
      assert s == "-" + NatToText(-n);
      assert s[1..] == NatToText(-n);
      assert |s| > 1 && s[0] == '-' && AllDigits(s[1..]);
    } else {
      NatTextValue(n);
      assert s == NatToText(n) && AllDigits(s) && s[0] != '-' && s[0] != '+';
    }
  }

  /** Distinct integers have distinct texts. */
  lemma IntTextInjective(a: int, b: int)
    requires IntToText(a) == IntToText(b)
    ensures a == b
  {
    IntTextRoundTrip(a);
    IntTextRoundTrip(b);
  }
}
