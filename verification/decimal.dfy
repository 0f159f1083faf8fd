/** Decimal numerals, as fmt.Sprintf("%v", n) prints an integer, and
    their reading back. */
module Decimal {

  predicate IsDigit(c: char) {
    '0' <= c <= '9'
  }

  /** A non-empty string of decimal digits. */
  predicate IsNumeral(s: string) {
    |s| > 0 && forall i :: 0 <= i < |s| ==> IsDigit(s[i])
  }

  function DigitChar(d: nat): (c: char)
    requires d < 10
    ensures IsDigit(c)
  {
    ('0' as int + d) as char
  }

  function DigitValue(c: char): nat
    requires IsDigit(c)
  {
    c as int - '0' as int
  }

  /** The decimal numeral of n, most significant digit first. */
  function Format(n: nat): (s: string)
    ensures IsNumeral(s)
    ensures n > 0 ==> s[0] != '0'
  {
    if n < 10 then [DigitChar(n)] else Format(n / 10) + [DigitChar(n % 10)]
  }

  /** The number a numeral denotes. */
  function Value(s: string): nat
    requires forall i :: 0 <= i < |s| ==> IsDigit(s[i])
  {
    if s == [] then 0 else Value(s[..|s| - 1]) * 10 + DigitValue(s[|s| - 1])
  }

  /** fmt's %v of a possibly negative int: a minus sign, then the digits
      of its magnitude. */
  function FormatInt(i: int): (s: string)
    ensures |s| > 0 && '/' !in s
    ensures i >= 0 ==> IsNumeral(s) && Value(s) == i
    ensures i < 0 ==> s[0] == '-' && IsNumeral(s[1..]) && Value(s[1..]) == -i
  {
    if i < 0 then
      ValueOfFormat(-i);
      assert ("-" + Format(-i))[1..] == Format(-i);
      "-" + Format(-i)
    else
      ValueOfFormat(i);
      Format(i)
  }

  /** Reading back what Format printed gives the number again. */
  lemma {:induction false} ValueOfFormat(n: nat)
    ensures Value(Format(n)) == n
  {
    if n >= 10 {
      var s := Format(n);
      assert s[..|s| - 1] == Format(n / 10);
      ValueOfFormat(n / 10);
    }
  }
}
