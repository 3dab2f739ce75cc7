/**
 * Decimal text of natural numbers, as JavaScript renders a non-negative
 * integer below 10^21 (`String(n)`, a template literal `${n}`): the shortest
 * digit string, with no sign and no leading zero. From 10^21 up JavaScript
 * switches to exponential notation, which is not modelled; every safe
 * integer is below that bound.
 */
module Decimal {

  predicate IsDigit(c: char)
  {
    '0' <= c <= '9'
  }

  predicate AllDigits(s: string)
  {
    forall i :: 0 <= i < |s| ==> IsDigit(s[i])
  }

  function DigitChar(d: nat): (c: char)
    requires d < 10
    ensures IsDigit(c) && c as int == 48 + d
  {
    (48 + d) as char
  }

  function DigitValue(c: char): (d: nat)
    requires IsDigit(c)
    ensures d < 10 && DigitChar(d) == c
  {
    c as int - 48
  }

  /** The number a digit string denotes (most significant digit first). */
  function FromDigits(s: string): nat
    requires AllDigits(s)
  {
    if s == [] then 0 else 10 * FromDigits(s[..|s| - 1]) + DigitValue(s[|s| - 1])
  }

  /** The decimal text of `n`. */
  function NatToString(n: nat): (s: string)
    ensures |s| >= 1 && AllDigits(s)
    ensures s[0] == '0' <==> n == 0
    ensures n == 0 ==> s == "0"
    decreases n
  {
    if n < 10 then [DigitChar(n)] else NatToString(n / 10) + [DigitChar(n % 10)]
  }

  /** Reading the text back gives the number: the rendering loses nothing. */
  lemma {:induction false} FromDigitsOfNatToString(n: nat)
    ensures FromDigits(NatToString(n)) == n
    decreases n
  {
    var s := NatToString(n);
    if n < 10 {
      assert s[..|s| - 1] == [];
    } else {
      FromDigitsOfNatToString(n / 10);
      assert s[..|s| - 1] == NatToString(n / 10);
      assert DigitValue(s[|s| - 1]) == n % 10;
    }
  }

  /** Different numbers have different texts. */
  lemma NatToStringInjective(a: nat, b: nat)
    requires NatToString(a) == NatToString(b)
    ensures a == b
  {
    FromDigitsOfNatToString(a);
    FromDigitsOfNatToString(b);
  }

  /** Two digit strings joined by a dash can be split back apart: the first
      dash marks where the first one ends. */
  lemma DashSplit(x: string, y: string, x': string, y': string)
    requires AllDigits(x) && AllDigits(x')
    requires x + "-" + y == x' + "-" + y'
    ensures x == x' && y == y'
  {
    var s := x + "-" + y;
    assert forall i :: 0 <= i < |x| ==> s[i] == x[i];
    assert forall i :: 0 <= i < |x'| ==> s[i] == x'[i];
    assert s[|x|] == '-' && s[|x'|] == '-';
    assert |x| == |x'|;
    assert x == s[..|x|] && x' == (x' + "-" + y')[..|x'|];
    assert y == s[|x| + 1..] && y' == (x' + "-" + y')[|x'| + 1..];
  }
}
