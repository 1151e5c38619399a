/** Decimal numerals as the app writes them: `String(n)` and `${n}` for a
    non-negative integer n, and the value a digit string denotes. */
module Numerals {

  predicate IsDigit(c: char) {
    '0' <= c <= '9'
  }

  predicate AllDigits(s: string) {
    forall i :: 0 <= i < |s| ==> IsDigit(s[i])
  }

  function DigitValue(c: char): (d: nat)
    requires IsDigit(c)
    ensures d < 10
  {
    (c as int) - ('0' as int)
  }

  function DigitChar(d: nat): (c: char)
    requires d < 10
    ensures IsDigit(c) && DigitValue(c) == d
  {
    (('0' as int) + d) as char
  }

  /** The value of a digit string, most significant digit first; "" is 0. */
  function Value(s: string): nat
    requires AllDigits(s)
  {
    if s == [] then 0 else Value(s[..|s| - 1]) * 10 + DigitValue(s[|s| - 1])
  }

  /** The shortest decimal numeral of n: it denotes n, and it has no leading
      zero unless it is "0" itself. */
  function Show(n: nat): (s: string)
    ensures |s| > 0 && AllDigits(s)
    ensures Value(s) == n
    ensures |s| > 1 ==> s[0] != '0'
  {
    if n < 10 then [DigitChar(n)]
    else
      var s := Show(n / 10) + [DigitChar(n % 10)];
      assert s[..|s| - 1] == Show(n / 10);
      s
  }

  /** Numbers below 100 print with at most two digits. */
  lemma {:induction false} ShowBelowHundred(n: nat)
    requires n < 100
    ensures |Show(n)| <= 2
  {
    if n >= 10 {
      assert Show(n / 10) == [DigitChar(n / 10)];
    }
  }

  /** Leading zeros do not change the value of a digit string. */
  lemma {:induction false} ValueZeroPadded(s: string)
    requires AllDigits(s)
    ensures AllDigits("0" + s) && Value("0" + s) == Value(s)
  {
    var t := "0" + s;
    assert AllDigits(t) by {
      forall i | 0 <= i < |t| ensures IsDigit(t[i]) {
        if i > 0 { assert t[i] == s[i - 1]; }
      }
    }
    if s != [] {
      var init := s[..|s| - 1];
      assert t[..|t| - 1] == "0" + init;
      assert t[|t| - 1] == s[|s| - 1];
      ValueZeroPadded(init);
    }
  }

  /** Two labels that share a prefix, followed by the numerals of two
      numbers, are equal only when the numbers are. */
  lemma LabelsInjective(prefix: string, a: nat, b: nat)
    requires prefix + Show(a) == prefix + Show(b)
    ensures a == b
  {
    var x, y := prefix + Show(a), prefix + Show(b);
    assert x[|prefix|..] == Show(a);
    assert y[|prefix|..] == Show(b);
  }
}
