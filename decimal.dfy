/**
 * Decimal rendering of natural numbers, together with its inverse. It agrees with JavaScript's
 * `Number.prototype.toString()` on integers below 10^21 and with C# string interpolation on
 * non-negative `int`s: the 4-digit room codes, player counts and roster numbers rendered here.
 */
module Decimal {

  import opened Wrappers

  predicate IsDigit(c: char) {
    '0' <= c <= '9'
  }

  predicate AllDigits(s: string) {
    forall i :: 0 <= i < |s| ==> IsDigit(s[i])
  }

  /** A canonical numeral: non-empty, digits only, no leading zero unless it is "0". */
  predicate Canonical(s: string) {
    |s| > 0 && AllDigits(s) && (s[0] != '0' || |s| == 1)
  }

  function DigitChar(d: nat): (c: char)
    requires d < 10
    ensures IsDigit(c) && c as int - '0' as int == d
  {
    ('0' as int + d) as char
  }

  function DigitValue(c: char): (d: nat)
    requires IsDigit(c)
    ensures d < 10 && DigitChar(d) == c
  {
    c as int - '0' as int
  }

  /** The decimal numeral of `n`, most significant digit first. */
  function ToDecimal(n: nat): (s: string)
    ensures Canonical(s)
  {
    if n < 10 then [DigitChar(n)] else ToDecimal(n / 10) + [DigitChar(n % 10)]
  }

  /** The number a string of digits denotes. */
  function Value(s: string): nat
    requires AllDigits(s)
  {
    if s == [] then 0 else Value(s[..|s| - 1]) * 10 + DigitValue(s[|s| - 1])
  }

  /** Reads a canonical numeral back; anything else is rejected. */
  function ParseDecimal(s: string): (r: Option<nat>)
    ensures r.Some? <==> Canonical(s)
  {
    if Canonical(s) then Some(Value(s)) else None
  }

  lemma {:induction false} ValueOfToDecimal(n: nat)
    ensures Value(ToDecimal(n)) == n
  {
    var s := ToDecimal(n);
    if n >= 10 {
      ValueOfToDecimal(n / 10);
      assert s[..|s| - 1] == ToDecimal(n / 10);
    }
  }

  lemma {:induction false} ValuePositive(s: string)
    requires Canonical(s) && s[0] != '0'
    ensures Value(s) > 0
  {
    if |s| > 1 {
      var p := s[..|s| - 1];
      assert p[0] == s[0];
      ValuePositive(p);
    }
  }

  lemma {:induction false} ToDecimalOfValue(s: string)
    requires Canonical(s)
    ensures ToDecimal(Value(s)) == s
  {
    if |s| > 1 {
      var p := s[..|s| - 1];
      assert p[0] == s[0] && Canonical(p);
      ValuePositive(p);
      ToDecimalOfValue(p);
      var n := Value(s);
      assert n / 10 == Value(p) && n % 10 == DigitValue(s[|s| - 1]);
      assert s == p + [s[|s| - 1]];
    }
  }

  /** Rendering and parsing are mutually inverse on natural numbers and canonical numerals. */
  lemma ParseIsInverse(n: nat, s: string)
    ensures ParseDecimal(ToDecimal(n)) == Some(n)
    ensures ParseDecimal(s) == Some(n) ==> s == ToDecimal(n)
  {
    ValueOfToDecimal(n);
    if ParseDecimal(s) == Some(n) {
      ToDecimalOfValue(s);
    }
  }

  /** Every number from 1000 to 9999 has a four-digit numeral. */
  lemma FourDigits(n: nat)
    requires 1000 <= n <= 9999
    ensures |ToDecimal(n)| == 4
  {
    var a, b, c := n / 10, n / 10 / 10, n / 10 / 10 / 10;
    assert 100 <= a <= 999 && 10 <= b <= 99 && 1 <= c <= 9;
    assert |ToDecimal(c)| == 1;
    assert |ToDecimal(b)| == |ToDecimal(c)| + 1;
    assert |ToDecimal(a)| == |ToDecimal(b)| + 1;
    assert |ToDecimal(n)| == |ToDecimal(a)| + 1;
  }
}
