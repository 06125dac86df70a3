/** Decimal rendering of integers, as JavaScript's `String(n)` writes them, and its inverse.
    Status codes, ports and `Content-Length` values are written this way. */
module Decimal {

  predicate IsDigit(c: char) { '0' <= c <= '9' }

  predicate AllDigits(s: string) { forall i :: 0 <= i < |s| ==> IsDigit(s[i]) }

  /** A canonical decimal numeral: digits only, at least one, and no leading zero. */
  predicate Canonical(s: string)
  {
    |s| >= 1 && AllDigits(s) && (s[0] == '0' ==> |s| == 1)
  }

  function DigitChar(d: nat): (c: char)
    requires d < 10
    ensures IsDigit(c)
  {
    ('0' as int + d) as char
  }

  function DigitValue(c: char): (d: nat)
    requires IsDigit(c)
    ensures d < 10 && DigitChar(d) == c
  {
    c as int - '0' as int
  }

  /** The decimal numeral of `n`. */
  function Render(n: nat): (s: string)
    ensures Canonical(s)
    ensures s[0] == '0' <==> n == 0
    decreases n
  {
    if n < 10 then [DigitChar(n)] else Render(n / 10) + [DigitChar(n % 10)]
  }

  /** The number a string of digits denotes. */
  function Value(s: string): nat
    requires AllDigits(s)
    decreases |s|
  {
    if s == [] then 0 else 10 * Value(s[..|s| - 1]) + DigitValue(s[|s| - 1])
  }

  /** A signed integer: a minus sign before the numeral of its magnitude when negative. */
  function RenderInt(n: int): (s: string)
    ensures |s| >= 1
    ensures s[0] == '-' <==> n < 0
  {
    if n < 0 then "-" + Render(-n) else Render(n)
  }

  /** Reading back a rendered number gives the number. */
  lemma {:induction false} ValueOfRender(n: nat)
    ensures Value(Render(n)) == n
    decreases n
  {
    if n >= 10 {
      var s := Render(n);
      assert s[..|s| - 1] == Render(n / 10);
      ValueOfRender(n / 10);
    }
  }

  /** A numeral without a leading zero denotes a positive number. */
  lemma {:induction false} ValuePositive(s: string)
    requires |s| >= 1 && AllDigits(s) && s[0] != '0'
    ensures Value(s) > 0
    decreases |s|
  {
    if |s| > 1 {
      ValuePositive(s[..|s| - 1]);
    }
  }

  /** Rendering the value of a canonical numeral gives the numeral back: `Render` and `Value`
      are inverse bijections between naturals and canonical numerals. */
  lemma {:induction false} RenderOfValue(s: string)
    requires Canonical(s)
    ensures Render(Value(s)) == s
    decreases |s|
  {
    if |s| > 1 {
      var t := s[..|s| - 1];
      ValuePositive(t);
      RenderOfValue(t);
      var n := Value(s);
      assert n / 10 == Value(t) && n % 10 == DigitValue(s[|s| - 1]);
      assert s == t + [s[|s| - 1]];
    }
  }

  /** Two numbers with the same numeral are equal. */
  lemma {:induction false} RenderInjective(a: nat, b: nat)
    ensures Render(a) == Render(b) ==> a == b
  {
    ValueOfRender(a);
    ValueOfRender(b);
  }
}
