/** Decimal text of non-negative integers, as JavaScript's template
    interpolation and `Number.prototype.toString()` produce it for the
    values the page formats (integers far below 10^21, where JavaScript
    would switch to exponent notation), and `padStart(2, '0')`. Each
    writer has a reader as its partner. */
module Decimal {

  predicate IsDigit(c: char) {
    '0' <= c <= '9'
  }

  predicate AllDigits(s: string) {
    forall i :: 0 <= i < |s| ==> IsDigit(s[i])
  }

  /** A numeral as `Show` writes it: digits only, no leading zero. */
  predicate Canonical(s: string) {
    1 <= |s| && AllDigits(s) && (|s| > 1 ==> s[0] != '0')
  }

  function DigitChar(d: nat): (c: char)
    requires d < 10
    ensures IsDigit(c) && c as int - '0' as int == d
  {
    ('0' as int + d) as char
  }

  /** The shortest decimal numeral of `n`: no sign, no leading zero. */
  function Show(n: nat): (r: string)
    ensures 1 <= |r| && AllDigits(r)
    ensures |r| > 1 ==> r[0] != '0'
    ensures n < 10 <==> |r| == 1
    decreases n
  {
    if n < 10 then [DigitChar(n)] else Show(n / 10) + [DigitChar(n % 10)]
  }

  /** The number a string of digits denotes (leading zeros allowed). */
  function Value(s: string): nat
    requires AllDigits(s)
  {
    if s == [] then 0 else Value(s[..|s| - 1]) * 10 + (s[|s| - 1] as int - '0' as int)
  }

  lemma {:induction false} ValueOfShow(n: nat)
    ensures Value(Show(n)) == n
    decreases n
  {
    if n >= 10 {
      var r := Show(n);
      assert r[..|r| - 1] == Show(n / 10);
      ValueOfShow(n / 10);
    }
  }

  /** Two numerals are equal only when the numbers are. */
  lemma ShowInjective(a: nat, b: nat)
    requires Show(a) == Show(b)
    ensures a == b
  {
    ValueOfShow(a);
    ValueOfShow(b);
  }

  /** `String(n).padStart(2, '0')`: one leading zero when the numeral has a
      single digit, the numeral unchanged otherwise. */
  function PadTwo(n: nat): (r: string)
    ensures AllDigits(r)
    ensures n < 100 ==> |r| == 2
    ensures n >= 10 ==> r == Show(n)
  {
    var d := Show(n);
    if |d| < 2 then "0" + d else d
  }

  lemma ValueOfPadTwo(n: nat)
    ensures Value(PadTwo(n)) == n
  {
    var d := Show(n);
    ValueOfShow(n);
    if |d| < 2 {
      assert PadTwo(n)[..1] == "0";
      assert PadTwo(n) == "0" + d;
      assert PadTwo(n)[..|PadTwo(n)| - 1] == "0";
    }
  }
}
