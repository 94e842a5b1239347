/// Decimal digit strings: the zero-padded integer formatting behind the
/// `%Y`, `%m` and `%d` directives of `strftime`, and its inverse.
module Decimal {

  predicate IsDigit(c: char) {
    '0' <= c <= '9'
  }

  predicate AllDigits(s: string) {
    forall i :: 0 <= i < |s| ==> IsDigit(s[i])
  }

  function DigitValue(c: char): (d: nat)
    requires IsDigit(c)
    ensures d < 10
  {
    c as int - '0' as int
  }

  function DigitChar(d: nat): (c: char)
    requires d < 10
    ensures IsDigit(c) && DigitValue(c) == d
  {
    ('0' as int + d) as char
  }

  function Pow10(k: nat): (p: nat)
    ensures p >= 1
  {
    if k == 0 then 1 else 10 * Pow10(k - 1)
  }

  /** The decimal digits of `n`, left-padded with '0' to at least `width`
      characters (what C's "%0*d" prints for a non-negative number). */
  function ZeroPad(n: nat, width: nat): string
    decreases n + width
  {
    if n < 10 && width <= 1 then [DigitChar(n)]
    else ZeroPad(n / 10, if width == 0 then 0 else width - 1) + [DigitChar(n % 10)]
  }

  /** The number a string of decimal digits denotes (most significant first). */
  function Value(s: string): nat
    requires AllDigits(s)
  {
    if s == [] then 0 else Value(s[..|s| - 1]) * 10 + DigitValue(s[|s| - 1])
  }

  lemma DivModDigit(a: nat, b: nat)
    requires b < 10
    ensures (a * 10 + b) / 10 == a && (a * 10 + b) % 10 == b
  {
  }

  /** Padding never loses information: the padded string is all digits and
      denotes the number it was made from. */
  lemma {:induction false} ZeroPadDenotes(n: nat, width: nat)
    ensures AllDigits(ZeroPad(n, width))
    ensures Value(ZeroPad(n, width)) == n
    decreases n + width
  {
    if n < 10 && width <= 1 {
    } else {
      var w := if width == 0 then 0 else width - 1;
      ZeroPadDenotes(n / 10, w);
      var s := ZeroPad(n, width);
      assert s == ZeroPad(n / 10, w) + [DigitChar(n % 10)];
      assert s[..|s| - 1] == ZeroPad(n / 10, w);
    }
  }

  /** A number below 10^width is printed in exactly `width` characters. */
  lemma {:induction false} ZeroPadWidth(n: nat, width: nat)
    requires 1 <= width && n < Pow10(width)
    ensures |ZeroPad(n, width)| == width
    decreases width
  {
    assert Pow10(1) == 10;
    if n < 10 && width <= 1 {
    } else {
      assert width >= 2;
      assert n / 10 < Pow10(width - 1);
      ZeroPadWidth(n / 10, width - 1);
    }
  }

  /** A string of k digits denotes a number below 10^k. */
  lemma {:induction false} ValueBelowPow10(s: string)
    requires AllDigits(s)
    ensures Value(s) < Pow10(|s|)
    decreases |s|
  {
    if s != [] {
      ValueBelowPow10(s[..|s| - 1]);
    }
  }

  /** The converse of ZeroPadDenotes: a non-empty digit string is the padding
      of its own value to its own length. */
  lemma {:induction false} ZeroPadOfDigits(s: string)
    requires |s| >= 1 && AllDigits(s)
    ensures ZeroPad(Value(s), |s|) == s
    decreases |s|
  {
    var n := |s| - 1;
    var prefix := s[..n];
    var last := DigitValue(s[n]);
    DivModDigit(Value(prefix), last);
    assert Value(s) == Value(prefix) * 10 + last;
    assert DigitChar(last) == s[n];
    if n == 0 {
      assert Value(s) == last;
      assert [DigitChar(last)] == s;
    } else {
      ZeroPadOfDigits(prefix);
      assert ZeroPad(Value(s), |s|) == ZeroPad(Value(prefix), n) + [DigitChar(last)];
      assert s == prefix + [s[n]];
    }
  }
}
