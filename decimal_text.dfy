/**
 * Decimal numerals as text: the `-?\d+` numerals the scene tool reads with
 * `int(...)`, and the decimal form an integer prints as (`str(n)` in Python,
 * `n.ToString()` in C#).
 */
module DecimalText {

  predicate IsDigit(c: char) {
    '0' <= c <= '9'
  }

  predicate AllDigits(s: string) {
    forall i :: 0 <= i < |s| ==> IsDigit(s[i])
  }

  /** The text matched by the regular expression `-?\d+`. */
  predicate IsNumeral(s: string) {
    if |s| > 0 && s[0] == '-' then |s| > 1 && AllDigits(s[1..]) else |s| > 0 && AllDigits(s)
  }

  type Numeral = s: string | IsNumeral(s) witness "0"

  function DigitValue(c: char): (d: nat)
    requires IsDigit(c)
    ensures d < 10
  {
    (c as int) - ('0' as int)
  }

  function DigitChar(d: nat): (c: char)
    requires d < 10
    ensures IsDigit(c) && DigitValue(c) == d
  {
    ('0' as int + d) as char
  }

  /** The value of a string of decimal digits, most significant digit first. */
  function DigitsValue(s: string): nat
    requires AllDigits(s)
  {
    if s == [] then 0 else 10 * DigitsValue(s[..|s| - 1]) + DigitValue(s[|s| - 1])
  }

  /** `int(s)` for a numeral: leading zeros are allowed and `-0` is zero. */
  function ValueOf(s: Numeral): int {
    if s[0] == '-' then 0 - DigitsValue(s[1..]) as int else DigitsValue(s)
  }

  /** The shortest digit string of a natural number. */
  function NatDigits(n: nat): (s: string)
    ensures |s| > 0 && AllDigits(s)
    ensures |s| > 1 ==> s[0] != '0'
  {
    if n < 10 then [DigitChar(n)] else NatDigits(n / 10) + [DigitChar(n % 10)]
  }

  /** The decimal form of an integer, with a leading `-` when it is negative. */
  function Decimal(n: int): (s: Numeral) {
    if n < 0 then
      var d := NatDigits(-n);
      assert ("-" + d)[1..] == d;
      "-" + d
    else
      NatDigits(n)
  }

  lemma {:induction false} NatDigitsValue(n: nat)
    ensures DigitsValue(NatDigits(n)) == n
  {
    if n >= 10 {
      var s := NatDigits(n);
      assert s[..|s| - 1] == NatDigits(n / 10);
      NatDigitsValue(n / 10);
    }
  }

  /** Reading back the decimal form of an integer gives that integer. */
  lemma ValueOfDecimal(n: int)
    ensures ValueOf(Decimal(n)) == n
  {
    if n < 0 {
      NatDigitsValue(-n);
      assert Decimal(n)[1..] == NatDigits(-n);
    } else {
      NatDigitsValue(n);
    }
  }

  /** Distinct integers print differently. */
  lemma DecimalInjective(a: int, b: int)
    ensures Decimal(a) == Decimal(b) ==> a == b
  {
    ValueOfDecimal(a);
    ValueOfDecimal(b);
  }

  /** A numeral holds only digits and minus signs, so never a blank or a slash. */
  lemma NumeralChars(s: Numeral, i: int)
    requires 0 <= i < |s|
    ensures IsDigit(s[i]) || s[i] == '-'
  {
    if s[0] == '-' && i > 0 {
      assert s[i] == s[1..][i - 1];
    }
  }

  /** A character that cannot occur in a numeral. */
  predicate IsSeparator(c: char) {
    !IsDigit(c) && c != '-'
  }

  /**
   * A numeral followed by text that starts with a separator can be read back:
   * the numeral ends where the separator starts.
   */
  lemma NumeralThenSeparator(p: Numeral, x: string, q: Numeral, y: string)
    requires |x| > 0 && IsSeparator(x[0]) && |y| > 0 && IsSeparator(y[0])
    requires p + x == q + y
    ensures p == q && x == y
  {
    if |p| < |q| {
      assert (p + x)[|p|] == x[0];
      NumeralChars(q, |p|);
    } else if |q| < |p| {
      assert (q + y)[|q|] == y[0];
      NumeralChars(p, |q|);
    } else {
      assert p == (p + x)[..|p|] && q == (q + y)[..|q|];
      assert x == (p + x)[|p|..] && y == (q + y)[|q|..];
    }
  }

  /** Two numerals around a separator can both be read back. */
  lemma NumeralPairReadsBack(p1: Numeral, q1: Numeral, p2: Numeral, q2: Numeral, sep: string)
    requires |sep| > 0 && IsSeparator(sep[0])
    requires p1 + sep + q1 == p2 + sep + q2
    ensures p1 == p2 && q1 == q2
  {
    var x, y := sep + q1, sep + q2;
    assert p1 + sep + q1 == p1 + x;
    assert p2 + sep + q2 == p2 + y;
    assert x[0] == sep[0] && y[0] == sep[0];
    NumeralThenSeparator(p1, x, p2, y);
    assert q1 == x[|sep|..] && q2 == y[|sep|..];
  }

  /** The decimal forms of two integers around a separator give back both integers. */
  lemma DecimalPairReadsBack(a: int, b: int, c: int, d: int, sep: string)
    requires |sep| > 0 && IsSeparator(sep[0])
    requires Decimal(a) + sep + Decimal(b) == Decimal(c) + sep + Decimal(d)
    ensures a == c && b == d
  {
    NumeralPairReadsBack(Decimal(a), Decimal(b), Decimal(c), Decimal(d), sep);
    DecimalInjective(a, c);
    DecimalInjective(b, d);
  }

  /** The same, after a common prefix. */
  lemma PrefixedPairReadsBack(pre: string, p1: Numeral, q1: Numeral, p2: Numeral, q2: Numeral, sep: string)
    requires |sep| > 0 && IsSeparator(sep[0])
    requires pre + p1 + sep + q1 == pre + p2 + sep + q2
    ensures p1 == p2 && q1 == q2
  {
    var r1, r2 := p1 + sep + q1, p2 + sep + q2;
    assert pre + p1 + sep + q1 == pre + r1;
    assert pre + p2 + sep + q2 == pre + r2;
    assert r1 == (pre + r1)[|pre|..] && r2 == (pre + r2)[|pre|..];
    NumeralPairReadsBack(p1, q1, p2, q2, sep);
  }
}
