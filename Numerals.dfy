/**
 * What the `decimal` converter makes of numerals: their value, and that trailing zeros in the
 * fraction do not change it, which is why "123", "123.0" and "123.00" compare equal under a
 * decimal schema while "123.01" does not.
 */
module Numerals {
  import opened Wrappers
  import opened Types

  lemma {:induction false} FindAbsent(s: string, c: char)
    requires forall i | 0 <= i < |s| :: s[i] != c
    ensures Find(s, c) == |s|
  {
    if s != [] {
      FindAbsent(s[1..], c);
    }
  }

  lemma {:induction false} FindAfter(p: string, c: char, q: string)
    requires forall i | 0 <= i < |p| :: p[i] != c
    ensures Find(p + [c] + q, c) == |p|
  {
    if p != [] {
      assert (p + [c] + q)[1..] == p[1..] + [c] + q;
      FindAfter(p[1..], c, q);
    }
  }

  /** A numeral with digits only parses to the number the digits denote. */
  lemma IntegerNumeral(i: string)
    requires IsDigits(i)
    ensures ParseNumeral(i) == Some(DigitsValue(i) as real)
  {
    FindAbsent(i, '.');
  }

  /** `i.f` parses to i + f / 10^|f|. */
  lemma FractionNumeral(i: string, f: string)
    requires IsDigits(i) && IsDigits(f)
    ensures ParseNumeral(i + "." + f) == Some(Decimal(DigitsValue(i), DigitsValue(f), |f|))
  {
    var s := i + "." + f;
    FindAfter(i, '.', f);
    assert s[0] == i[0] && s[0] != '-';
    assert s[..|i|] == i;
    assert s[|i| + 1..] == f;
    assert |s| - |i| - 1 == |f|;
    assert Find(s, '.') == |i|;
    assert IsDigits(s[..|i|]) && IsDigits(s[|i| + 1..]);
  }

  /** A leading minus sign negates the value. */
  lemma NegativeNumeral(s: string)
    requires |s| > 0 && IsDigit(s[0])
    ensures ParseNumeral("-" + s) ==
      match ParseNumeral(s)
      case None => None
      case Some(x) => Some(-x)
  {
    assert ("-" + s)[1..] == s;
  }

  lemma DigitsAppendZero(f: string)
    requires AllDigits(f)
    ensures AllDigits(f + "0") && DigitsValue(f + "0") == 10 * DigitsValue(f)
  {
    assert (f + "0")[..|f|] == f;
  }

  lemma DecimalScale(whole: nat, frac: nat, digits: nat)
    ensures Decimal(whole, 10 * frac, digits + 1) == Decimal(whole, frac, digits)
    ensures Decimal(whole, 0, digits) == whole as real
  {
    var p := Pow10(digits) as real;
    assert Pow10(digits + 1) as real == 10.0 * p;
    assert (10 * frac) as real == 10.0 * frac as real;
    assert (10.0 * frac as real) / (10.0 * p) == frac as real / p;
  }

  /**
   * A zero appended to a numeral's fraction leaves its value unchanged; appended as `.0` to an
   * integer numeral, too.
   */
  lemma TrailingZero(i: string, f: string)
    requires IsDigits(i) && AllDigits(f)
    ensures ParseNumeral(i + "." + f + "0") == ParseNumeral(if f == [] then i else i + "." + f)
  {
    DigitsAppendZero(f);
    FractionNumeral(i, f + "0");
    assert i + "." + f + "0" == i + "." + (f + "0");
    DecimalScale(DigitsValue(i), DigitsValue(f), |f|);
    if f == [] {
      IntegerNumeral(i);
    } else {
      FractionNumeral(i, f);
    }
  }

  lemma DigitsOf123()
    ensures IsDigits("123") && DigitsValue("123") == 123
  {
    assert "12"[..1] == "1";
    assert "123"[..2] == "12";
  }

  /** The numerals of the decimal example: "123", "123.0" and "123.00" denote one number, "123.01" another. */
  lemma DecimalExamples()
    ensures ParseNumeral("123") == Some(123.0)
    ensures ParseNumeral("123.0") == Some(123.0)
    ensures ParseNumeral("123.00") == Some(123.0)
    ensures ParseNumeral("123.01") == Some(123.01)
  {
    WholeExamples();
    FractionExample();
  }

  lemma WholeExamples()
    ensures ParseNumeral("123") == Some(123.0)
    ensures ParseNumeral("123.0") == Some(123.0)
    ensures ParseNumeral("123.00") == Some(123.0)
  {
    DigitsOf123();
    IntegerNumeral("123");
    TrailingZero("123", "");
    assert "123" + "." + "" + "0" == "123.0";
    TrailingZero("123", "0");
    assert "123" + "." + "0" + "0" == "123.00";
    assert "123" + "." + "0" == "123.0";
  }

  lemma FractionExample()
    ensures ParseNumeral("123.01") == Some(123.01)
  {
    DigitsOf123();
    assert "01"[..1] == "0";
    FractionNumeral("123", "01");
    assert "123" + "." + "01" == "123.01";
    assert Decimal(123, 1, 2) == 123.01;
  }
  /**
   * Numerals keep their exact value: `0.f`, for a fraction f of two or more digits ending in 1,
   * denotes a number other than 0.1, although for a long enough f both round to the same
   * IEEE-754 double.
   */
  lemma ExactValueKept(f: string)
    requires IsDigits(f) && |f| >= 2 && f[|f| - 1] == '1'
    ensures ParseNumeral("0.1") == Some(0.1)
    ensures ParseNumeral("0." + f).Some? && ParseNumeral("0." + f) != Some(0.1)
  {
    OneTenth();
    assert IsDigits("0") && DigitsValue("0") == 0 by { assert "0"[..0] == ""; }
    FractionNumeral("0", f);
    assert "0" + "." + f == "0." + f;
    LastDigitOne(f);
    NotOneTenth(DigitsValue(f), |f| - 1);
  }

  lemma OneTenth()
    ensures ParseNumeral("0.1") == Some(0.1)
  {
    assert IsDigits("0") && DigitsValue("0") == 0 by { assert "0"[..0] == ""; }
    assert IsDigits("1") && DigitsValue("1") == 1 by { assert "1"[..0] == ""; }
    FractionNumeral("0", "1");
    assert "0" + "." + "1" == "0.1";
    assert Decimal(0, 1, 1) == 0.1;
  }

  /** A fraction of k + 1 digits whose last digit is 1 is not 0.1, for k >= 1. */
  lemma NotOneTenth(v: nat, k: nat)
    requires v % 10 == 1 && k >= 1
    ensures Decimal(0, v, k + 1) != 0.1
  {
    var p := Pow10(k);
    assert Pow10(k + 1) == 10 * p;
    assert p == 10 * Pow10(k - 1);
  }

  /** A run of digits ending in 1 denotes a number that is not a multiple of 10. */
  lemma LastDigitOne(s: string)
    requires IsDigits(s) && s[|s| - 1] == '1'
    ensures DigitsValue(s) % 10 == 1
  {
  }
}
