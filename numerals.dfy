/** Decimal numerals: the value of a digit string (number literals) and the text of an
    integer (the display of integral numbers, `String(Int(number))`). */
module Numerals {
  import opened Wrappers
  import opened Characters

  predicate AllDigits(s: string) {
    forall i :: 0 <= i < |s| ==> IsDigit(s[i])
  }

  function DigitValue(c: char): nat
    requires IsDigit(c)
  {
    c as int - '0' as int
  }

  function DigitChar(d: nat): (c: char)
    requires d < 10
    ensures IsDigit(c) && DigitValue(c) == d
  {
    ('0' as int + d) as char
  }

  /** The value of a string of decimal digits, most significant first. */
  function DigitsValue(s: string): nat
    requires AllDigits(s)
  {
    if s == [] then 0 else DigitsValue(s[..|s| - 1]) * 10 + DigitValue(s[|s| - 1])
  }

  /** v divided by 10, n times: the weight of the last of n fractional digits. */
  function Shift(v: real, n: nat): real {
    if n == 0 then v else Shift(v, n - 1) / 10.0
  }

  /** The value of the numeral `whole.frac` (or of `whole` alone when frac is empty). */
  function NumeralValue(whole: string, frac: string): real
    requires AllDigits(whole) && AllDigits(frac)
  {
    DigitsValue(whole) as real + Shift(DigitsValue(frac) as real, |frac|)
  }

  /** `Double(text)` on the texts the scanner produces for NUMBER: the value of a
      numeral `digits` or `digits.digits`, exactly; None for any other text. */
  function ReadNumber(s: string): Option<real> {
    ReadWhole(s, 0, 0)
  }

  /** Reading the integral part from i on, with acc the value of the digits before i. */
  function ReadWhole(s: string, i: nat, acc: nat): Option<real>
    requires i <= |s|
    decreases |s| - i
  {
    if i == |s| then (if i == 0 then None else Some(acc as real))
    else if IsDigit(s[i]) then ReadWhole(s, i + 1, acc * 10 + DigitValue(s[i]))
    else if s[i] == '.' && 0 < i then ReadFraction(s, i + 1, acc, 0, 0)
    else None
  }

  /** Reading the fractional part from i on: `count` digits read so far, worth `acc`. */
  function ReadFraction(s: string, i: nat, whole: nat, acc: nat, count: nat): Option<real>
    requires i <= |s|
    decreases |s| - i
  {
    if i == |s| then (if count == 0 then None else Some(whole as real + Shift(acc as real, count)))
    else if IsDigit(s[i]) then ReadFraction(s, i + 1, whole, acc * 10 + DigitValue(s[i]), count + 1)
    else None
  }

  /** Appending a digit multiplies the value so far by ten and adds the digit. */
  lemma DigitsValueSnoc(s: string, i: nat)
    requires i < |s| && AllDigits(s[..i + 1])
    ensures AllDigits(s[..i]) && DigitsValue(s[..i + 1]) == DigitsValue(s[..i]) * 10 + DigitValue(s[i])
  {
    assert s[..i + 1][..i] == s[..i];
  }

  /** Reading the digits of the fractional part from i on. */
  lemma {:induction false} ReadFractionDigits(s: string, start: nat, i: nat, whole: nat)
    requires start <= i <= |s| && AllDigits(s[start..])
    ensures ReadFraction(s, i, whole, DigitsValue(s[start..i]), i - start) ==
            ReadFraction(s, |s|, whole, DigitsValue(s[start..]), |s| - start)
    decreases |s| - i
  {
    var f := s[start..];
    if i < |s| {
      assert f[..i - start + 1] == s[start..i + 1];
      assert f[..i - start] == s[start..i];
      DigitsValueSnoc(f, i - start);
      ReadFractionDigits(s, start, i + 1, whole);
    } else {
      assert s[start..i] == f;
    }
  }

  /** Reading the digits of the integral part from i on, up to the end or a dot. */
  lemma {:induction false} ReadWholeDigits(s: string, i: nat, d: nat)
    requires i <= d <= |s| && AllDigits(s[..d]) && (d < |s| ==> s[d] == '.')
    ensures ReadWhole(s, i, DigitsValue(s[..i])) == ReadWhole(s, d, DigitsValue(s[..d]))
    decreases d - i
  {
    if i < d {
      assert s[..d][..i + 1] == s[..i + 1];
      assert s[..d][..i] == s[..i];
      DigitsValueSnoc(s[..d], i);
      ReadWholeDigits(s, i + 1, d);
    }
  }

  /** A numeral reads as the value NumeralValue gives its two parts. */
  lemma ReadNumeral(whole: string, frac: string)
    requires |whole| > 0 && AllDigits(whole) && AllDigits(frac)
    ensures ReadNumber(whole) == Some(NumeralValue(whole, ""))
    ensures |frac| > 0 ==> ReadNumber(whole + "." + frac) == Some(NumeralValue(whole, frac))
  {
    assert whole[..0] == [];
    assert whole[..|whole|] == whole;
    ReadWholeDigits(whole, 0, |whole|);
    if |frac| > 0 {
      var s := whole + "." + frac;
      var n := |whole|;
      assert s[..n] == whole && s[..0] == [];
      assert s[n + 1..] == frac && s[n + 1..n + 1] == [];
      ReadWholeDigits(s, 0, n);
      ReadFractionDigits(s, n + 1, n + 1, DigitsValue(whole));
    }
  }

  /** The shortest decimal text of a natural number. */
  function NatText(n: nat): (s: string)
    ensures |s| > 0 && AllDigits(s)
  {
    if n < 10 then [DigitChar(n)] else NatText(n / 10) + [DigitChar(n % 10)]
  }

  /** The decimal text of an integer, with a leading '-' when it is negative. */
  function IntText(i: int): string {
    if i < 0 then "-" + NatText(-i) else NatText(i)
  }

  /** Reading back the text of a natural number gives the number. */
  lemma {:induction false} NatTextRoundTrip(n: nat)
    ensures DigitsValue(NatText(n)) == n
  {
    if n >= 10 {
      NatTextRoundTrip(n / 10);
      var s := NatText(n);
      assert s[..|s| - 1] == NatText(n / 10);
    }
  }

  /** The text has no leading zero, so each number has exactly one text. */
  lemma {:induction false} NatTextCanonical(n: nat)
    ensures NatText(n)[0] == '0' <==> n == 0
  {
    if n >= 10 {
      NatTextCanonical(n / 10);
    }
  }

  /** The text starts with '-' exactly for negative integers. */
  lemma IntTextSign(i: int)
    ensures |IntText(i)| > 0 && (IntText(i)[0] == '-' <==> i < 0)
  {
    if i >= 0 {
      assert IsDigit(NatText(i)[0]);
    }
  }

  /** Distinct integers have distinct texts. */
  lemma IntTextInjective(i: int, j: int)
    ensures IntText(i) == IntText(j) ==> i == j
  {
    if IntText(i) == IntText(j) {
      IntTextSign(i);
      IntTextSign(j);
      if i < 0 {
        assert j < 0;
        SignDropped(NatText(-i));
        SignDropped(NatText(-j));
        NatTextRoundTrip(-i);
        NatTextRoundTrip(-j);
      } else {
        assert j >= 0;
        NatTextRoundTrip(i);
        NatTextRoundTrip(j);
      }
    }
  }

  lemma SignDropped(s: string)
    ensures ("-" + s)[1..] == s
  {
  }
}
