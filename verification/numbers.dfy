/**
 * Numbers as the extractor sees them: runs of decimal digits, Python's
 * float() applied to a string (plain decimal notation), and round(x, 2).
 */
module Numbers {
  import opened Wrappers
  import opened Text

  function DigitValue(c: char): (d: nat)
    requires IsDigit(c)
    ensures d < 10
  {
    c as int - '0' as int
  }

  function DigitChar(d: nat): (c: char)
    requires d < 10
    ensures IsDigit(c) && DigitValue(c) == d
  {
    ('0' as int + d) as char
  }

  predicate AllDigits(s: string) {
    forall k :: 0 <= k < |s| ==> IsDigit(s[k])
  }

  function Pow10(n: nat): (p: nat)
    ensures p > 0
  {
    if n == 0 then 1 else 10 * Pow10(n - 1)
  }

  /** The value of a run of decimal digits, most significant first ("" is 0). */
  function DigitsValue(s: string): (v: nat)
    requires AllDigits(s)
    ensures v < Pow10(|s|)
  {
    if s == [] then 0 else DigitsValue(s[..|s| - 1]) * 10 + DigitValue(s[|s| - 1])
  }

  lemma DigitsValue2(s: string)
    requires |s| == 2 && AllDigits(s)
    ensures DigitsValue(s) == 10 * DigitValue(s[0]) + DigitValue(s[1])
  {
    assert s[..1][..0] == [];
  }

  lemma DigitsValue4(s: string)
    requires |s| == 4 && AllDigits(s)
    ensures DigitsValue(s) == 1000 * DigitValue(s[0]) + 100 * DigitValue(s[1]) + 10 * DigitValue(s[2]) + DigitValue(s[3])
  {
    assert s[..3][..2] == s[..2];
    DigitsValue2(s[..2]);
  }

  /** `n` written with exactly `width` digits, padded with leading zeros. */
  function PadDigits(n: nat, width: nat): (s: string)
    requires n < Pow10(width)
    ensures |s| == width && AllDigits(s) && DigitsValue(s) == n
  {
    if width == 0 then []
    else
      var p := PadDigits(n / 10, width - 1);
      assert (p + [DigitChar(n % 10)])[..width - 1] == p;
      p + [DigitChar(n % 10)]
  }

  /** Writing the value of a digit run back at its own width gives the run. */
  lemma {:induction false} PadDigitsOfValue(s: string)
    requires AllDigits(s)
    ensures PadDigits(DigitsValue(s), |s|) == s
  {
    if s != [] {
      var init := s[..|s| - 1];
      var last := s[|s| - 1];
      PadDigitsOfValue(init);
      var v := DigitsValue(s);
      assert v / 10 == DigitsValue(init) && v % 10 == DigitValue(last);
      assert DigitChar(DigitValue(last)) == last;
      assert s == init + [last];
    }
  }

  /** Index of the first `c` in `s`, or |s| when there is none. */
  function IndexOf(s: string, c: char): (k: nat)
    ensures k <= |s| && c !in s[..k]
    ensures k < |s| ==> s[k] == c
  {
    if s == [] then 0
    else if s[0] == c then 0
    else
      var k := 1 + IndexOf(s[1..], c);
      assert s[..k] == [s[0]] + s[1..][..k - 1];
      k
  }

  /** The value of a decimal written as `whole` digits, a point, and `frac` digits. */
  function DecimalValue(whole: string, frac: string): (v: real)
    requires AllDigits(whole) && AllDigits(frac)
    ensures v >= 0.0
  {
    DigitsValue(whole) as real + DigitsValue(frac) as real / Pow10(|frac|) as real
  }

  /**
   * Digits with at most one decimal point and at least one digit:
   * "12", "12.5", "12." and ".5" are numbers, "." and "" are not.
   */
  function ParseUnsigned(s: string): (r: Option<real>)
    ensures r.Some? ==> r.value >= 0.0
  {
    var k := IndexOf(s, '.');
    var whole := s[..k];
    var frac := if k < |s| then s[k + 1..] else [];
    if AllDigits(whole) && AllDigits(frac) && |whole| + |frac| > 0 then
      Some(DecimalValue(whole, frac))
    else
      None
  }

  /** The first `c` is where `c` occurs with none before it. */
  lemma IndexOfFirst(s: string, c: char, k: nat)
    requires k < |s| && s[k] == c && c !in s[..k]
    ensures IndexOf(s, c) == k
  {
  }

  /** Whole digits, a point and fraction digits read as their decimal value. */
  lemma ParseUnsignedPoint(whole: string, frac: string)
    requires AllDigits(whole) && AllDigits(frac) && |whole| + |frac| > 0
    ensures ParseUnsigned(whole + ['.'] + frac) == Some(DecimalValue(whole, frac))
  {
    var s := whole + ['.'] + frac;
    assert s[..|whole|] == whole;
    assert '.' !in whole by {
      forall k | 0 <= k < |whole| ensures whole[k] != '.' { assert IsDigit(whole[k]); }
    }
    IndexOfFirst(s, '.', |whole|);
    assert s[|whole| + 1..] == frac;
    var k := IndexOf(s, '.');
    assert s[..k] == whole && s[k + 1..] == frac;
  }

  /** An optional sign followed by an unsigned decimal. */
  function ParseDecimal(s: string): (r: Option<real>)
  {
    if s != [] && (s[0] == '+' || s[0] == '-') then
      match ParseUnsigned(s[1..])
      case None => None
      case Some(v) => Some(if s[0] == '-' then -v else v)
    else
      ParseUnsigned(s)
  }

  /**
   * Python's float(str): surrounding whitespace is ignored, then the rest
   * must be a decimal number; None stands for the ValueError.
   */
  function ParseFloat(s: string): (r: Option<real>)
  {
    ParseDecimal(Strip(s))
  }

  lemma AllDigitsAppend(a: string, b: string)
    requires AllDigits(a) && AllDigits(b)
    ensures AllDigits(a + b)
  {
    forall k | 0 <= k < |a + b| ensures IsDigit((a + b)[k]) {
      if k >= |a| { assert (a + b)[k] == b[k - |a|]; }
    }
  }

  /** A plain decimal with a whole part parses to its value. */
  lemma ParseFloatPoint(whole: string, frac: string)
    requires AllDigits(whole) && AllDigits(frac) && whole != []
    ensures ParseFloat(whole + ['.'] + frac) == Some(DecimalValue(whole, frac))
  {
    var plain := whole + ['.'] + frac;
    assert plain[0] == whole[0];
    assert !IsSpace(plain[|plain| - 1]) by {
      if frac == [] { assert plain[|plain| - 1] == '.'; }
      else { assert plain[|plain| - 1] == frac[|frac| - 1]; }
    }
    StripOfTrimmed(plain);
    ParseUnsignedPoint(whole, frac);
  }

  /** A text without a digit is not an unsigned decimal. */
  lemma ParseUnsignedNeedsDigit(s: string)
    requires forall x :: x in s ==> !IsDigit(x)
    ensures ParseUnsigned(s).None?
  {
    var k := IndexOf(s, '.');
    if k > 0 {
      assert s[..k][0] == s[0];
    }
    if k + 1 < |s| {
      assert s[k + 1..][0] == s[k + 1];
    }
  }

  /** float() of a text without a digit raises ValueError. */
  lemma ParseFloatNeedsDigit(s: string)
    requires forall x :: x in s ==> !IsDigit(x)
    ensures ParseFloat(s).None?
  {
    var t := Strip(s);
    forall x | x in t ensures !IsDigit(x) {
      StripKeeps(s, x);
    }
    if t != [] && (t[0] == '+' || t[0] == '-') {
      ParseUnsignedNeedsDigit(t[1..]);
    } else {
      ParseUnsignedNeedsDigit(t);
    }
  }

  /** round(x, 2): the nearest multiple of 0.01, halves rounded up. */
  function Round2(x: real): (r: real)
    ensures x - 0.005 < r <= x + 0.005
  {
    ((x * 100.0 + 0.5).Floor as real) / 100.0
  }

  /** Rounding a value that already has two decimals changes nothing. */
  lemma Round2Cents(k: int)
    ensures Round2(k as real / 100.0) == k as real / 100.0
  {
    var x := k as real / 100.0;
    assert x * 100.0 + 0.5 == k as real + 0.5;
    assert (k as real + 0.5).Floor == k;
  }

  lemma Round2Monotone(x: real, y: real)
    requires x <= y
    ensures Round2(x) <= Round2(y)
  {
    assert (x * 100.0 + 0.5).Floor <= (y * 100.0 + 0.5).Floor;
  }

  /** Rounding keeps a value inside [0, 1]. */
  lemma Round2UnitInterval(x: real)
    requires 0.0 <= x <= 1.0
    ensures 0.0 <= Round2(x) <= 1.0
  {
    Round2Cents(0);
    Round2Cents(100);
    Round2Monotone(0.0, x);
    Round2Monotone(x, 1.0);
  }

}
