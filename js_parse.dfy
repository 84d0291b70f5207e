/**
 * `parseInt` and `parseFloat` on strings: leading white space is skipped,
 * an optional sign is read, and the longest numeric prefix is converted;
 * with no digit the result is `NaN`. `parseInt` without a radix also reads
 * a "0x"/"0X" prefix as hexadecimal; `parseFloat` also reads an exponent.
 */
module JsParse {
  import opened Js
  import opened Text

  /** The longest run of decimal digits at the start of `s`. */
  function LeadingDigits(s: string): (r: string)
    ensures AllDigits(r) && r <= s
    ensures |r| < |s| ==> !IsDigit(s[|r|])
  {
    if s != [] && IsDigit(s[0]) then [s[0]] + LeadingDigits(s[1..]) else []
  }

  predicate IsHexDigit(c: char)
  {
    IsDigit(c) || 'a' <= c <= 'f' || 'A' <= c <= 'F'
  }

  function HexDigitValue(c: char): (d: nat)
    requires IsHexDigit(c)
    ensures d < 16
  {
    if IsDigit(c) then DigitValue(c)
    else if 'a' <= c <= 'f' then c as int - 'a' as int + 10
    else c as int - 'A' as int + 10
  }

  /** The longest run of hexadecimal digits at the start of `s`. */
  function LeadingHexDigits(s: string): (r: string)
    ensures r <= s && forall i :: 0 <= i < |r| ==> IsHexDigit(r[i])
    ensures |r| < |s| ==> !IsHexDigit(s[|r|])
  {
    if s != [] && IsHexDigit(s[0]) then [s[0]] + LeadingHexDigits(s[1..]) else []
  }

  function HexValue(s: string): nat
    requires forall i :: 0 <= i < |s| ==> IsHexDigit(s[i])
  {
    if s == [] then 0 else HexValue(s[..|s| - 1]) * 16 + HexDigitValue(s[|s| - 1])
  }

  /** The sign in front of a number: -1 after a '-', else 1 (a '+' is skipped). */
  function SignOf(s: string): int
  {
    if s != [] && s[0] == '-' then -1 else 1
  }

  function Unsigned(s: string): (r: string)
    ensures |r| <= |s|
  {
    if s != [] && (s[0] == '-' || s[0] == '+') then s[1..] else s
  }

  predicate HexPrefixed(s: string)
  {
    |s| >= 2 && s[0] == '0' && (s[1] == 'x' || s[1] == 'X')
  }

  /** `parseInt(s, 10)`. */
  function ParseInt10(s: string): (r: JsNumber)
    ensures !r.Missing?
    ensures r.NaN? <==> LeadingDigits(Unsigned(TrimStart(s))) == []
    ensures r.Num? ==> r.v.Floor as real == r.v
  {
    var t := TrimStart(s);
    var digits := LeadingDigits(Unsigned(t));
    if digits == [] then NaN else Num((SignOf(t) * DigitsValue(digits)) as real)
  }

  /** `parseInt(s)`: decimal, or hexadecimal after "0x"/"0X". */
  function ParseInt(s: string): (r: JsNumber)
    ensures !r.Missing?
    ensures !HexPrefixed(Unsigned(TrimStart(s))) ==> r == ParseInt10(s)
  {
    var t := TrimStart(s);
    var u := Unsigned(t);
    if HexPrefixed(u) then
      var digits := LeadingHexDigits(u[2..]);
      if digits == [] then NaN else Num((SignOf(t) * HexValue(digits)) as real)
    else ParseInt10(s)
  }

  function Pow10(n: nat): (r: nat)
    ensures r >= 1
  {
    if n == 0 then 1 else 10 * Pow10(n - 1)
  }

  /** `m × 10^e` for a whole exponent of either sign. */
  function Scaled(m: real, e: int): (r: real)
    ensures e == 0 ==> r == m
    ensures m >= 0.0 ==> r >= 0.0
  {
    if e >= 0 then m * Pow10(e) as real else m / Pow10(-e) as real
  }

  /** The exponent part at the start of `s`: 'e' or 'E', an optional sign
      and at least one digit; 0 when there is none, for then nothing of `s`
      is read. */
  function ExponentOf(s: string): (e: int)
    ensures e != 0 ==> |s| >= 2 && (s[0] == 'e' || s[0] == 'E')
  {
    if s == [] || (s[0] != 'e' && s[0] != 'E') then 0
    else
      var digits := LeadingDigits(Unsigned(s[1..]));
      if digits == [] then 0
      else if SignOf(s[1..]) < 0 then -(DigitsValue(digits) as int)
      else DigitsValue(digits)
  }

  /** The digits after a point at the start of `s`, if it starts with one. */
  function FractionDigits(s: string): (r: string)
    ensures AllDigits(r)
    ensures r != [] ==> s != [] && s[0] == '.' && r <= s[1..]
  {
    if s != [] && s[0] == '.' then LeadingDigits(s[1..]) else []
  }

  /** The value of the digits after a point: `0.f` for digits `f`. */
  function FractionValue(f: string): (r: real)
    requires AllDigits(f)
    ensures f == [] ==> r == 0.0
    ensures r >= 0.0
  {
    DigitsValue(f) as real / Pow10(|f|) as real
  }

  /** The value of a mantissa with whole digits `whole` and fraction
      digits `fraction`. */
  function MantissaValue(whole: string, fraction: string): (r: real)
    requires AllDigits(whole) && AllDigits(fraction)
    ensures r >= 0.0
  {
    DigitsValue(whole) as real + FractionValue(fraction)
  }

  /** A mantissa is its whole part plus its fraction digits over the power
      of ten of their count. */
  lemma MantissaValueIs(whole: string, fraction: string)
    requires AllDigits(whole) && AllDigits(fraction)
    ensures MantissaValue(whole, fraction) ==
      DigitsValue(whole) as real + DigitsValue(fraction) as real / Pow10(|fraction|) as real
  {
  }

  /** The decimal mantissa at the start of unsigned text `u` (digits,
      optionally a point and more digits, at least one digit in all) with
      the text after it; `None` when there is no digit. */
  function Mantissa(u: string): (r: Option<(real, string)>)
    ensures r.None? <==> LeadingDigits(u) == [] && FractionDigits(u) == []
    ensures r.Some? ==> r.value.0 >= 0.0 && |r.value.1| < |u|
  {
    var whole := LeadingDigits(u);
    var rest := u[|whole|..];
    var fraction := FractionDigits(rest);
    if whole == [] && fraction == [] then None
    else
      var after := if rest != [] && rest[0] == '.' then rest[1 + |fraction|..] else rest;
      Some((MantissaValue(whole, fraction), after))
  }

  /** `parseFloat(s)` for decimal notation: the sign, the mantissa, then
      the exponent if one follows. */
  function ParseFloat(s: string): (r: JsNumber)
    ensures !r.Missing?
    ensures r.NaN? <==> Mantissa(Unsigned(TrimStart(s))).None?
    ensures Unsigned(TrimStart(s)) == [] || !(IsDigit(Unsigned(TrimStart(s))[0]) || Unsigned(TrimStart(s))[0] == '.')
            ==> r.NaN?
  {
    var t := TrimStart(s);
    match Mantissa(Unsigned(t))
    case None => NaN
    case Some((mantissa, after)) =>
      var magnitude := Scaled(mantissa, ExponentOf(after));
      if SignOf(t) < 0 then Num(-magnitude) else Num(magnitude)
  }

  /** The digits of `n`, followed by anything that does not start with a
      digit, read back as `n`. */
  lemma {:induction false} LeadingDigitsOf(d: string, tail: string)
    requires AllDigits(d)
    requires tail == [] || !IsDigit(tail[0])
    ensures LeadingDigits(d + tail) == d
  {
    if d != [] {
      assert (d + tail)[1..] == d[1..] + tail;
      LeadingDigitsOf(d[1..], tail);
    } else {
      assert d + tail == tail;
    }
  }

  /** A string that starts with a digit has no white space or sign to skip. */
  lemma {:induction false} DigitFirst(s: string)
    requires s != [] && IsDigit(s[0])
    ensures TrimStart(s) == s && Unsigned(s) == s && SignOf(s) == 1
  {
    assert !IsSpace(s[0]) && s[0] != '-' && s[0] != '+';
  }

  /** `parseInt(String(n) + tail, 10)` is `n` when `tail` does not go on
      with a digit, as in "45abc"; so is `parseInt` without a radix unless
      the text reads "0x...". */
  lemma ParseIntPrefix(n: nat, tail: string)
    requires tail == [] || !IsDigit(tail[0])
    ensures ParseInt10(NatToString(n) + tail) == Num(n as real)
    ensures !(n == 0 && tail != [] && (tail[0] == 'x' || tail[0] == 'X')) ==>
      ParseInt(NatToString(n) + tail) == Num(n as real)
  {
    var d := NatToString(n);
    var s := d + tail;
    assert s[0] == d[0];
    DigitFirst(s);
    LeadingDigitsOf(d, tail);
    NatToStringRoundTrip(n);
    assert ParseInt10(s) == Num(n as real);
  }

  /** `parseFloat(String(n) + tail)` is `n` when `tail` does not go on with
      a digit, a point or an exponent, as in "45abc". */
  lemma ParseFloatPrefix(n: nat, tail: string)
    requires tail == [] || (!IsDigit(tail[0]) && tail[0] != '.' && tail[0] != 'e' && tail[0] != 'E')
    ensures ParseFloat(NatToString(n) + tail) == Num(n as real)
  {
    ParseFloatWhole(NatToString(n), tail);
    NatToStringRoundTrip(n);
    assert ExponentOf(tail) == 0;
  }

  /** The mantissa of digits followed by no digit and no point is their value. */
  lemma MantissaWhole(d: string, after: string)
    requires d != [] && AllDigits(d)
    requires after == [] || (!IsDigit(after[0]) && after[0] != '.')
    ensures Mantissa(d + after) == Some((DigitsValue(d) as real, after))
  {
    LeadingDigitsOf(d, after);
    assert (d + after)[|d|..] == after;
    assert FractionDigits(after) == [];
  }

  /** `parseFloat` of digits with no point after them is their value scaled
      by the exponent that follows. */
  lemma ParseFloatWhole(d: string, after: string)
    requires d != [] && AllDigits(d)
    requires after == [] || (!IsDigit(after[0]) && after[0] != '.')
    ensures ParseFloat(d + after) == Num(Scaled(DigitsValue(d) as real, ExponentOf(after)))
  {
    var s := d + after;
    assert s[0] == d[0];
    DigitFirst(s);
    MantissaWhole(d, after);
  }

  /** Digits, a point and possibly more digits, followed by no digit, give
      the whole digits' value plus the fraction's, and the text after them. */
  lemma MantissaFraction(d: string, f: string, after: string)
    requires AllDigits(d) && AllDigits(f) && (d != [] || f != [])
    requires after == [] || !IsDigit(after[0])
    ensures Mantissa(d + (['.'] + f + after)) == Some((MantissaValue(d, f), after))
  {
    var rest := ['.'] + f + after;
    var u := d + rest;
    PointRest(f, after);
    LeadingDigitsOf(d, rest);
    assert LeadingDigits(u) == d;
    assert u[|d|..] == rest;
    assert FractionDigits(rest) == f;
    assert f != [] || d != [];
  }

  /** After a point, the fraction digits are read and the text after them
      is left. */
  lemma PointRest(f: string, after: string)
    requires AllDigits(f)
    requires after == [] || !IsDigit(after[0])
    ensures var rest := ['.'] + f + after;
      FractionDigits(rest) == f && rest[1 + |f|..] == after && !IsDigit(rest[0])
  {
    var rest := ['.'] + f + after;
    assert rest[1..] == f + after;
    LeadingDigitsOf(f, after);
    assert rest[1 + |f|..] == after;
  }

  /** Text that starts with a digit and whose mantissa has no exponent
      after it reads as the mantissa. */
  lemma ParseFloatOfMantissa(s: string, m: real, after: string)
    requires s != [] && IsDigit(s[0])
    requires Mantissa(s) == Some((m, after)) && ExponentOf(after) == 0
    ensures ParseFloat(s) == Num(m)
  {
    DigitFirst(s);
  }

  /** `parseFloat` of digits, a point and more digits, followed by neither
      a digit nor an exponent, is the mantissa they spell. */
  lemma ParseFloatPointed(d: string, f: string, tail: string)
    requires d != [] && AllDigits(d) && AllDigits(f)
    requires tail == [] || (!IsDigit(tail[0]) && tail[0] != 'e' && tail[0] != 'E')
    ensures ParseFloat(d + ['.'] + f + tail) == Num(MantissaValue(d, f))
  {
    var s := d + (['.'] + f + tail);
    assert d + ['.'] + f + tail == s;
    assert s[0] == d[0];
    MantissaFraction(d, f, tail);
    assert ExponentOf(tail) == 0;
    ParseFloatOfMantissa(s, MantissaValue(d, f), tail);
  }

  /** `parseFloat` of digits, a point and more digits, followed by neither
      a digit nor an exponent, is the whole part plus the fraction, as
      "45.5" reads as 45.5. */
  lemma ParseFloatFraction(d: string, f: string, tail: string)
    requires d != [] && AllDigits(d) && AllDigits(f)
    requires tail == [] || (!IsDigit(tail[0]) && tail[0] != 'e' && tail[0] != 'E')
    ensures ParseFloat(d + ['.'] + f + tail) ==
      Num(DigitsValue(d) as real + DigitsValue(f) as real / Pow10(|f|) as real)
  {
    ParseFloatPointed(d, f, tail);
    MantissaValueIs(d, f);
  }

  /** "45.5" reads as 45 plus 5 tenths. */
  lemma FortyFiveFiveParts()
    ensures ParseFloat("45.5") == Num(45 as real + 5 as real / 10 as real)
  {
    var d, f: string := ['4', '5'], ['5'];
    FortyFiveFiveDigits(d, f);
    assert "45.5" == d + ['.'] + f + [];
    ParseFloatFraction(d, f, []);
  }

  lemma FortyFiveFiveDigits(d: string, f: string)
    requires d == ['4', '5'] && f == ['5']
    ensures AllDigits(d) && AllDigits(f)
    ensures DigitsValue(d) == 45 && DigitsValue(f) == 5 && Pow10(|f|) == 10
  {
    assert d[..1] == ['4'] && ['4'][..0] == [] && f[..0] == [];
    assert DigitValue('4') == 4 && DigitValue('5') == 5;
    assert DigitsValue(['4']) == 4;
    assert DigitsValue(d) == DigitsValue(['4']) * 10 + DigitValue('5');
    assert DigitsValue(f) == DigitsValue([]) * 10 + DigitValue('5');
    assert Pow10(|f|) == 10 * Pow10(0);
  }

  /** "45.5" is read as 45.5. */
  lemma ParseFloatFortyFiveFive()
    ensures ParseFloat("45.5") == Num(45.5)
  {
    FortyFiveFiveParts();
    FortyFiveFiveValue();
  }

  lemma FortyFiveFiveValue()
    ensures 45 as real + 5 as real / 10 as real == 45.5
  {
  }


  /** An optional sign in front of digits is skipped, and only '-' is negative. */
  lemma SignedDigits(sign: string, d: string, tail: string)
    requires sign == "" || sign == "+" || sign == "-"
    requires d != [] && AllDigits(d)
    ensures Unsigned(sign + d + tail) == d + tail
    ensures SignOf(sign + d + tail) < 0 <==> sign == "-"
  {
    var body := sign + d + tail;
    if sign == "" {
      assert body == d + tail;
      assert IsDigit(body[0]);
    } else {
      assert body[0] == sign[0];
      assert body[1..] == d + tail;
    }
  }

  /** An exponent "e", an optional sign and a run of digits, followed by
      anything that does not go on with a digit, reads as the digits' value
      with that sign. */
  lemma ExponentOfDigits(sign: string, d: string, tail: string)
    requires sign == "" || sign == "+" || sign == "-"
    requires d != [] && AllDigits(d)
    requires tail == [] || !IsDigit(tail[0])
    ensures ExponentOf(['e'] + sign + d + tail) == if sign == "-" then -(DigitsValue(d) as int) else DigitsValue(d)
  {
    var body := sign + d + tail;
    assert ['e'] + sign + d + tail == ['e'] + body;
    assert (['e'] + body)[1..] == body;
    SignedDigits(sign, d, tail);
    LeadingDigitsOf(d, tail);
  }

  /** Digits, then "e", an optional sign and more digits, read as the first
      run's value scaled by the second's, negated after a '-'. */
  lemma ParseFloatScaled(d: string, sign: string, e: string, tail: string)
    requires sign == "" || sign == "+" || sign == "-"
    requires d != [] && AllDigits(d) && e != [] && AllDigits(e)
    requires tail == [] || !IsDigit(tail[0])
    ensures ParseFloat(d + (['e'] + sign + e + tail)) ==
      Num(Scaled(DigitsValue(d) as real, if sign == "-" then -(DigitsValue(e) as int) else DigitsValue(e)))
  {
    var after := ['e'] + sign + e + tail;
    assert after[0] == 'e';
    ParseFloatWhole(d, after);
    ExponentOfDigits(sign, e, tail);
  }

  /** Scaling by a non-negative exponent multiplies by its power of ten. */
  lemma ScaledUp(m: real, k: nat)
    ensures Scaled(m, k) == m * Pow10(k) as real
  {
  }

  /** Scaling by a negative exponent divides by its power of ten. */
  lemma ScaledDown(m: real, k: nat)
    ensures Scaled(m, -(k as int)) == m / Pow10(k) as real
  {
  }

  /** "1e2" reads as 1 scaled by the exponent 2. */
  lemma OneEtwoScaled()
    ensures ParseFloat("1e2") == Num(Scaled(1.0, 2))
  {
    var d, e: string := ['1'], ['2'];
    assert DigitsValue(d) == 1 && DigitsValue(e) == 2;
    assert "1e2" == d + (['e'] + "" + e + []);
    ParseFloatScaled(d, "", e, []);
  }

  /** "1e2" is read as 100. */
  lemma ParseFloatOneEtwo()
    ensures ParseFloat("1e2") == Num(100.0)
  {
    OneEtwoScaled();
    HundredScaled();
  }

  lemma HundredScaled()
    ensures Scaled(1.0, 2) == 100.0
  {
    ScaledUp(1.0, 2);
    assert Pow10(2) == 100;
  }
}
