/**
 * Display formatting of paces, durations, integers and distances.
 * Numbers arrive as `JsNumber`: absent and `NaN` render as "--".
 */
module Format {
  import opened Js
  import opened Text

  /** The placeholder for a missing value. */
  const Dashes: string := "--"

  predicate Present(x: JsNumber)
  {
    x.Num?
  }

  /** Digits and minus signs only: the text of an integer. */
  predicate NumeralChars(s: string)
  {
    forall i :: 0 <= i < |s| ==> IsDigit(s[i]) || s[i] == '-'
  }

  /** `n.toString().padStart(2, '0')` for an integer field. */
  function PadField(n: int): (r: string)
    ensures |r| >= 2 && NumeralChars(r)
  {
    var t := IntToString(n);
    assert NumeralChars(t);
    PadStart(t, 2, '0')
  }

  // ---------------------------------------------------------------------
  // formatPace

  /** Minutes `Math.floor(x / 60)` and seconds `Math.round(x % 60)`. */
  function PaceFields(x: real): (int, int)
  {
    (Floor(x / 60.0), Round(Mod(x, 60.0)))
  }

  /** No character that `formatPaceRange` uses to mark an open or closed range. */
  predicate NoRangeMark(s: string)
  {
    forall i :: 0 <= i < |s| ==> s[i] != '+' && s[i] != '<' && s[i] != '–'
  }

  lemma NoRangeMarkAppend(a: string, b: string)
    requires NoRangeMark(a) && NoRangeMark(b)
    ensures NoRangeMark(a + b)
  {
    forall i | 0 <= i < |a + b|
      ensures (a + b)[i] != '+' && (a + b)[i] != '<' && (a + b)[i] != '–'
    {
      if i >= |a| { assert (a + b)[i] == b[i - |a|]; }
    }
  }

  /** A pace text followed by " /km". */
  function WithUnit(s: string): (r: string)
    requires NoRangeMark(s)
    ensures r == s + " /km" && NoRangeMark(r)
  {
    var unit := [' ', '/', 'k', 'm'];
    assert NoRangeMark(unit);
    NoRangeMarkAppend(s, unit);
    s + unit
  }

  /** "m:ss" from whole minutes and seconds. */
  function MinutesSeconds(min: int, sec: int): (r: string)
    ensures |r| >= 4 && NoRangeMark(r)
  {
    var m := IntToString(min);
    var p := PadField(sec);
    assert NumeralChars(m);
    var r := m + [':'] + p;
    assert forall i :: 0 <= i < |r| ==> IsDigit(r[i]) || r[i] == '-' || r[i] == ':' by {
      forall i | 0 <= i < |r|
        ensures IsDigit(r[i]) || r[i] == '-' || r[i] == ':'
      {
        if i > |m| { assert r[i] == p[i - |m| - 1]; }
      }
    }
    r
  }

  /** `formatPace(secondsPerKm, withUnit)`: "m:ss", with " /km" when `withUnit`. */
  function FormatPace(secondsPerKm: JsNumber, withUnit: bool): (r: string)
    ensures !Present(secondsPerKm) <==> r == Dashes
    ensures |r| >= 2 && NoRangeMark(r)
  {
    if !Present(secondsPerKm) then Dashes
    else
      var fields := PaceFields(secondsPerKm.v);
      var s := MinutesSeconds(fields.0, fields.1);
      if withUnit then WithUnit(s) else s
  }

  /** The unit is exactly the suffix " /km". */
  lemma FormatPaceUnit(secondsPerKm: real)
    ensures FormatPace(Num(secondsPerKm), true) == FormatPace(Num(secondsPerKm), false) + " /km"
  {
  }

  /** Rounding commutes with shifting by a whole number. */
  lemma RoundShift(x: real, k: int)
    ensures Round(x - k as real) == Round(x) - k
  {
    var r := Round(x);
    assert (r - k) as real - 0.5 <= x - k as real < (r - k) as real + 0.5;
  }

  /** For a non-negative pace the minutes and seconds add up to the rounded
      total, with the seconds between 0 and 60: "60" can be shown. */
  lemma PaceFieldsSum(x: real)
    requires 0.0 <= x
    ensures var (min, sec) := PaceFields(x);
      min >= 0 && 0 <= sec <= 60 && min * 60 + sec == Round(x)
  {
    var min := Floor(x / 60.0);
    assert Trunc(x / 60.0) == min;
    assert Mod(x, 60.0) == x - (60 * min) as real;
    RoundShift(x, 60 * min);
  }

  /** 299.6 s/km is shown as "4:60". */
  lemma FormatPaceSixtySeconds()
    ensures FormatPace(Num(299.6), false) == "4:60"
  {
    PaceFieldsOfSample();
    PadSixty();
    FormatPaceFromFields(299.6, 4, 60);
    FourSixty();
  }

  lemma FourSixty()
    ensures IntToString(4) + ":" + PadField(60) == "4:60"
  {
    PadSixty();
    FourAsText();
    ConcatFourSixty(IntToString(4), PadField(60));
  }

  lemma FourAsText()
    ensures IntToString(4) == "4"
  {
    assert DigitChar(4) == '4';
  }

  lemma ConcatFourSixty(m: string, s: string)
    requires m == "4" && s == "60"
    ensures m + ":" + s == "4:60"
  {
  }

  lemma FormatPaceFromFields(x: real, min: int, sec: int)
    requires PaceFields(x) == (min, sec)
    ensures FormatPace(Num(x), false) == IntToString(min) + ":" + PadField(sec)
  {
  }

  lemma PaceFieldsOfSample()
    ensures PaceFields(299.6) == (4, 60)
  {
    assert Floor(299.6 / 60.0) == 4;
    assert Trunc(299.6 / 60.0) == 4;
    assert Mod(299.6, 60.0) == 59.6;
    assert Round(59.6) == 60;
  }

  lemma PadSixty()
    ensures PadField(60) == "60"
  {
    assert NatToString(6) == "6";
    assert NatToString(60) == NatToString(6) + [DigitChar(0)];
    assert IntToString(60) == "60";
  }

  // ---------------------------------------------------------------------
  // formatDuration

  /** Hours `floor(s / 3600)`, minutes `floor((s % 3600) / 60)`, seconds `floor(s % 60)`. */
  function DurationFields(s: real): (int, int, int)
  {
    (Floor(s / 3600.0), Floor(Mod(s, 3600.0) / 60.0), Floor(Mod(s, 60.0)))
  }

  /** `formatDuration`: "h:mm:ss" when there are whole hours, else "m:ss". */
  function FormatDuration(seconds: JsNumber): (r: string)
    ensures !Present(seconds) <==> r == Dashes
  {
    if !Present(seconds) then Dashes
    else
      var (h, m, s) := DurationFields(seconds.v);
      var tail := ":" + PadField(s);
      if h > 0 then
        assert (IntToString(h) + ":" + PadField(m) + tail)[|IntToString(h)|] == ':';
        IntToString(h) + ":" + PadField(m) + tail
      else
        assert (IntToString(m) + tail)[|IntToString(m)|] == ':';
        IntToString(m) + tail
  }

  /** For a non-negative duration the fields are a mixed-radix reading of the
      whole seconds: minutes and seconds below 60, and
      `h * 3600 + m * 60 + s == floor(seconds)`. */
  lemma DurationFieldsSum(seconds: real)
    requires 0.0 <= seconds
    ensures var (h, m, s) := DurationFields(seconds);
      h >= 0 && 0 <= m < 60 && 0 <= s < 60 && h * 3600 + m * 60 + s == Floor(seconds)
  {
    var n := Floor(seconds);
    FloorDiv(seconds, 3600);
    ModIntegerPart(seconds, 3600);
    ModIntegerPart(seconds, 60);
    var r := Mod(seconds, 3600.0);
    FloorDiv(r, 60);
    MixedRadix(n);
  }

  lemma MixedRadix(n: nat)
    ensures (n % 3600) / 60 < 60
    ensures (n / 3600) * 3600 + ((n % 3600) / 60) * 60 + n % 60 == n
  {
    var h, q := n / 3600, n % 3600;
    assert n == 3600 * h + q;
    assert n == 60 * (60 * h) + q;
    assert q == 60 * (q / 60) + q % 60;
    assert n % 60 == q % 60;
  }

  /** The rendered value for every duration, in terms of its fields. */
  lemma FormatDurationFields(seconds: real)
    ensures var (h, m, s) := DurationFields(seconds);
      FormatDuration(Num(seconds)) ==
        if h > 0 then IntToString(h) + ":" + PadField(m) + ":" + PadField(s)
        else IntToString(m) + ":" + PadField(s)
  {
  }

  /** Division by 60 is determined by a quotient and a remainder below 60. */
  lemma DivSixty(n: int, q: int, r: int)
    requires n == 60 * q + r && 0 <= r < 60
    ensures n / 60 == q && n % 60 == r
  {
  }

  /** Division by 3600 is determined by a quotient and a remainder below 3600. */
  lemma DivHour(n: int, q: int, r: int)
    requires n == 3600 * q + r && 0 <= r < 3600
    ensures n / 3600 == q && n % 3600 == r
  {
  }

  /** A non-negative duration renders its whole seconds `n` as
      "h:mm:ss" from `n / 3600`, `(n % 3600) / 60` and `n % 60` when `n` is
      an hour or more, else as "m:ss" from `n / 60` and `n % 60`. */
  lemma FormatDurationWholeSeconds(seconds: real)
    requires 0.0 <= seconds
    ensures var n := Floor(seconds);
      FormatDuration(Num(seconds)) ==
        if n >= 3600 then IntToString(n / 3600) + ":" + PadField((n % 3600) / 60) + ":" + PadField(n % 60)
        else IntToString(n / 60) + ":" + PadField(n % 60)
  {
    var (h, m, s) := DurationFields(seconds);
    DurationFieldsSum(seconds);
    WholeSecondsFields(Floor(seconds), h, m, s);
    FormatDurationFields(seconds);
  }

  /** Whole seconds `n` made of `h` hours, `m` minutes and `s` seconds give
      back those fields by division. */
  lemma WholeSecondsFields(n: int, h: int, m: int, s: int)
    requires h >= 0 && 0 <= m < 60 && 0 <= s < 60 && n == h * 3600 + m * 60 + s
    ensures n / 3600 == h && (n % 3600) / 60 == m && n % 60 == s
    ensures n >= 3600 <==> h > 0
    ensures h == 0 ==> n / 60 == m
  {
    DivHour(n, h, m * 60 + s);
    DivSixty(m * 60 + s, m, s);
    DivSixty(n, h * 60 + m, s);
  }

  /** The long form appears exactly for durations of an hour or more. */
  lemma DurationHoursShown(seconds: real)
    requires 0.0 <= seconds
    ensures DurationFields(seconds).0 > 0 <==> seconds >= 3600.0
  {
    FloorDiv(seconds, 3600);
  }

  // ---------------------------------------------------------------------
  // formatInt, formatCadence

  /** `formatInt(value, unit)`: the rounded value, then " unit" when a unit is given. */
  function FormatInt(value: JsNumber, unit: string): (r: string)
    ensures !Present(value) <==> r == Dashes
    ensures Present(value) && unit == "" ==> r == IntToString(Round(value.v))
    ensures Present(value) && unit != "" ==> r == IntToString(Round(value.v)) + " " + unit
  {
    if !Present(value) then Dashes
    else if unit != "" then
      var digits := IntToString(Round(value.v));
      assert (digits + " " + unit)[|digits|] == ' ';
      digits + " " + unit
    else IntToString(Round(value.v))
  }

  /** A whole number is shown as itself. */
  lemma FormatIntWhole(k: int, unit: string)
    ensures FormatInt(Num(k as real), unit) == if unit == "" then IntToString(k) else IntToString(k) + " " + unit
  {
    assert Round(k as real) == k;
  }

  /** `formatCadence`: steps per minute with the unit "步/分". */
  function FormatCadence(spm: JsNumber): (r: string)
    ensures r == FormatInt(spm, "步/分")
  {
    FormatInt(spm, "步/分")
  }

  // ---------------------------------------------------------------------
  // formatDistance, formatDistanceFromMeters

  /** `x.toFixed(2)` on the exact value: a sign for negatives, the hundredths
      rounded half up, then "int.frac" with two fraction digits. */
  function ToFixed2(x: real): (r: string)
    ensures |r| >= 4 && r[|r| - 3] == '.' && AllDigits(r[|r| - 2..])
  {
    var n := Round(Abs(x) * 100.0);
    assert n >= 0;
    (if x < 0.0 then "-" else "") + Fixed2Body(n)
  }

  /** Hundredths `n` written as "int.frac" with two fraction digits. */
  function Fixed2Body(n: nat): (r: string)
    ensures |r| >= 4 && r[|r| - 3] == '.' && AllDigits(r[|r| - 2..]) && IsDigit(r[0])
  {
    var whole := NatToString(n / 100);
    var frac := Pad2(n % 100);
    var r := whole + ['.'] + frac;
    assert |frac| >= 2;
    assert r[|whole|] == '.';
    assert r[|whole| + 1..] == frac;
    assert r[0] == whole[0];
    r
  }

  /** Text joined at a point splits back at the point. */
  lemma SplitAtPoint(whole: string, frac: string)
    requires |frac| == 2
    ensures var r := whole + ['.'] + frac;
      r[..|r| - 3] == whole && r[|r| - 2..] == frac
  {
    var r := whole + ['.'] + frac;
    assert r[..|whole|] == whole;
    assert r[|whole| + 1..] == frac;
  }

  /** "int.frac" splits into the whole units and the two fraction digits. */
  lemma Fixed2BodyParts(n: nat)
    ensures var r := Fixed2Body(n);
      r[..|r| - 3] == NatToString(n / 100) && r[|r| - 2..] == Pad2(n % 100)
  {
    var whole := NatToString(n / 100);
    var frac := Pad2(n % 100);
    assert Fixed2Body(n) == whole + ['.'] + frac;
    SplitAtPoint(whole, frac);
  }

  /** "int.frac" reads back as the hundredths it was written from. */
  lemma Fixed2BodyReadBack(n: nat)
    ensures var r := Fixed2Body(n);
      AllDigits(r[..|r| - 3]) && DigitsValue(r[..|r| - 3]) * 100 + DigitsValue(r[|r| - 2..]) == n
  {
    var r := Fixed2Body(n);
    Fixed2BodyParts(n);
    var whole, frac := r[..|r| - 3], r[|r| - 2..];
    NatToStringRoundTrip(n / 100);
    Pad2RoundTrip(n % 100);
    assert DigitsValue(whole) == n / 100;
    assert DigitsValue(frac) == n % 100;
  }

  /** `toFixed(2)` is a leading '-' exactly for negatives, then the rounded
      hundredths of the magnitude as "int.frac" (read back by
      `Fixed2BodyReadBack`). */
  lemma ToFixed2ReadBack(x: real)
    ensures var r := ToFixed2(x);
      (r[0] == '-' <==> x < 0.0) &&
      (if x < 0.0 then r[1..] else r) == Fixed2Body(Round(Abs(x) * 100.0))
  {
    var n := Round(Abs(x) * 100.0);
    assert n >= 0;
    var body := Fixed2Body(n);
    if x < 0.0 {
      assert ToFixed2(x) == "-" + body;
      assert ("-" + body)[1..] == body;
    } else {
      assert ToFixed2(x) == body;
    }
  }

  /** The hundredths `toFixed(2)` shows are within half a hundredth of the value. */
  lemma ToFixed2Accuracy(x: real)
    ensures var n := Round(Abs(x) * 100.0);
      n >= 0 && Abs(n as real / 100.0 - Abs(x)) <= 0.005
  {
  }

  /** `formatDistance(km)`: two decimals then " km". */
  function FormatDistance(km: JsNumber): (r: string)
    ensures !Present(km) <==> r == Dashes
    ensures Present(km) ==> r == ToFixed2(km.v) + " km"
    ensures Present(km) ==> |r| > 3 && r[|r| - 3..] == " km"
  {
    if !Present(km) then Dashes else ToFixed2(km.v) + " km"
  }

  /** `formatDistanceFromMeters(m)`: the same rendering of `m / 1000` kilometres. */
  function FormatDistanceFromMeters(meters: JsNumber): (r: string)
    ensures !Present(meters) ==> r == Dashes
  {
    if !Present(meters) then Dashes else ToFixed2(meters.v / 1000.0) + " km"
  }

  /** A distance in metres renders as the same distance in kilometres. */
  lemma MetersAsKilometres(meters: JsNumber)
    ensures FormatDistanceFromMeters(meters) ==
      if Present(meters) then FormatDistance(Num(meters.v / 1000.0)) else FormatDistance(meters)
  {
    if Present(meters) {
      var km := meters.v / 1000.0;
      assert FormatDistance(Num(km)) == ToFixed2(km) + " km";
    }
  }
}
