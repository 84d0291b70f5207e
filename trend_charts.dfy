/**
 * The per-record trend charts of an activity: outlier cleaning by forward
 * fill, the pace and stride series, elapsed-time labels, the x-axis label
 * interval and the render guards. The two chart components share the same
 * cleaning function; the newer one adds the pace chart.
 */
module TrendCharts {
  import opened Js
  import opened Text
  import Format

  /** One sampled record of an activity; absent measurements are `None`. */
  datatype Sample = Sample(
    elapsedSec: real,
    heartRate: Option<real>,
    cadence: Option<real>,
    stepLength: Option<real>,
    pace: Option<real>)

  /** Plausible ranges: heart rate in bpm, cadence in steps/min, stride in cm,
      pace in s/km (3:00 to 15:00). */
  const HrMin := 40.0
  const HrMax := 220.0
  const CadenceMin := 100.0
  const CadenceMax := 220.0
  const StrideCmMin := 30.0
  const StrideCmMax := 180.0
  const PaceMinSec := 180.0
  const PaceMaxSec := 900.0
  const FiveMinSec := 300.0

  predicate InRange(v: Option<real>, lo: real, hi: real)
  {
    v.Some? && lo <= v.value <= hi
  }

  /** The most recent in-range value of `s`, or `None` when there is none. */
  function LastInRange(s: seq<Option<real>>, lo: real, hi: real): (r: Option<real>)
    ensures r.Some? ==> InRange(r, lo, hi) && r in s
    ensures r.None? <==> forall i :: 0 <= i < |s| ==> !InRange(s[i], lo, hi)
  {
    if s == [] then None
    else if InRange(s[|s| - 1], lo, hi) then s[|s| - 1]
    else
      var r := LastInRange(s[..|s| - 1], lo, hi);
      assert forall i :: 0 <= i < |s| - 1 ==> s[..|s| - 1][i] == s[i];
      r
  }

  /** The cleaned series, element by element: each position shows the latest
      in-range value up to and including it. */
  function ForwardFilled(values: seq<Option<real>>, lo: real, hi: real): (r: seq<Option<real>>)
    ensures |r| == |values|
  {
    seq(|values|, i requires 0 <= i < |values| => LastInRange(values[..i + 1], lo, hi))
  }

  /** `filterOutliersWithForwardFill(values, min, max)`: a scan carrying the
      last in-range value. */
  method FilterOutliersWithForwardFill(values: seq<Option<real>>, lo: real, hi: real)
    returns (out: seq<Option<real>>)
    ensures out == ForwardFilled(values, lo, hi)
  {
    var lastValid: Option<real> := None;
    out := [];
    for i := 0 to |values|
      invariant |out| == i
      invariant lastValid == LastInRange(values[..i], lo, hi)
      invariant forall k :: 0 <= k < i ==> out[k] == LastInRange(values[..k + 1], lo, hi)
    {
      assert values[..i + 1][..i] == values[..i];
      var v := values[i];
      if v.Some? && v.value >= lo && v.value <= hi {
        lastValid := v;
      }
      out := out + [lastValid];
    }
  }

  /** In-range values pass through unchanged. */
  lemma FillKeepsInRange(values: seq<Option<real>>, lo: real, hi: real, i: nat)
    requires i < |values| && InRange(values[i], lo, hi)
    ensures ForwardFilled(values, lo, hi)[i] == values[i]
  {
    assert values[..i + 1][i] == values[i];
  }

  /** Anything else is replaced by the latest earlier in-range value, or by `None`. */
  lemma FillReplacesOutliers(values: seq<Option<real>>, lo: real, hi: real, i: nat)
    requires i < |values| && !InRange(values[i], lo, hi)
    ensures ForwardFilled(values, lo, hi)[i] == LastInRange(values[..i], lo, hi)
  {
    assert values[..i + 1][..i] == values[..i];
  }

  /** Every value shown lies in the range. */
  lemma FillWithinRange(values: seq<Option<real>>, lo: real, hi: real, i: nat)
    requires i < |values| && ForwardFilled(values, lo, hi)[i].Some?
    ensures lo <= ForwardFilled(values, lo, hi)[i].value <= hi
  {
  }

  /** Once an in-range value has been seen, no gap is shown any more. */
  lemma FillNoGapAfterFirstValid(values: seq<Option<real>>, lo: real, hi: real, j: nat, i: nat)
    requires j <= i < |values| && InRange(values[j], lo, hi)
    ensures ForwardFilled(values, lo, hi)[i].Some?
  {
    assert values[..i + 1][j] == values[j];
  }

  lemma AllGapsBefore(values: seq<Option<real>>, lo: real, hi: real, i: nat)
    requires i < |values| && ForwardFilled(values, lo, hi)[i].None?
    ensures forall k :: 0 <= k <= i ==> ForwardFilled(values, lo, hi)[k].None?
  {
    forall k | 0 <= k <= i
      ensures ForwardFilled(values, lo, hi)[k].None?
    {
      if ForwardFilled(values, lo, hi)[k].Some? {
        var w := LastInRange(values[..k + 1], lo, hi).value;
        var j :| 0 <= j <= k && values[j] == Some(w);
        FillNoGapAfterFirstValid(values, lo, hi, j, i);
      }
    }
  }

  /** Cleaning an already cleaned series changes nothing. */
  lemma FillIdempotent(values: seq<Option<real>>, lo: real, hi: real)
    ensures ForwardFilled(ForwardFilled(values, lo, hi), lo, hi) == ForwardFilled(values, lo, hi)
  {
    var once := ForwardFilled(values, lo, hi);
    var twice := ForwardFilled(once, lo, hi);
    forall i | 0 <= i < |values|
      ensures twice[i] == once[i]
    {
      if once[i].Some? {
        FillKeepsInRange(once, lo, hi, i);
      } else {
        AllGapsBefore(values, lo, hi, i);
        assert forall k :: 0 <= k < i + 1 ==> once[..i + 1][k] == once[k];
      }
    }
  }

  /** The pace sample of a record: the stored pace when plausible, else
      `60000 / (cadence * step_length)` when both are positive, else `None`. */
  function PaceSample(s: Sample): (r: Option<real>)
    ensures InRange(s.pace, PaceMinSec, PaceMaxSec) ==> r == s.pace
    ensures r.None? <==> !InRange(s.pace, PaceMinSec, PaceMaxSec) &&
                         (OrZero(s.cadence) <= 0.0 || OrZero(s.stepLength) <= 0.0)
    ensures r.Some? ==> r.value > 0.0
  {
    if s.pace.Some? && s.pace.value >= PaceMinSec && s.pace.value <= PaceMaxSec then s.pace
    else
      var cadence := OrZero(s.cadence);
      var stepLength := OrZero(s.stepLength);
      if cadence <= 0.0 || stepLength <= 0.0 then None
      else
        MulPos(cadence, stepLength);
        Some(60000.0 / (cadence * stepLength))
  }

  /** A derived pace is the time for 1 km at `cadence` steps of `step_length` metres. */
  lemma PaceSampleDerived(s: Sample)
    requires !InRange(s.pace, PaceMinSec, PaceMaxSec)
    requires OrZero(s.cadence) > 0.0 && OrZero(s.stepLength) > 0.0
    ensures PaceSample(s).Some?
    ensures PaceSample(s).value * (OrZero(s.cadence) * OrZero(s.stepLength)) == 60000.0
  {
    MulPos(OrZero(s.cadence), OrZero(s.stepLength));
  }

  /** Stride in centimetres from a step length in metres; `None` stays `None`. */
  function StrideCm(stepLength: Option<real>): (r: Option<real>)
    ensures r.None? <==> stepLength.None?
    ensures r.Some? ==> r.value == stepLength.value * 100.0
  {
    if stepLength.Some? then Some(stepLength.value * 100.0) else None
  }

  /** A step length is plausible exactly between 0.3 m and 1.8 m. */
  lemma StridePlausible(m: real)
    ensures InRange(StrideCm(Some(m)), StrideCmMin, StrideCmMax) <==> 0.3 <= m <= 1.8
  {
  }

  function HrRaw(records: seq<Sample>): (r: seq<Option<real>>)
    ensures |r| == |records| && forall i :: 0 <= i < |r| ==> r[i] == records[i].heartRate
  {
    seq(|records|, i requires 0 <= i < |records| => records[i].heartRate)
  }

  function CadenceRaw(records: seq<Sample>): (r: seq<Option<real>>)
    ensures |r| == |records| && forall i :: 0 <= i < |r| ==> r[i] == records[i].cadence
  {
    seq(|records|, i requires 0 <= i < |records| => records[i].cadence)
  }

  function StrideRaw(records: seq<Sample>): (r: seq<Option<real>>)
    ensures |r| == |records| && forall i :: 0 <= i < |r| ==> r[i] == StrideCm(records[i].stepLength)
  {
    seq(|records|, i requires 0 <= i < |records| => StrideCm(records[i].stepLength))
  }

  function PaceRaw(records: seq<Sample>): (r: seq<Option<real>>)
    ensures |r| == |records| && forall i :: 0 <= i < |r| ==> r[i] == PaceSample(records[i])
  {
    seq(|records|, i requires 0 <= i < |records| => PaceSample(records[i]))
  }

  /** The four cleaned series of the chart component, each with its own range. */
  method TrendSeries(records: seq<Sample>)
    returns (hr: seq<Option<real>>, cadence: seq<Option<real>>,
             stride: seq<Option<real>>, pace: seq<Option<real>>)
    ensures hr == ForwardFilled(HrRaw(records), HrMin, HrMax)
    ensures cadence == ForwardFilled(CadenceRaw(records), CadenceMin, CadenceMax)
    ensures stride == ForwardFilled(StrideRaw(records), StrideCmMin, StrideCmMax)
    ensures pace == ForwardFilled(PaceRaw(records), PaceMinSec, PaceMaxSec)
  {
    pace := FilterOutliersWithForwardFill(PaceRaw(records), PaceMinSec, PaceMaxSec);
    hr := FilterOutliersWithForwardFill(HrRaw(records), HrMin, HrMax);
    cadence := FilterOutliersWithForwardFill(CadenceRaw(records), CadenceMin, CadenceMax);
    stride := FilterOutliersWithForwardFill(StrideRaw(records), StrideCmMin, StrideCmMax);
  }

  /** A chart is drawn only for a series with some value. */
  predicate HasValue(series: seq<Option<real>>)
  {
    exists i :: 0 <= i < |series| && series[i].Some?
  }

  /** `hasHr`, `hasCadence`, `hasStride`: some record carries the field. */
  predicate HasHr(records: seq<Sample>)
  {
    exists i :: 0 <= i < |records| && records[i].heartRate.Some?
  }

  predicate HasCadence(records: seq<Sample>)
  {
    exists i :: 0 <= i < |records| && records[i].cadence.Some?
  }

  predicate HasStride(records: seq<Sample>)
  {
    exists i :: 0 <= i < |records| && records[i].stepLength.Some?
  }

  /** `hasPace`: some record has a positive pace, or a positive cadence and
      a positive step length. */
  predicate HasPace(records: seq<Sample>)
  {
    exists i :: 0 <= i < |records| &&
      ((records[i].pace.Some? && records[i].pace.value > 0.0) ||
       (records[i].cadence.Some? && records[i].cadence.value > 0.0 &&
        records[i].stepLength.Some? && records[i].stepLength.value > 0.0))
  }

  /** The component renders at all unless all four flags are false. */
  predicate Renders(records: seq<Sample>)
  {
    HasHr(records) || HasCadence(records) || HasStride(records) || HasPace(records)
  }

  /** A series with a value after cleaning had an in-range raw value. */
  lemma CleanedValueHasSource(values: seq<Option<real>>, lo: real, hi: real)
    requires HasValue(ForwardFilled(values, lo, hi))
    ensures exists j :: 0 <= j < |values| && InRange(values[j], lo, hi)
  {
    var i :| 0 <= i < |values| && ForwardFilled(values, lo, hi)[i].Some?;
    var w := LastInRange(values[..i + 1], lo, hi).value;
    var j :| 0 <= j <= i && values[j] == Some(w);
  }

  /** Each chart is drawn only when its own section flag holds, so every
      drawn chart lies in a rendered component. */
  lemma ChartsOnlyWhenRendered(records: seq<Sample>)
    ensures HasValue(ForwardFilled(HrRaw(records), HrMin, HrMax)) ==> HasHr(records)
    ensures HasValue(ForwardFilled(CadenceRaw(records), CadenceMin, CadenceMax)) ==> HasCadence(records)
    ensures HasValue(ForwardFilled(StrideRaw(records), StrideCmMin, StrideCmMax)) ==> HasStride(records)
    ensures HasValue(ForwardFilled(PaceRaw(records), PaceMinSec, PaceMaxSec)) ==> HasPace(records)
    ensures (HasValue(ForwardFilled(HrRaw(records), HrMin, HrMax)) ||
             HasValue(ForwardFilled(CadenceRaw(records), CadenceMin, CadenceMax)) ||
             HasValue(ForwardFilled(StrideRaw(records), StrideCmMin, StrideCmMax)) ||
             HasValue(ForwardFilled(PaceRaw(records), PaceMinSec, PaceMaxSec))) ==> Renders(records)
  {
    if HasValue(ForwardFilled(HrRaw(records), HrMin, HrMax)) {
      CleanedValueHasSource(HrRaw(records), HrMin, HrMax);
    }
    if HasValue(ForwardFilled(CadenceRaw(records), CadenceMin, CadenceMax)) {
      CleanedValueHasSource(CadenceRaw(records), CadenceMin, CadenceMax);
    }
    if HasValue(ForwardFilled(StrideRaw(records), StrideCmMin, StrideCmMax)) {
      CleanedValueHasSource(StrideRaw(records), StrideCmMin, StrideCmMax);
    }
    if HasValue(ForwardFilled(PaceRaw(records), PaceMinSec, PaceMaxSec)) {
      CleanedValueHasSource(PaceRaw(records), PaceMinSec, PaceMaxSec);
      var j :| 0 <= j < |records| && InRange(PaceRaw(records)[j], PaceMinSec, PaceMaxSec);
      assert PaceSample(records[j]).Some?;
    }
  }

  /** `formatElapsed(sec)`: whole minutes, then whole seconds padded to two digits. */
  function FormatElapsed(sec: real): (r: string)
    ensures |r| >= 4
    ensures 0.0 <= sec ==> r[|r| - 3] == ':'
  {
    var s := Format.PadField(Floor(Mod(sec, 60.0)));
    assert 0.0 <= sec ==> 0 <= Floor(Mod(sec, 60.0)) < 60 && |s| == 2;
    IntToString(Floor(sec / 60.0)) + ":" + s
  }

  /** For a non-negative time the label reads minutes and seconds below 60
      that add up to the whole seconds elapsed. */
  lemma FormatElapsedFields(sec: real)
    requires 0.0 <= sec
    ensures var m, s := Floor(sec / 60.0), Floor(Mod(sec, 60.0));
      m >= 0 && 0 <= s < 60 && m * 60 + s == Floor(sec) &&
      FormatElapsed(sec) == NatToString(m) + ":" + Pad2(s)
  {
    FloorDiv(sec, 60);
    ModIntegerPart(sec, 60);
  }

  /** The x-axis interval rule: the first label, then one whenever the time
      enters a new five-minute bucket. */
  predicate ShowLabel(xs: seq<real>, index: nat)
    requires index < |xs|
  {
    index == 0 || Floor(xs[index] / FiveMinSec) > Floor(xs[index - 1] / FiveMinSec)
  }

  predicate NonDecreasing(xs: seq<real>)
  {
    forall i, j :: 0 <= i <= j < |xs| ==> xs[i] <= xs[j]
  }

  function Bucket(x: real): int
  {
    Floor(x / FiveMinSec)
  }

  lemma BucketMonotone(x: real, y: real)
    requires x <= y
    ensures Bucket(x) <= Bucket(y)
  {
    DivideBounds(x, FiveMinSec, 0.0, y / FiveMinSec);
    assert x / FiveMinSec <= y / FiveMinSec;
  }

  /** On non-decreasing times a label is shown exactly at the first sample of
      each five-minute bucket. */
  lemma LabelAtFirstOfBucket(xs: seq<real>, index: nat)
    requires NonDecreasing(xs) && index < |xs|
    ensures ShowLabel(xs, index) <==> forall j :: 0 <= j < index ==> Bucket(xs[j]) < Bucket(xs[index])
  {
    if index > 0 {
      if ShowLabel(xs, index) {
        forall j | 0 <= j < index
          ensures Bucket(xs[j]) < Bucket(xs[index])
        {
          BucketMonotone(xs[j], xs[index - 1]);
        }
      }
    }
  }
}
