/**
 * The heart-rate based VDOT calculator: heart-rate zones as a share of the
 * maximum heart rate, the VDOT estimate from one run, the training load of a
 * run and the distribution of heart-rate samples over the five zones.
 *
 * `Math.exp` is a parameter `exp`; the facts used about it are stated by
 * `ExpBelowOne`.
 */
module VdotCalculator {
  import opened Js
  import Text

  /** `getHrZone`: 0 without a heart rate, else the zone 1..5 of `avgHr` as a
      percentage of `maxHr` (thresholds 70, 80, 87 and 93 percent). A zero
      maximum makes the percentage +Infinity, so zone 5. */
  function HrZone(avgHr: real, maxHr: real): (zone: int)
    ensures 0 <= zone <= 5
    ensures zone == 0 <==> avgHr <= 0.0
  {
    if avgHr <= 0.0 then 0
    else if maxHr == 0.0 then 5
    else
      var hrPercent := avgHr / maxHr * 100.0;
      if hrPercent < 70.0 then 1
      else if hrPercent < 80.0 then 2
      else if hrPercent < 87.0 then 3
      else if hrPercent < 93.0 then 4
      else 5
  }

  /** Below the first threshold (as a share of the maximum) lies zone 1,
      above the last one zone 5; each zone is a half-open band. */
  lemma HrZoneBands(avgHr: real, maxHr: real)
    requires avgHr > 0.0 && maxHr > 0.0
    ensures HrZone(avgHr, maxHr) == 1 <==> 100.0 * avgHr < 70.0 * maxHr
    ensures HrZone(avgHr, maxHr) == 2 <==> 70.0 * maxHr <= 100.0 * avgHr < 80.0 * maxHr
    ensures HrZone(avgHr, maxHr) == 3 <==> 80.0 * maxHr <= 100.0 * avgHr < 87.0 * maxHr
    ensures HrZone(avgHr, maxHr) == 4 <==> 87.0 * maxHr <= 100.0 * avgHr < 93.0 * maxHr
    ensures HrZone(avgHr, maxHr) == 5 <==> 93.0 * maxHr <= 100.0 * avgHr
  {
    var p := avgHr / maxHr * 100.0;
    PercentBelow(avgHr, maxHr, p, 70.0);
    PercentBelow(avgHr, maxHr, p, 80.0);
    PercentBelow(avgHr, maxHr, p, 87.0);
    PercentBelow(avgHr, maxHr, p, 93.0);
  }

  /** The percentage is below a threshold exactly when the cross-multiplied
      heart rate is. */
  lemma PercentBelow(avgHr: real, maxHr: real, p: real, t: real)
    requires maxHr > 0.0 && p == avgHr / maxHr * 100.0
    ensures p < t <==> 100.0 * avgHr < maxHr * t
  {
    assert p == (100.0 * avgHr) / maxHr;
    DivideBounds(100.0 * avgHr, maxHr, t, t);
  }

  /** A higher heart rate never lands in a lower zone. */
  lemma HrZoneMonotone(a: real, b: real, maxHr: real)
    requires 0.0 < a <= b && maxHr > 0.0
    ensures HrZone(a, maxHr) <= HrZone(b, maxHr)
  {
    HrZoneBands(a, maxHr);
    HrZoneBands(b, maxHr);
  }

  /** The VDOT adjustment per heart-rate zone; anything else leaves VDOT as is. */
  function ZoneMultiplier(zone: int): (m: real)
    ensures 0.9 <= m <= 1.1
  {
    match zone
    case 1 => 0.90
    case 2 => 0.95
    case 3 => 1.00
    case 4 => 1.05
    case 5 => 1.10
    case _ => 1.0
  }

  /** The training-load factor per heart-rate zone. */
  function ZoneFactor(zone: int): (f: real)
    ensures 0.6 <= f <= 1.5
  {
    match zone
    case 1 => 0.6
    case 2 => 0.8
    case 3 => 1.0
    case 4 => 1.3
    case 5 => 1.5
    case _ => 1.0
  }

  /** `avgHr && avgHr > 0`. */
  predicate HasHeartRate(avgHr: Option<real>)
  {
    avgHr.Some? && avgHr.value > 0.0
  }

  /** Daniels' oxygen-cost polynomial. */
  function OxygenCost(v: real): real
  {
    -4.60 + 0.182258 * v + 0.000104 * (v * v)
  }

  /** What the code needs of `Math.exp`: strictly between 0 and 1 for a negative argument. */
  ghost predicate ExpBelowOne(exp: real -> real)
  {
    forall x: real :: x < 0.0 ==> 0.0 < exp(x) < 1.0
  }

  /** The heart-rate adjustment, then `Math.round(vdot * 10) / 10`. */
  function AdjustAndRound(vdot: real, avgHr: Option<real>, maxHr: real): real
  {
    var adjusted := if HasHeartRate(avgHr) then vdot * ZoneMultiplier(HrZone(avgHr.value, maxHr)) else vdot;
    Round(adjusted * 10.0) as real / 10.0
  }

  /** `calculateVdotFromPace` as written: the oxygen cost is evaluated at the
      speed in km/h. `None` stands for `null`. */
  function VdotFromPace(distanceMeters: real, durationSeconds: real, avgHr: Option<real>,
                        maxHr: real, exp: real -> real): (vdot: Option<real>)
    ensures durationSeconds <= 0.0 || distanceMeters <= 0.0 ==> vdot.None?
    ensures ExpBelowOne(exp) && durationSeconds > 0.0 && distanceMeters > 0.0 ==> vdot.Some?
  {
    if durationSeconds <= 0.0 || distanceMeters <= 0.0 then None
    else
      var distanceKm := distanceMeters / 1000.0;
      var durationHours := durationSeconds / 3600.0;
      var velocity := distanceKm / durationHours;
      if velocity <= 0.0 then None
      else
        var percentVo2max := 1.0 - exp(-0.012 * (distanceKm / velocity));
        ExpArgumentNegative(distanceKm, velocity);
        if percentVo2max <= 0.0 then None
        else Some(AdjustAndRound(OxygenCost(velocity) / percentVo2max, avgHr, maxHr))
  }

  lemma ExpArgumentNegative(km: real, v: real)
    requires km > 0.0 && v > 0.0
    ensures -0.012 * (km / v) < 0.0
  {
    DivideBounds(km, v, 0.0, 0.0);
  }

  /** The same estimate with the oxygen cost evaluated at the speed in metres
      per minute, the unit the pace inversion in `app/lib/vdot-pace.ts` uses.
      Any run at 26 m/min or faster (a brisk walk) then gets a positive VDOT. */
  function VdotFromPaceMetric(distanceMeters: real, durationSeconds: real, avgHr: Option<real>,
                              maxHr: real, exp: real -> real): (vdot: Option<real>)
    ensures durationSeconds <= 0.0 || distanceMeters <= 0.0 ==> vdot.None?
    ensures ExpBelowOne(exp) && durationSeconds > 0.0 && distanceMeters > 0.0 ==> vdot.Some?
    ensures ExpBelowOne(exp) && durationSeconds > 0.0 && 26.0 * durationSeconds <= 60.0 * distanceMeters ==>
      vdot.Some? && vdot.value > 0.0
  {
    if durationSeconds <= 0.0 || distanceMeters <= 0.0 then None
    else
      var distanceKm := distanceMeters / 1000.0;
      var durationHours := durationSeconds / 3600.0;
      var velocity := distanceKm / durationHours;
      if velocity <= 0.0 then None
      else
        var percentVo2max := 1.0 - exp(-0.012 * (distanceKm / velocity));
        ExpArgumentNegative(distanceKm, velocity);
        if percentVo2max <= 0.0 then None
        else
          var metresPerMinute := distanceMeters / (durationSeconds / 60.0);
          MetresPerMinuteBound(distanceMeters, durationSeconds);
          BriskEstimatePositive(metresPerMinute, percentVo2max, avgHr, maxHr);
          Some(AdjustAndRound(OxygenCost(metresPerMinute) / percentVo2max, avgHr, maxHr))
  }

  /** Speed in km/h of a run of positive distance and duration. */
  function SpeedKmh(distanceMeters: real, durationSeconds: real): real
    requires durationSeconds > 0.0
  {
    (distanceMeters / 1000.0) / (durationSeconds / 3600.0)
  }

  lemma OxygenCostNegative(v: real)
    requires 0.0 < v <= 24.0
    ensures OxygenCost(v) <= -0.16
  {
    assert v * v <= 24.0 * v;
  }

  lemma OxygenCostPositive(v: real)
    requires 26.0 <= v
    ensures OxygenCost(v) >= 0.2
  {
    assert v * v >= 26.0 * v;
  }

  /** Dividing a negative value by a share in (0, 1) makes it more negative. */
  lemma DivideNegativeByShare(x: real, p: real)
    requires 0.0 < p < 1.0 && x < 0.0
    ensures x / p < x
  {
    DividePositiveByShare(-x, p);
    assert x / p == -((-x) / p);
  }

  /** Dividing a positive value by a share in (0, 1) makes it larger. */
  lemma DividePositiveByShare(x: real, p: real)
    requires 0.0 < p < 1.0 && x > 0.0
    ensures x / p > x
  {
    var q := x / p;
    assert q * p == x;
    DivideBounds(x, p, 0.0, 0.0);
    assert q - x == q * (1.0 - p);
    MulPos(q, 1.0 - p);
  }

  /** The heart-rate adjustment keeps the sign of a VDOT away from zero. */
  lemma AdjustKeepsSign(vdot: real, avgHr: Option<real>, maxHr: real)
    ensures vdot <= -0.16 ==> AdjustAndRound(vdot, avgHr, maxHr) < 0.0
    ensures vdot >= 0.2 ==> AdjustAndRound(vdot, avgHr, maxHr) > 0.0
  {
    var m := if HasHeartRate(avgHr) then ZoneMultiplier(HrZone(avgHr.value, maxHr)) else 1.0;
    var adjusted := if HasHeartRate(avgHr) then vdot * ZoneMultiplier(HrZone(avgHr.value, maxHr)) else vdot;
    assert adjusted == vdot * m;
    if vdot <= -0.16 {
      assert -vdot * m >= 0.16 * m;
      assert adjusted * 10.0 <= -1.44;
    }
    if vdot >= 0.2 {
      assert vdot * m >= 0.2 * m;
      assert adjusted * 10.0 >= 1.8;
    }
  }

  /** As written, every run slower than 24 km/h gets a negative VDOT, with or
      without a heart rate: the oxygen cost at that speed in km/h is negative. */
  lemma VdotNegativeBelow24Kmh(distanceMeters: real, durationSeconds: real, avgHr: Option<real>,
                               maxHr: real, exp: real -> real)
    requires ExpBelowOne(exp)
    requires durationSeconds > 0.0 && distanceMeters > 0.0
    requires SpeedKmh(distanceMeters, durationSeconds) <= 24.0
    ensures VdotFromPace(distanceMeters, durationSeconds, avgHr, maxHr, exp).Some?
    ensures VdotFromPace(distanceMeters, durationSeconds, avgHr, maxHr, exp).value < 0.0
  {
    var km := distanceMeters / 1000.0;
    var v := km / (durationSeconds / 3600.0);
    DivideBounds(km, durationSeconds / 3600.0, 0.0, 0.0);
    ExpArgumentNegative(km, v);
    var p := 1.0 - exp(-0.012 * (km / v));
    OxygenCostNegative(v);
    DivideNegativeByShare(OxygenCost(v), p);
    AdjustKeepsSign(OxygenCost(v) / p, avgHr, maxHr);
  }

  /** 10 km in 40 minutes (15 km/h) as written: a negative VDOT. */
  lemma TenKmInFortyMinutesAsWritten(exp: real -> real)
    requires ExpBelowOne(exp)
    ensures VdotFromPace(10000.0, 2400.0, None, 190.0, exp).Some?
    ensures VdotFromPace(10000.0, 2400.0, None, 190.0, exp).value < 0.0
  {
    VdotNegativeBelow24Kmh(10000.0, 2400.0, None, 190.0, exp);
  }

  /** A run covering 26 metres per minute of its duration is at least that fast. */
  lemma MetresPerMinuteBound(distanceMeters: real, durationSeconds: real)
    requires durationSeconds > 0.0
    ensures 26.0 * durationSeconds <= 60.0 * distanceMeters ==> distanceMeters / (durationSeconds / 60.0) >= 26.0
  {
    DivideBounds(distanceMeters, durationSeconds / 60.0, 26.0, 26.0);
  }

  /** At 26 m/min or faster, with a share of VO2max in (0, 1), the adjusted
      and rounded VDOT is positive. */
  lemma BriskEstimatePositive(metresPerMinute: real, percentVo2max: real, avgHr: Option<real>, maxHr: real)
    requires percentVo2max > 0.0
    ensures 26.0 <= metresPerMinute && percentVo2max < 1.0 ==>
      AdjustAndRound(OxygenCost(metresPerMinute) / percentVo2max, avgHr, maxHr) > 0.0
  {
    if 26.0 <= metresPerMinute && percentVo2max < 1.0 {
      OxygenCostPositive(metresPerMinute);
      DividePositiveByShare(OxygenCost(metresPerMinute), percentVo2max);
      AdjustKeepsSign(OxygenCost(metresPerMinute) / percentVo2max, avgHr, maxHr);
    }
  }

  lemma RoundMonotone(x: real, y: real)
    requires x <= y
    ensures Round(x) <= Round(y)
  {
  }

  /** For a positive base VDOT, a run at a higher heart rate is credited with at
      least the VDOT of one at a lower heart rate. */
  lemma VdotHeartRateMonotone(vdot: real, a: real, b: real, maxHr: real)
    requires vdot > 0.0 && 0.0 < a <= b && maxHr > 0.0
    ensures AdjustAndRound(vdot, Some(a), maxHr) <= AdjustAndRound(vdot, Some(b), maxHr)
  {
    HrZoneMonotone(a, b, maxHr);
    var ma, mb := ZoneMultiplier(HrZone(a, maxHr)), ZoneMultiplier(HrZone(b, maxHr));
    assert ma <= mb;
    MulNonNeg(vdot, mb - ma);
    assert vdot * mb - vdot * ma == vdot * (mb - ma);
    RoundMonotone(vdot * ma * 10.0, vdot * mb * 10.0);
  }

  /** `calculateTrainingLoad`: 100 points per hour, scaled by the heart-rate
      zone factor, rounded. */
  function TrainingLoad(durationSeconds: real, avgHr: Option<real>, maxHr: real): (load: int)
    ensures durationSeconds <= 0.0 ==> load == 0
    ensures load >= 0
  {
    if durationSeconds <= 0.0 then 0
    else
      var baseLoad := durationSeconds / 3600.0 * 100.0;
      var load := if HasHeartRate(avgHr) then baseLoad * ZoneFactor(HrZone(avgHr.value, maxHr)) else baseLoad;
      Round(load)
  }

  /** Training load grows with the duration of the run, for a fixed heart rate. */
  lemma TrainingLoadMonotone(d1: real, d2: real, avgHr: Option<real>, maxHr: real)
    requires d1 <= d2
    ensures TrainingLoad(d1, avgHr, maxHr) <= TrainingLoad(d2, avgHr, maxHr)
  {
    if d1 > 0.0 {
      var f := if HasHeartRate(avgHr) then ZoneFactor(HrZone(avgHr.value, maxHr)) else 1.0;
      assert d1 / 3600.0 * 100.0 * f <= d2 / 3600.0 * 100.0 * f;
    }
  }

  /** Training load grows with the heart rate, for a fixed duration. */
  lemma TrainingLoadHeartRateMonotone(duration: real, a: real, b: real, maxHr: real)
    requires 0.0 < a <= b && maxHr > 0.0
    ensures TrainingLoad(duration, Some(a), maxHr) <= TrainingLoad(duration, Some(b), maxHr)
  {
    if duration > 0.0 {
      HrZoneMonotone(a, b, maxHr);
      var fa, fb := ZoneFactor(HrZone(a, maxHr)), ZoneFactor(HrZone(b, maxHr));
      assert fa <= fb;
      var base := duration / 3600.0 * 100.0;
      assert base * fa <= base * fb;
    }
  }

  // ---------------------------------------------------------------------
  // analyzeHrDistribution

  /** Samples above zero seen so far. */
  function PositiveCount(hrs: seq<real>): (n: nat)
    ensures n <= |hrs|
  {
    if hrs == [] then 0
    else PositiveCount(hrs[..|hrs| - 1]) + (if hrs[|hrs| - 1] > 0.0 then 1 else 0)
  }

  /** Samples above zero that fall in `zone`. */
  function ZoneCount(hrs: seq<real>, maxHr: real, zone: int): (n: nat)
    ensures n <= PositiveCount(hrs)
  {
    if hrs == [] then 0
    else
      var last := hrs[|hrs| - 1];
      ZoneCount(hrs[..|hrs| - 1], maxHr, zone) + (if last > 0.0 && HrZone(last, maxHr) == zone then 1 else 0)
  }

  /** Every positive sample is in exactly one of the five zones. */
  lemma {:induction false} ZoneCountsSum(hrs: seq<real>, maxHr: real)
    ensures ZoneCount(hrs, maxHr, 1) + ZoneCount(hrs, maxHr, 2) + ZoneCount(hrs, maxHr, 3)
            + ZoneCount(hrs, maxHr, 4) + ZoneCount(hrs, maxHr, 5) == PositiveCount(hrs)
  {
    if hrs != [] {
      ZoneCountsSum(hrs[..|hrs| - 1], maxHr);
    }
  }

  /** The output key `zone_<k>` of a one-digit zone. */
  function ZoneKey(zone: nat): (key: string)
    requires zone < 10
    ensures key == "zone_" + Text.NatToString(zone)
  {
    "zone_" + [Text.DigitChar(zone)]
  }

  /** The share of positive samples, in percent, that fall in `zone`. */
  function Share(hrs: seq<real>, maxHr: real, zone: int): real
    requires PositiveCount(hrs) > 0
  {
    ZoneCount(hrs, maxHr, zone) as real / PositiveCount(hrs) as real * 100.0
  }

  /** `analyzeHrDistribution`: no positive sample gives `{}`; otherwise each of
      `zone_1` .. `zone_5` maps to the percentage of positive samples in that zone. */
  method AnalyzeHrDistribution(hrRecords: seq<real>, maxHr: real) returns (distribution: map<string, real>)
    ensures PositiveCount(hrRecords) == 0 ==> distribution == map[]
    ensures PositiveCount(hrRecords) > 0 ==>
      distribution.Keys == ZoneKeysBelow(6) &&
      forall zone :: 1 <= zone <= 5 ==> distribution[ZoneKey(zone)] == Share(hrRecords, maxHr, zone)
  {
    if |hrRecords| == 0 {
      return map[];
    }
    var zoneCounts: map<int, nat> := map[1 := 0, 2 := 0, 3 := 0, 4 := 0, 5 := 0];
    var i := 0;
    while i < |hrRecords|
      invariant 0 <= i <= |hrRecords|
      invariant zoneCounts.Keys == {1, 2, 3, 4, 5}
      invariant forall zone :: 1 <= zone <= 5 ==> zoneCounts[zone] == ZoneCount(hrRecords[..i], maxHr, zone)
    {
      var hr := hrRecords[i];
      assert hrRecords[..i + 1][..i] == hrRecords[..i];
      if hr > 0.0 {
        var zone := HrZone(hr, maxHr);
        if zone in zoneCounts {
          zoneCounts := zoneCounts[zone := zoneCounts[zone] + 1];
        }
      }
      i := i + 1;
    }
    assert hrRecords[..i] == hrRecords;
    var total := zoneCounts[1] + zoneCounts[2] + zoneCounts[3] + zoneCounts[4] + zoneCounts[5];
    ZoneCountsSum(hrRecords, maxHr);
    assert total == PositiveCount(hrRecords);
    if total == 0 {
      return map[];
    }
    distribution := ZonePercentages(zoneCounts, total);
  }

  /** The closing loop of `analyzeHrDistribution`: each zone's count as a
      percentage of `total`, under the key `zone_<k>`. */
  method ZonePercentages(zoneCounts: map<int, nat>, total: nat) returns (distribution: map<string, real>)
    requires total > 0 && zoneCounts.Keys == {1, 2, 3, 4, 5}
    ensures distribution.Keys == ZoneKeysBelow(6)
    ensures forall k :: 1 <= k <= 5 ==> distribution[ZoneKey(k)] == zoneCounts[k] as real / total as real * 100.0
  {
    distribution := map[];
    for zone := 1 to 6
      invariant distribution.Keys == ZoneKeysBelow(zone)
      invariant forall k :: 1 <= k < zone ==> distribution[ZoneKey(k)] == zoneCounts[k] as real / total as real * 100.0
    {
      ZoneKeysBelowExclude(zone);
      distribution := distribution[ZoneKey(zone) := zoneCounts[zone] as real / total as real * 100.0];
    }
  }

  /** The keys `zone_1` .. `zone_<n-1>`. */
  function ZoneKeysBelow(n: nat): set<string>
    requires n <= 10
  {
    if n <= 1 then {} else ZoneKeysBelow(n - 1) + {ZoneKey(n - 1)}
  }

  lemma {:induction false} ZoneKeysBelowExclude(n: nat)
    requires n < 10
    ensures forall m :: n <= m < 10 ==> ZoneKey(m) !in ZoneKeysBelow(n)
    ensures forall k :: 1 <= k < n ==> ZoneKey(k) in ZoneKeysBelow(n)
  {
    if n > 1 {
      ZoneKeysBelowExclude(n - 1);
      forall m | n <= m < 10
        ensures ZoneKey(m) != ZoneKey(n - 1)
      {
        assert ZoneKey(m)[5] != ZoneKey(n - 1)[5];
      }
    }
  }

  lemma ZoneKeyInjective(j: nat, k: nat)
    requires j < 10 && k < 10 && ZoneKey(j) == ZoneKey(k)
    ensures j == k
  {
    assert ZoneKey(j)[5] == Text.DigitChar(j);
    assert ZoneKey(k)[5] == Text.DigitChar(k);
  }

  /** The five percentages add up to 100. */
  lemma SharesSumToHundred(hrs: seq<real>, maxHr: real)
    requires PositiveCount(hrs) > 0
    ensures Share(hrs, maxHr, 1) + Share(hrs, maxHr, 2) + Share(hrs, maxHr, 3)
            + Share(hrs, maxHr, 4) + Share(hrs, maxHr, 5) == 100.0
  {
    ZoneCountsSum(hrs, maxHr);
    var t := PositiveCount(hrs) as real;
    var c1, c2, c3 := ZoneCount(hrs, maxHr, 1) as real, ZoneCount(hrs, maxHr, 2) as real, ZoneCount(hrs, maxHr, 3) as real;
    var c4, c5 := ZoneCount(hrs, maxHr, 4) as real, ZoneCount(hrs, maxHr, 5) as real;
    assert c1 + c2 + c3 + c4 + c5 == t;
    QuotientsAdd(c1, c2, c3, c4, c5, t);
  }

  lemma QuotientsAdd(c1: real, c2: real, c3: real, c4: real, c5: real, t: real)
    requires t > 0.0 && c1 + c2 + c3 + c4 + c5 == t
    ensures c1 / t * 100.0 + c2 / t * 100.0 + c3 / t * 100.0 + c4 / t * 100.0 + c5 / t * 100.0 == 100.0
  {
    assert c1 / t + c2 / t + c3 / t + c4 / t + c5 / t == (c1 + c2 + c3 + c4 + c5) / t;
  }
}
