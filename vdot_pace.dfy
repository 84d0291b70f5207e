/**
 * VDOT to training pace: inverting Daniels' oxygen-cost polynomial
 * (speed in metres per minute) for a share of VO2max, and the five pace
 * zones cut at the midpoints between the zones' anchor paces.
 *
 * `Math.sqrt` is a parameter `sqrt`; what is used of it is stated by `IsSqrt`.
 */
module VdotPace {
  import opened Js

  /** The "no pace" value the inversion returns for inputs it rejects. */
  const Sentinel: real := 9999.0

  /** What is needed of `Math.sqrt`: a non-negative root of a non-negative argument. */
  ghost predicate IsSqrt(sqrt: real -> real)
  {
    forall x: real :: 0.0 <= x ==> 0.0 <= sqrt(x) && sqrt(x) * sqrt(x) == x
  }

  /** `vdotToPaceSecPerKm`: seconds per kilometre at `percentVo2max` of `vdot`,
      or the sentinel when the inputs or an intermediate value are out of range. */
  function PaceSecPerKm(vdot: real, percentVo2max: real, sqrt: real -> real): (pace: real)
    ensures vdot <= 0.0 || percentVo2max <= 0.0 || percentVo2max > 1.0 ==> pace == Sentinel
  {
    if vdot <= 0.0 || percentVo2max <= 0.0 || percentVo2max > 1.0 then Sentinel
    else
      var c := 4.60 + vdot * percentVo2max;
      var disc := 0.182258 * 0.182258 + 4.0 * 0.000104 * c;
      if disc < 0.0 then Sentinel
      else
        var v := (-0.182258 + sqrt(disc)) / (2.0 * 0.000104);
        if v <= 0.0 then Sentinel else 60000.0 / v
  }

  /** Speed (m/min) whose oxygen cost is `c`, as the inversion computes it. */
  function SpeedForCost(c: real, sqrt: real -> real): real
  {
    (-0.182258 + sqrt(0.182258 * 0.182258 + 4.0 * 0.000104 * c)) / (2.0 * 0.000104)
  }

  lemma SquareOrder(x: real, y: real)
    requires x >= 0.0 && y >= 0.0 && x * x < y * y
    ensures x < y
  {
  }

  lemma ReciprocalOrder(v1: real, v2: real)
    requires 0.0 < v1 < v2
    ensures 60000.0 / v2 < 60000.0 / v1
  {
  }

  /** For an oxygen cost above the constant term, the speed is above 6 m/min. */
  lemma SpeedForCostBounds(c: real, sqrt: real -> real)
    requires IsSqrt(sqrt) && c > 4.6
    ensures SpeedForCost(c, sqrt) > 6.001
  {
    var disc := 0.182258 * 0.182258 + 4.0 * 0.000104 * c;
    var s := sqrt(disc);
    var m := 0.182258 + 0.00125;
    assert m * m < disc;
    SquareOrder(m, s);
    DivideBounds(s - 0.182258, 2.0 * 0.000104, 6.001, 6.001);
  }

  /** A greater oxygen cost is met at a greater speed. */
  lemma SpeedForCostIncreasing(c1: real, c2: real, sqrt: real -> real)
    requires IsSqrt(sqrt) && 0.0 < c1 < c2
    ensures SpeedForCost(c1, sqrt) < SpeedForCost(c2, sqrt)
  {
    var d1 := 0.182258 * 0.182258 + 4.0 * 0.000104 * c1;
    var d2 := 0.182258 * 0.182258 + 4.0 * 0.000104 * c2;
    SquareOrder(sqrt(d1), sqrt(d2));
  }

  /** For an accepted input the inversion goes through: the pace is the
      reciprocal of the solved speed. */
  lemma PaceIsReciprocalSpeed(vdot: real, percentVo2max: real, sqrt: real -> real)
    requires IsSqrt(sqrt) && vdot > 0.0 && 0.0 < percentVo2max <= 1.0
    ensures 4.60 + vdot * percentVo2max > 4.6
    ensures SpeedForCost(4.60 + vdot * percentVo2max, sqrt) > 6.001
    ensures PaceSecPerKm(vdot, percentVo2max, sqrt) == 60000.0 / SpeedForCost(4.60 + vdot * percentVo2max, sqrt)
  {
    MulPos(vdot, percentVo2max);
    SpeedForCostBounds(4.60 + vdot * percentVo2max, sqrt);
  }

  /** An accepted input never yields the sentinel: the pace is positive and
      below 9999 s/km. */
  lemma PaceBelowSentinel(vdot: real, percentVo2max: real, sqrt: real -> real)
    requires IsSqrt(sqrt) && vdot > 0.0 && 0.0 < percentVo2max <= 1.0
    ensures 0.0 < PaceSecPerKm(vdot, percentVo2max, sqrt) < Sentinel
  {
    PaceIsReciprocalSpeed(vdot, percentVo2max, sqrt);
    ReciprocalOrder(6.001, SpeedForCost(4.60 + vdot * percentVo2max, sqrt));
  }

  /** A higher share of VO2max means a faster (smaller) pace. */
  lemma PaceDecreasingInPercent(vdot: real, p1: real, p2: real, sqrt: real -> real)
    requires IsSqrt(sqrt) && vdot > 0.0 && 0.0 < p1 < p2 <= 1.0
    ensures PaceSecPerKm(vdot, p2, sqrt) < PaceSecPerKm(vdot, p1, sqrt)
  {
    PaceIsReciprocalSpeed(vdot, p1, sqrt);
    PaceIsReciprocalSpeed(vdot, p2, sqrt);
    assert vdot * p2 - vdot * p1 == vdot * (p2 - p1);
    MulPos(vdot, p2 - p1);
    SpeedForCostIncreasing(4.60 + vdot * p1, 4.60 + vdot * p2, sqrt);
    ReciprocalOrder(SpeedForCost(4.60 + vdot * p1, sqrt), SpeedForCost(4.60 + vdot * p2, sqrt));
  }

  /** A fitter runner (higher VDOT) gets a faster pace at the same intensity. */
  lemma PaceDecreasingInVdot(v1: real, v2: real, p: real, sqrt: real -> real)
    requires IsSqrt(sqrt) && 0.0 < v1 < v2 && 0.0 < p <= 1.0
    ensures PaceSecPerKm(v2, p, sqrt) < PaceSecPerKm(v1, p, sqrt)
  {
    PaceIsReciprocalSpeed(v1, p, sqrt);
    PaceIsReciprocalSpeed(v2, p, sqrt);
    assert v2 * p - v1 * p == (v2 - v1) * p;
    MulPos(v2 - v1, p);
    SpeedForCostIncreasing(4.60 + v1 * p, 4.60 + v2 * p, sqrt);
    ReciprocalOrder(SpeedForCost(4.60 + v1 * p, sqrt), SpeedForCost(4.60 + v2 * p, sqrt));
  }

  /** `ZONE_PERCENT[z] ?? 0.8`. */
  function ZonePercent(zone: int): (p: real)
    ensures 0.0 < p < 1.0
  {
    match zone
    case 1 => 0.65
    case 2 => 0.72
    case 3 => 0.80
    case 4 => 0.88
    case 5 => 0.98
    case _ => 0.8
  }

  /** The anchor pace of each zone, zone 1 first. */
  function AnchorPaces(vdot: real, sqrt: real -> real): (paces: seq<real>)
    ensures |paces| == 5
  {
    seq(5, i requires 0 <= i < 5 => PaceSecPerKm(vdot, ZonePercent(i + 1), sqrt))
  }

  /** Zone 1 is slowest; each anchor is strictly faster than the previous one. */
  lemma AnchorPacesDecreasing(vdot: real, sqrt: real -> real)
    requires IsSqrt(sqrt) && vdot > 0.0
    ensures var p := AnchorPaces(vdot, sqrt);
      Sentinel > p[0] > p[1] > p[2] > p[3] > p[4] > 0.0
  {
    PaceBelowSentinel(vdot, 0.65, sqrt);
    PaceBelowSentinel(vdot, 0.98, sqrt);
    PaceDecreasingInPercent(vdot, 0.65, 0.72, sqrt);
    PaceDecreasingInPercent(vdot, 0.72, 0.80, sqrt);
    PaceDecreasingInPercent(vdot, 0.80, 0.88, sqrt);
    PaceDecreasingInPercent(vdot, 0.88, 0.98, sqrt);
  }

  /** A pace band: a lap with `paceMin <= pace <= paceMax` belongs to the zone. */
  datatype Band = Band(paceMin: real, paceMax: real)

  /** Bands cut at the midpoints between neighbouring anchors; zone 1 is open
      towards slow paces (up to the sentinel), zone 5 towards 0. */
  function BandsFromPaces(p: seq<real>): map<int, Band>
    requires |p| == 5
  {
    map[1 := Band((p[0] + p[1]) / 2.0, Sentinel),
        2 := Band((p[1] + p[2]) / 2.0, (p[0] + p[1]) / 2.0),
        3 := Band((p[2] + p[3]) / 2.0, (p[1] + p[2]) / 2.0),
        4 := Band((p[3] + p[4]) / 2.0, (p[2] + p[3]) / 2.0),
        5 := Band(0.0, (p[3] + p[4]) / 2.0)]
  }

  /** Five non-empty bands that tile (0, 9999] with no gap or overlap. */
  predicate Contiguous(bands: map<int, Band>)
  {
    bands.Keys == {1, 2, 3, 4, 5} &&
    bands[1].paceMax == Sentinel && bands[5].paceMin == 0.0 &&
    (forall z :: 2 <= z <= 5 ==> bands[z].paceMax == bands[z - 1].paceMin) &&
    (forall z :: 1 <= z <= 5 ==> bands[z].paceMin < bands[z].paceMax)
  }

  /** `getPaceZoneBoundsFromVdot`: no bands for a non-positive VDOT; otherwise
      the midpoint bands of the anchor paces, which tile the pace axis. */
  method PaceZoneBounds(vdot: real, sqrt: real -> real) returns (bounds: map<int, Band>)
    ensures vdot <= 0.0 ==> bounds == map[]
    ensures vdot > 0.0 ==> bounds == BandsFromPaces(AnchorPaces(vdot, sqrt))
    ensures vdot > 0.0 && IsSqrt(sqrt) ==> Contiguous(bounds)
  {
    if vdot <= 0.0 {
      return map[];
    }
    ghost var anchors := AnchorPaces(vdot, sqrt);
    var paces: seq<real> := [];
    for z := 1 to 6
      invariant paces == anchors[..z - 1]
    {
      var p := ZonePercent(z);
      var pace := PaceSecPerKm(vdot, p, sqrt);
      assert pace == anchors[z - 1];
      paces := paces + [pace];
      assert paces == anchors[..z];
    }
    assert paces == anchors;
    bounds := map[];
    bounds := bounds[1 := Band((paces[0] + paces[1]) / 2.0, Sentinel)];
    bounds := bounds[2 := Band((paces[1] + paces[2]) / 2.0, (paces[0] + paces[1]) / 2.0)];
    bounds := bounds[3 := Band((paces[2] + paces[3]) / 2.0, (paces[1] + paces[2]) / 2.0)];
    bounds := bounds[4 := Band((paces[3] + paces[4]) / 2.0, (paces[2] + paces[3]) / 2.0)];
    bounds := bounds[5 := Band(0.0, (paces[3] + paces[4]) / 2.0)];
    if IsSqrt(sqrt) {
      AnchorPacesDecreasing(vdot, sqrt);
    }
  }

  /** The zones `1 .. n - 1`. */
  function KeysBelow(n: int): (keys: set<int>)
    ensures forall k :: k in keys <==> 1 <= k < n
  {
    if n <= 1 then {} else KeysBelow(n - 1) + {n - 1}
  }

  /** `getPaceZoneCenterFromVdot`: the anchor pace of every zone (all the
      sentinel for a non-positive VDOT); for a positive VDOT each centre lies
      strictly inside its zone's band. */
  method PaceZoneCenters(vdot: real, sqrt: real -> real) returns (centers: map<int, real>)
    ensures centers.Keys == {1, 2, 3, 4, 5}
    ensures forall z :: 1 <= z <= 5 ==> centers[z] == AnchorPaces(vdot, sqrt)[z - 1]
    ensures vdot <= 0.0 ==> forall z :: 1 <= z <= 5 ==> centers[z] == Sentinel
    ensures vdot > 0.0 && IsSqrt(sqrt) ==> Inside(centers, BandsFromPaces(AnchorPaces(vdot, sqrt)))
  {
    ghost var anchors := AnchorPaces(vdot, sqrt);
    centers := map[];
    for z := 1 to 6
      invariant centers.Keys == KeysBelow(z)
      invariant forall k :: 1 <= k < z ==> centers[k] == anchors[k - 1]
    {
      var pace := PaceSecPerKm(vdot, ZonePercent(z), sqrt);
      assert pace == anchors[z - 1];
      centers := centers[z := pace];
    }
    assert KeysBelow(6) == {1, 2, 3, 4, 5};
    if vdot <= 0.0 {
      AnchorPacesSentinel(vdot, sqrt);
    }
    if vdot > 0.0 && IsSqrt(sqrt) {
      CentersInsideBands(vdot, sqrt, centers);
    }
  }

  /** Every zone's centre lies strictly inside that zone's band. */
  predicate Inside(centers: map<int, real>, bands: map<int, Band>)
  {
    forall z :: z in centers && z in bands ==> bands[z].paceMin < centers[z] < bands[z].paceMax
  }

  /** A non-positive VDOT gives the sentinel in every zone. */
  lemma AnchorPacesSentinel(vdot: real, sqrt: real -> real)
    requires vdot <= 0.0
    ensures forall i :: 0 <= i < 5 ==> AnchorPaces(vdot, sqrt)[i] == Sentinel
  {
  }

  /** Each zone's anchor pace lies strictly inside that zone's band. */
  lemma CentersInsideBands(vdot: real, sqrt: real -> real, centers: map<int, real>)
    requires IsSqrt(sqrt) && vdot > 0.0
    requires forall z :: z in centers ==> 1 <= z <= 5 && centers[z] == AnchorPaces(vdot, sqrt)[z - 1]
    ensures Inside(centers, BandsFromPaces(AnchorPaces(vdot, sqrt)))
  {
    AnchorPacesDecreasing(vdot, sqrt);
  }
}
