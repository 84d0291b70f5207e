/**
 * The statistics cache builder: period keys, the lap and activity
 * selections, the per-(period, zone) and per-period running records, and
 * the builder object that upserts them into the two cache tables of a
 * `Store.Database`.
 *
 * The rows a pass writes are specified by `ZoneRows` and `TrendRows`, the
 * records of a `Grouping` of the selected rows; the builder's loops are
 * proved to write exactly those.
 */
module StatsCache {
  import opened Js
  import opened Text
  import opened Store
  import opened Grouping
  import VdotCalculator

  // ---------------------------------------------------------------------
  // getPeriod

  /** `Math.ceil(n / 7)`. */
  function CeilDiv7(n: int): (r: int)
    ensures 7 * (r - 1) < n <= 7 * r
  {
    -((-n) / 7)
  }

  /** The week number of the approximation the builder uses: weeks start on
      Sunday and week 1 is the one holding 1 January. */
  function WeekNo(d: UtcDate): int
  {
    CeilDiv7(d.dayOfYear + d.jan1Weekday + 1)
  }

  lemma WeekNoRange(d: UtcDate)
    requires ValidDate(d)
    ensures 1 <= WeekNo(d) <= 54
  {
  }

  /** Later days of one year never get an earlier week. */
  lemma WeekNoMonotone(d1: UtcDate, d2: UtcDate)
    requires d1.year == d2.year && d1.jan1Weekday == d2.jan1Weekday && d1.dayOfYear <= d2.dayOfYear
    ensures WeekNo(d1) <= WeekNo(d2)
  {
  }

  /** `String(n).padStart(2, '0')`. */
  function Field2(n: int): string
  {
    PadStart(IntToString(n), 2, '0')
  }

  /** `getPeriod`: "YYYY-MM" for "month", "YYYY-Www" for any other period type. */
  function GetPeriod(d: UtcDate, periodType: string): string
  {
    if periodType == "month" then IntToString(d.year) + "-" + Field2(d.month)
    else IntToString(d.year) + "-W" + Field2(WeekNo(d))
  }

  lemma Field2Pad2(n: nat)
    ensures Field2(n) == Pad2(n)
  {
  }

  /** The month key is the year, a dash and the month as two digits that
      read back as the month. */
  lemma MonthKeyShape(d: UtcDate)
    requires ValidDate(d)
    ensures var key := GetPeriod(d, "month");
      key == IntToString(d.year) + "-" + Pad2(d.month) &&
      |Pad2(d.month)| == 2 && DigitsValue(Pad2(d.month)) == d.month
  {
    Field2Pad2(d.month);
    Pad2RoundTrip(d.month);
  }

  /** The week key is the year, "-W" and the week number as two digits that
      read back as the week number. */
  lemma WeekKeyShape(d: UtcDate, periodType: string)
    requires ValidDate(d) && periodType != "month"
    ensures var key := GetPeriod(d, periodType);
      key == IntToString(d.year) + "-W" + Pad2(WeekNo(d)) &&
      |Pad2(WeekNo(d))| == 2 && DigitsValue(Pad2(WeekNo(d))) == WeekNo(d)
  {
    WeekNoRange(d);
    Field2Pad2(WeekNo(d));
    Pad2RoundTrip(WeekNo(d));
  }

  /** Within one year, month keys sort as the months do. */
  lemma MonthKeyOrder(d1: UtcDate, d2: UtcDate)
    requires ValidDate(d1) && ValidDate(d2) && d1.year == d2.year
    ensures Less(GetPeriod(d1, "month"), GetPeriod(d2, "month")) <==> d1.month < d2.month
  {
    Field2Pad2(d1.month);
    Field2Pad2(d2.month);
    var p := IntToString(d1.year) + "-";
    LessCommonPrefix(p, Pad2(d1.month), Pad2(d2.month));
    Pad2Order(d1.month, d2.month);
  }

  /** Within one year, week keys sort as the week numbers do. */
  lemma WeekKeyOrder(d1: UtcDate, d2: UtcDate, periodType: string)
    requires ValidDate(d1) && ValidDate(d2) && d1.year == d2.year && periodType != "month"
    ensures Less(GetPeriod(d1, periodType), GetPeriod(d2, periodType)) <==> WeekNo(d1) < WeekNo(d2)
  {
    WeekNoRange(d1);
    WeekNoRange(d2);
    Field2Pad2(WeekNo(d1));
    Field2Pad2(WeekNo(d2));
    var p := IntToString(d1.year) + "-W";
    LessCommonPrefix(p, Pad2(WeekNo(d1)), Pad2(WeekNo(d2)));
    Pad2Order(WeekNo(d1), WeekNo(d2));
  }

  // ---------------------------------------------------------------------
  // getActivityLaps, getActivitiesWithVDOT

  /** `start_time >= startDate` and `start_time <= endDate`, each only when
      the bound is given (non-empty). */
  predicate InBounds(startTime: string, startDate: string, endDate: string)
  {
    (startDate == "" || LessEq(startDate, startTime)) &&
    (endDate == "" || LessEq(startTime, endDate))
  }

  /** The activity a lap joins with. */
  function ActivityOf(activities: seq<Activity>, id: string): (r: Option<Activity>)
    ensures r.Some? ==> r.value in activities && r.value.activityId == id
    ensures r.None? ==> forall a :: a in activities ==> a.activityId != id
  {
    if activities == [] then None
    else if activities[0].activityId == id then Some(activities[0])
    else ActivityOf(activities[1..], id)
  }

  /** A row of the lap query: the lap's columns and its activity's start. */
  datatype LapRow = LapRow(
    activityId: string,
    lapIndex: int,
    startTime: string,
    date: UtcDate,
    duration: Option<real>,
    distance: Option<real>,
    averagePace: Option<real>,
    averageCadence: Option<real>,
    averageStrideLength: Option<real>,
    averageHeartRate: Option<real>)

  function Joined(lap: Lap, a: Activity): LapRow
  {
    LapRow(lap.activityId, lap.lapIndex, a.startTime, a.date, lap.duration, lap.distance,
           lap.averagePace, lap.averageCadence, lap.averageStrideLength, lap.averageHeartRate)
  }

  /** The lap query's WHERE clause: a heart rate, at least 50 m, a pace of
      at most 600 s/km when there is one, and a start within the bounds. */
  predicate LapSelected(row: LapRow, startDate: string, endDate: string)
  {
    row.averageHeartRate.Some? &&
    row.distance.Some? && row.distance.value >= 50.0 &&
    (row.averagePace.None? || row.averagePace.value <= 600.0) &&
    InBounds(row.startTime, startDate, endDate)
  }

  /** The rows of the lap query, in the order of the laps table. */
  function LapRows(activities: seq<Activity>, laps: seq<Lap>, startDate: string, endDate: string): seq<LapRow>
  {
    if laps == [] then []
    else
      var rest := LapRows(activities, laps[..|laps| - 1], startDate, endDate);
      var lap := laps[|laps| - 1];
      match ActivityOf(activities, lap.activityId)
      case None => rest
      case Some(a) =>
        var row := Joined(lap, a);
        if LapSelected(row, startDate, endDate) then rest + [row] else rest
  }

  /** Every row of the lap query passes its WHERE clause. */
  lemma {:induction false} LapRowsSelected(activities: seq<Activity>, laps: seq<Lap>, startDate: string,
                                           endDate: string)
    ensures forall row :: row in LapRows(activities, laps, startDate, endDate) ==> LapSelected(row, startDate, endDate)
  {
    if laps != [] {
      LapRowsSelected(activities, laps[..|laps| - 1], startDate, endDate);
    }
  }

  /** Every row of the lap query is a lap joined with its activity. */
  lemma {:induction false} LapRowsJoined(activities: seq<Activity>, laps: seq<Lap>, startDate: string,
                                         endDate: string, row: LapRow)
    requires row in LapRows(activities, laps, startDate, endDate)
    ensures exists lap, a :: lap in laps && a in activities && a.activityId == lap.activityId && row == Joined(lap, a)
  {
    var rest := LapRows(activities, laps[..|laps| - 1], startDate, endDate);
    var lap := laps[|laps| - 1];
    if row in rest {
      LapRowsJoined(activities, laps[..|laps| - 1], startDate, endDate, row);
      var l, a :| l in laps[..|laps| - 1] && a in activities && a.activityId == l.activityId && row == Joined(l, a);
      assert l in laps;
    } else {
      var a := ActivityOf(activities, lap.activityId).value;
      assert row == Joined(lap, a);
    }
  }

  /** A lap shorter than 50 m (or without a distance) adds no row. */
  lemma ShortLapIgnored(activities: seq<Activity>, laps: seq<Lap>, lap: Lap, startDate: string, endDate: string)
    requires lap.distance.None? || lap.distance.value < 50.0
    ensures LapRows(activities, laps + [lap], startDate, endDate) == LapRows(activities, laps, startDate, endDate)
  {
    assert (laps + [lap])[..|laps|] == laps;
  }

  /** The activity query's WHERE clause: a VDOT value and a start within the bounds. */
  predicate ActivitySelected(a: Activity, startDate: string, endDate: string)
  {
    a.vdotValue.Some? && InBounds(a.startTime, startDate, endDate)
  }

  /** The rows of the activity query, in the order of the activities table. */
  function TrendInput(activities: seq<Activity>, startDate: string, endDate: string): (r: seq<Activity>)
    ensures forall a :: a in r ==> a in activities && ActivitySelected(a, startDate, endDate)
  {
    if activities == [] then []
    else
      var rest := TrendInput(activities[..|activities| - 1], startDate, endDate);
      var a := activities[|activities| - 1];
      if ActivitySelected(a, startDate, endDate) then rest + [a] else rest
  }

  // ---------------------------------------------------------------------
  // buildHrZoneStats: the running record of one (period, zone) key

  /** JavaScript truthiness of a nullable number: present and not 0. */
  predicate Truthy(x: Option<real>)
  {
    x.Some? && x.value != 0.0
  }

  /** A running sum and count (`sum_pace` and `count_pace`, ...). */
  datatype Acc = Acc(sum: real, count: nat)

  function Accumulate(acc: Acc, x: Option<real>): Acc
  {
    if Truthy(x) then Acc(acc.sum + x.value, acc.count + 1) else acc
  }

  /** `count > 0 ? sum / count : null`. */
  function AvgOf(acc: Acc): Option<real>
  {
    if acc.count > 0 then Some(acc.sum / acc.count as real) else None
  }

  /** The running record of a key: the set of distinct activities, the
      totals, and a sum and count for each averaged column. */
  datatype ZoneBucket = ZoneBucket(
    activityIds: set<string>,
    totalDuration: real,
    totalDistance: real,
    pace: Acc,
    cadence: Acc,
    stride: Acc,
    heartRate: Acc)

  const EmptyZoneBucket := ZoneBucket({}, 0.0, 0.0, Acc(0.0, 0), Acc(0.0, 0), Acc(0.0, 0), Acc(0.0, 0))

  /** The loop body of the zone pass for one lap of the key. */
  function AddLap(b: ZoneBucket, lap: LapRow): ZoneBucket
  {
    ZoneBucket(
      b.activityIds + {lap.activityId},
      b.totalDuration + OrZero(lap.duration),
      b.totalDistance + OrZero(lap.distance),
      Accumulate(b.pace, lap.averagePace),
      Accumulate(b.cadence, lap.averageCadence),
      Accumulate(b.stride, lap.averageStrideLength),
      Accumulate(b.heartRate, lap.averageHeartRate))
  }

  /** The cache row written for a record. */
  function ZoneRowOf(b: ZoneBucket): ZoneRow
  {
    ZoneRow(|b.activityIds|, b.totalDuration, b.totalDistance,
            AvgOf(b.pace), AvgOf(b.cadence), AvgOf(b.stride), AvgOf(b.heartRate))
  }

  /** The key of a lap: its period and zone, or none for zone 0. */
  function LapKey(maxHr: real, periodType: string): LapRow -> Option<ZoneKey>
  {
    (lap: LapRow) =>
      var zone := VdotCalculator.HrZone(OrZero(lap.averageHeartRate), maxHr);
      if zone == 0 then None else Some(ZoneKey(GetPeriod(lap.date, periodType), periodType, zone))
  }

  /** The rows one zone pass writes: one per key of the selected laps. */
  function ZoneRows(rows: seq<LapRow>, maxHr: real, periodType: string): map<ZoneKey, ZoneRow>
  {
    var key := LapKey(maxHr, periodType);
    map k | k in KeysOf(rows, key) :: ZoneRowOf(Fold(Group(rows, key, k), AddLap, EmptyZoneBucket))
  }

  lemma ZoneRowsAt(rows: seq<LapRow>, maxHr: real, periodType: string, k: ZoneKey)
    requires k in ZoneRows(rows, maxHr, periodType)
    ensures Group(rows, LapKey(maxHr, periodType), k) != []
    ensures ZoneRows(rows, maxHr, periodType)[k] ==
      ZoneRowOf(Fold(Group(rows, LapKey(maxHr, periodType), k), AddLap, EmptyZoneBucket))
  {
    GroupSize(rows, LapKey(maxHr, periodType), k);
  }

  // ---------------------------------------------------------------------
  // What a zone row holds

  /** The averaged columns of a lap. */
  datatype Metric = Pace | Cadence | Stride | HeartRate

  function MetricOf(lap: LapRow, m: Metric): Option<real>
  {
    match m
    case Pace => lap.averagePace
    case Cadence => lap.averageCadence
    case Stride => lap.averageStrideLength
    case HeartRate => lap.averageHeartRate
  }

  function AccOf(b: ZoneBucket, m: Metric): Acc
  {
    match m
    case Pace => b.pace
    case Cadence => b.cadence
    case Stride => b.stride
    case HeartRate => b.heartRate
  }

  /** The truthy values of a column, in order. */
  function TruthyValues(laps: seq<LapRow>, m: Metric): seq<real>
  {
    if laps == [] then []
    else
      var rest := TruthyValues(laps[..|laps| - 1], m);
      var x := MetricOf(laps[|laps| - 1], m);
      if Truthy(x) then rest + [x.value] else rest
  }

  /** `lap.duration || 0` summed. */
  function TotalDuration(laps: seq<LapRow>): real
  {
    if laps == [] then 0.0 else TotalDuration(laps[..|laps| - 1]) + OrZero(laps[|laps| - 1].duration)
  }

  function TotalDistance(laps: seq<LapRow>): real
  {
    if laps == [] then 0.0 else TotalDistance(laps[..|laps| - 1]) + OrZero(laps[|laps| - 1].distance)
  }

  function ActivityIds(laps: seq<LapRow>): set<string>
  {
    set lap | lap in laps :: lap.activityId
  }

  /** The record of some laps holds their distinct activities, their totals
      and, per column, the sum and number of the truthy values. */
  lemma {:induction false} ZoneFold(laps: seq<LapRow>)
    ensures var b := Fold(laps, AddLap, EmptyZoneBucket);
      b.activityIds == ActivityIds(laps) &&
      b.totalDuration == TotalDuration(laps) && b.totalDistance == TotalDistance(laps)
  {
    if laps != [] {
      var init := laps[..|laps| - 1];
      ZoneFold(init);
      assert laps == init + [laps[|laps| - 1]];
      assert ActivityIds(laps) == ActivityIds(init) + {laps[|laps| - 1].activityId};
    }
  }

  lemma {:induction false} ZoneFoldAcc(laps: seq<LapRow>, m: Metric)
    ensures AccOf(Fold(laps, AddLap, EmptyZoneBucket), m) == Acc(Sum(TruthyValues(laps, m)), |TruthyValues(laps, m)|)
  {
    if laps != [] {
      var init := laps[..|laps| - 1];
      ZoneFoldAcc(init, m);
      var vs := TruthyValues(laps, m);
      if Truthy(MetricOf(laps[|laps| - 1], m)) {
        assert vs[..|vs| - 1] == TruthyValues(init, m);
      }
    }
  }

  /** There are never more distinct activities than laps. */
  lemma {:induction false} ActivityIdsBound(laps: seq<LapRow>)
    ensures |ActivityIds(laps)| <= |laps|
    ensures laps != [] ==> |ActivityIds(laps)| >= 1
  {
    if laps != [] {
      var init := laps[..|laps| - 1];
      ActivityIdsBound(init);
      assert laps == init + [laps[|laps| - 1]];
      assert ActivityIds(laps) == ActivityIds(init) + {laps[|laps| - 1].activityId};
    }
  }

  /** A column average is the mean of the truthy values of the key's laps:
      `None` exactly when there is none. */
  lemma AvgIsMean(laps: seq<LapRow>, m: Metric)
    ensures AvgOf(AccOf(Fold(laps, AddLap, EmptyZoneBucket), m)) == Mean(TruthyValues(laps, m))
  {
    ZoneFoldAcc(laps, m);
  }

  /** The key of each written zone row has the pass's period type, a zone
      in 1..5 and the period of each of its laps, of which there is at
      least one. */
  lemma ZoneKeyFacts(rows: seq<LapRow>, maxHr: real, periodType: string, k: ZoneKey)
    requires k in ZoneRows(rows, maxHr, periodType)
    ensures var g := Group(rows, LapKey(maxHr, periodType), k);
      k.periodType == periodType && 1 <= k.hrZone <= 5 && g != [] &&
      forall lap :: lap in g ==> lap in rows && GetPeriod(lap.date, periodType) == k.period
  {
    var key := LapKey(maxHr, periodType);
    var g := Group(rows, key, k);
    GroupSize(rows, key, k);
    forall lap | lap in g
      ensures lap in rows && GetPeriod(lap.date, periodType) == k.period
    {
      GroupMembers(rows, key, k, lap);
    }
    GroupMembers(rows, key, k, g[0]);
  }

  /** Each written zone row: its activity count is the number of distinct
      activities among its laps (at least 1, at most the number of laps);
      the totals are sums with missing values as 0; and each average is the
      mean of the truthy values of its column. */
  lemma ZoneRowFacts(rows: seq<LapRow>, maxHr: real, periodType: string, k: ZoneKey)
    requires k in ZoneRows(rows, maxHr, periodType)
    ensures var g := Group(rows, LapKey(maxHr, periodType), k);
      var row := ZoneRows(rows, maxHr, periodType)[k];
      row.activityCount == |ActivityIds(g)| && 1 <= row.activityCount <= |g| &&
      row.totalDuration == TotalDuration(g) && row.totalDistance == TotalDistance(g) &&
      row.avgPace == Mean(TruthyValues(g, Pace)) &&
      row.avgCadence == Mean(TruthyValues(g, Cadence)) &&
      row.avgStrideLength == Mean(TruthyValues(g, Stride)) &&
      row.avgHeartRate == Mean(TruthyValues(g, HeartRate))
  {
    var g := Group(rows, LapKey(maxHr, periodType), k);
    ZoneRowsAt(rows, maxHr, periodType, k);
    BucketRowFacts(g);
    BucketRowAverages(g);
  }

  /** The row of the record of a non-empty group of laps. */
  lemma BucketRowFacts(g: seq<LapRow>)
    requires g != []
    ensures ZoneRowOf(Fold(g, AddLap, EmptyZoneBucket)).activityCount == |ActivityIds(g)|
    ensures 1 <= |ActivityIds(g)| <= |g|
    ensures ZoneRowOf(Fold(g, AddLap, EmptyZoneBucket)).totalDuration == TotalDuration(g)
    ensures ZoneRowOf(Fold(g, AddLap, EmptyZoneBucket)).totalDistance == TotalDistance(g)
  {
    ZoneFold(g);
    ActivityIdsBound(g);
  }

  lemma BucketRowAverages(g: seq<LapRow>)
    ensures ZoneRowOf(Fold(g, AddLap, EmptyZoneBucket)).avgPace == Mean(TruthyValues(g, Pace))
    ensures ZoneRowOf(Fold(g, AddLap, EmptyZoneBucket)).avgCadence == Mean(TruthyValues(g, Cadence))
    ensures ZoneRowOf(Fold(g, AddLap, EmptyZoneBucket)).avgStrideLength == Mean(TruthyValues(g, Stride))
    ensures ZoneRowOf(Fold(g, AddLap, EmptyZoneBucket)).avgHeartRate == Mean(TruthyValues(g, HeartRate))
  {
    AvgIsMean(g, Pace);
    AvgIsMean(g, Cadence);
    AvgIsMean(g, Stride);
    AvgIsMean(g, HeartRate);
  }

  /** Every lap's column value bounded by `hi` (or missing) bounds the truthy values. */
  lemma {:induction false} TruthyAtMost(laps: seq<LapRow>, m: Metric, hi: real)
    requires forall lap :: lap in laps ==> MetricOf(lap, m).None? || MetricOf(lap, m).value <= hi
    ensures forall i :: 0 <= i < |TruthyValues(laps, m)| ==> TruthyValues(laps, m)[i] <= hi
  {
    if laps != [] {
      TruthyAtMost(laps[..|laps| - 1], m, hi);
    }
  }

  lemma {:induction false} SumAtMost(xs: seq<real>, hi: real)
    requires forall i :: 0 <= i < |xs| ==> xs[i] <= hi
    ensures Sum(xs) <= |xs| as real * hi
  {
    if xs != [] {
      SumAtMost(xs[..|xs| - 1], hi);
    }
  }

  /** A mean of truthy values is bounded by any bound on the column. */
  lemma MeanAtMost(laps: seq<LapRow>, m: Metric, hi: real)
    requires forall lap :: lap in laps ==> MetricOf(lap, m).None? || MetricOf(lap, m).value <= hi
    ensures Mean(TruthyValues(laps, m)).Some? ==> Mean(TruthyValues(laps, m)).value <= hi
  {
    var xs := TruthyValues(laps, m);
    TruthyAtMost(laps, m, hi);
    if xs != [] {
      SumAtMost(xs, hi);
      DivideBounds(Sum(xs), |xs| as real, 0.0, hi);
    }
  }

  /** Because the lap query drops paces above 600 s/km, no cached average
      pace is above 600. */
  lemma AvgPaceAtMost600(activities: seq<Activity>, laps: seq<Lap>, startDate: string, endDate: string,
                         maxHr: real, periodType: string, k: ZoneKey)
    requires k in ZoneRows(LapRows(activities, laps, startDate, endDate), maxHr, periodType)
    ensures var row := ZoneRows(LapRows(activities, laps, startDate, endDate), maxHr, periodType)[k];
      row.avgPace.Some? ==> row.avgPace.value <= 600.0
  {
    var rows := LapRows(activities, laps, startDate, endDate);
    var g := Group(rows, LapKey(maxHr, periodType), k);
    ZoneRowsAt(rows, maxHr, periodType, k);
    AvgIsMean(g, Pace);
    LapRowsSelected(activities, laps, startDate, endDate);
    forall lap | lap in g
      ensures MetricOf(lap, Pace).None? || MetricOf(lap, Pace).value <= 600.0
    {
      GroupMembers(rows, LapKey(maxHr, periodType), k, lap);
    }
    MeanAtMost(g, Pace, 600.0);
  }

  /** A lap of zone 0 (no positive heart rate) is in no row. */
  lemma ZeroZoneSkipped(rows: seq<LapRow>, maxHr: real, periodType: string, lap: LapRow, k: ZoneKey)
    requires OrZero(lap.averageHeartRate) <= 0.0
    ensures lap !in Group(rows, LapKey(maxHr, periodType), k)
  {
    GroupMembers(rows, LapKey(maxHr, periodType), k, lap);
  }

  // ---------------------------------------------------------------------
  // buildVDOTTrend: the running record of one period

  datatype TrendBucket = TrendBucket(
    sumVdot: real,
    countVdot: nat,
    maxVdot: Option<real>,
    minVdot: Option<real>,
    activityCount: nat,
    totalDistance: real,
    totalDuration: real)

  const EmptyTrendBucket := TrendBucket(0.0, 0, None, None, 0, 0.0, 0.0)

  function Max(a: real, b: real): real { if a >= b then a else b }
  function Min(a: real, b: real): real { if a <= b then a else b }

  /** The loop body of the trend pass for one activity of the period. */
  function AddActivity(b: TrendBucket, a: Activity): TrendBucket
  {
    var vdot := OrZero(a.vdotValue);
    TrendBucket(
      b.sumVdot + vdot,
      b.countVdot + 1,
      if b.maxVdot.None? then Some(vdot) else Some(Max(b.maxVdot.value, vdot)),
      if b.minVdot.None? then Some(vdot) else Some(Min(b.minVdot.value, vdot)),
      b.activityCount + 1,
      b.totalDistance + OrZero(a.distance),
      b.totalDuration + OrZero(a.duration))
  }

  /** The cache row written for a record; `sum / 0` would be `NaN`. */
  function TrendRowOf(b: TrendBucket): TrendRow
  {
    TrendRow(if b.countVdot == 0 then NaN else Num(b.sumVdot / b.countVdot as real),
             b.maxVdot, b.minVdot, b.activityCount, b.totalDistance, b.totalDuration)
  }

  function TrendKeyOf(periodType: string): Activity -> Option<TrendKey>
  {
    (a: Activity) => Some(TrendKey(GetPeriod(a.date, periodType), periodType))
  }

  /** The rows one trend pass writes: one per period of the selected activities. */
  function TrendRows(activities: seq<Activity>, periodType: string): map<TrendKey, TrendRow>
  {
    var key := TrendKeyOf(periodType);
    map k | k in KeysOf(activities, key) :: TrendRowOf(Fold(Group(activities, key, k), AddActivity, EmptyTrendBucket))
  }

  function Vdots(activities: seq<Activity>): (r: seq<real>)
    ensures |r| == |activities|
  {
    if activities == [] then [] else Vdots(activities[..|activities| - 1]) + [OrZero(activities[|activities| - 1].vdotValue)]
  }

  /** The record of some activities counts them, sums their VDOT values and
      holds their running maximum and minimum. */
  lemma {:induction false} TrendFold(activities: seq<Activity>)
    ensures var b := Fold(activities, AddActivity, EmptyTrendBucket);
      var vs := Vdots(activities);
      b.countVdot == |activities| && b.activityCount == |activities| && b.sumVdot == Sum(vs) &&
      (activities == [] <==> b.maxVdot.None?) && (activities == [] <==> b.minVdot.None?) &&
      (activities != [] ==>
        b.maxVdot.value in vs && b.minVdot.value in vs &&
        forall i :: 0 <= i < |vs| ==> b.minVdot.value <= vs[i] <= b.maxVdot.value)
  {
    if activities != [] {
      var n := |activities| - 1;
      var init := activities[..n];
      TrendFold(init);
      var b0 := Fold(init, AddActivity, EmptyTrendBucket);
      var b := Fold(activities, AddActivity, EmptyTrendBucket);
      var vs0, vs := Vdots(init), Vdots(activities);
      assert b == AddActivity(b0, activities[n]);
      assert vs == vs0 + [OrZero(activities[n].vdotValue)];
      assert vs[..n] == vs0;
      forall i | 0 <= i < n
        ensures vs[i] == vs0[i]
      {
      }
    }
  }

  /** Each written trend row: its activity count is the number of
      VDOT-bearing activities of its period (at least one), the average is
      their mean, and the running extrema are values of the period with
      `min <= avg <= max`. */
  lemma TrendRowFacts(activities: seq<Activity>, periodType: string, k: TrendKey)
    requires k in TrendRows(activities, periodType)
    ensures var g := Group(activities, TrendKeyOf(periodType), k);
      var row := TrendRows(activities, periodType)[k];
      k.periodType == periodType && g != [] &&
      (forall a :: a in g ==> a in activities && GetPeriod(a.date, periodType) == k.period) &&
      row.activityCount == |g| &&
      row.avgVdot.Num? && Some(row.avgVdot.v) == Mean(Vdots(g)) &&
      row.maxVdot.Some? && row.minVdot.Some? &&
      row.maxVdot.value in Vdots(g) && row.minVdot.value in Vdots(g) &&
      row.minVdot.value <= row.avgVdot.v <= row.maxVdot.value
  {
    var key := TrendKeyOf(periodType);
    var g := Group(activities, key, k);
    GroupSize(activities, key, k);
    forall a | a in g
      ensures a in activities && GetPeriod(a.date, periodType) == k.period
    {
      GroupMembers(activities, key, k, a);
    }
    GroupMembers(activities, key, k, g[0]);
    assert TrendRows(activities, periodType)[k] == TrendRowOf(Fold(g, AddActivity, EmptyTrendBucket));
    NonEmptyTrendRow(g);
  }

  /** The row of a non-empty period counts its activities, averages their
      VDOT values, and holds extrema that bound the average. */
  lemma NonEmptyTrendRow(g: seq<Activity>)
    requires g != []
    ensures var row := TrendRowOf(Fold(g, AddActivity, EmptyTrendBucket));
      row.activityCount == |g| &&
      row.avgVdot.Num? && Some(row.avgVdot.v) == Mean(Vdots(g)) &&
      row.maxVdot.Some? && row.minVdot.Some? &&
      row.maxVdot.value in Vdots(g) && row.minVdot.value in Vdots(g) &&
      row.minVdot.value <= row.avgVdot.v <= row.maxVdot.value
  {
    TrendFold(g);
    var b := Fold(g, AddActivity, EmptyTrendBucket);
    MeanBounds(Vdots(g), b.minVdot.value, b.maxVdot.value);
  }

  // ---------------------------------------------------------------------
  // build: the passes over every period type

  /** The command-line options; an absent date is "". */
  datatype Options = Options(mode: string, periodType: string, startDate: string, endDate: string, clear: bool)

  /** 'both' runs the week pass then the month pass; anything else runs its own. */
  function PeriodTypes(periodType: string): seq<string>
  {
    if periodType == "both" then ["week", "month"] else [periodType]
  }

  /** The zone rows of the passes over `types`, later passes overriding earlier ones. */
  function ZonePasses(activities: seq<Activity>, laps: seq<Lap>, maxHr: real, startDate: string, endDate: string,
                      types: seq<string>): map<ZoneKey, ZoneRow>
  {
    if types == [] then map[]
    else ZonePasses(activities, laps, maxHr, startDate, endDate, types[..|types| - 1]) +
         ZoneRows(LapRows(activities, laps, startDate, endDate), maxHr, types[|types| - 1])
  }

  function TrendPasses(activities: seq<Activity>, startDate: string, endDate: string,
                       types: seq<string>): map<TrendKey, TrendRow>
  {
    if types == [] then map[]
    else TrendPasses(activities, startDate, endDate, types[..|types| - 1]) +
         TrendRows(TrendInput(activities, startDate, endDate), types[|types| - 1])
  }

  /** A cache table after `build`: cleared first when asked, then every row
      of every pass upserted. */
  function BuiltCache<K, V>(cache: map<K, V>, clear: bool, rows: map<K, V>): map<K, V>
  {
    (if clear then map[] else cache) + rows
  }

  function BuiltZones(cache: map<ZoneKey, ZoneRow>, activities: seq<Activity>, laps: seq<Lap>, maxHr: real,
                      options: Options): map<ZoneKey, ZoneRow>
  {
    BuiltCache(cache, options.clear,
      ZonePasses(activities, laps, maxHr, options.startDate, options.endDate, PeriodTypes(options.periodType)))
  }

  function BuiltTrends(cache: map<TrendKey, TrendRow>, activities: seq<Activity>, options: Options): map<TrendKey, TrendRow>
  {
    BuiltCache(cache, options.clear,
      TrendPasses(activities, options.startDate, options.endDate, PeriodTypes(options.periodType)))
  }

  /** Each key a run produces holds exactly the row it wrote; every other
      key keeps its old row, unless the tables were cleared, when it is gone. */
  lemma BuiltCacheKeys<K, V>(cache: map<K, V>, clear: bool, rows: map<K, V>, k: K)
    ensures k in rows ==> k in BuiltCache(cache, clear, rows) && BuiltCache(cache, clear, rows)[k] == rows[k]
    ensures k !in rows && !clear ==> (k in BuiltCache(cache, clear, rows) <==> k in cache)
    ensures k !in rows && !clear && k in cache ==> BuiltCache(cache, clear, rows)[k] == cache[k]
    ensures k !in rows && clear ==> k !in BuiltCache(cache, clear, rows)
  {
  }

  /** Re-running a build over the same tables changes nothing. */
  lemma BuildIdempotent<K, V>(cache: map<K, V>, clear: bool, rows: map<K, V>)
    ensures BuiltCache(BuiltCache(cache, clear, rows), clear, rows) == BuiltCache(cache, clear, rows)
  {
    var once := BuiltCache(cache, clear, rows);
    var twice := BuiltCache(once, clear, rows);
    assert forall k :: k in twice <==> k in once;
    assert forall k :: k in twice ==> twice[k] == once[k];
  }

  /** 'full' and 'incremental' build the same tables. */
  lemma ModeIgnored(zones: map<ZoneKey, ZoneRow>, trends: map<TrendKey, TrendRow>, activities: seq<Activity>,
                    laps: seq<Lap>, maxHr: real, options: Options, mode: string)
    ensures BuiltZones(zones, activities, laps, maxHr, options.(mode := mode)) ==
            BuiltZones(zones, activities, laps, maxHr, options)
    ensures BuiltTrends(trends, activities, options.(mode := mode)) == BuiltTrends(trends, activities, options)
  {
  }

  /** A pass only writes keys of its own period type, so in a 'both' run
      the month pass overrides no row of the week pass. */
  lemma PassKeysOwnType(rows: seq<LapRow>, maxHr: real, periodType: string, k: ZoneKey)
    ensures k in ZoneRows(rows, maxHr, periodType) ==> k.periodType == periodType
  {
    if k in ZoneRows(rows, maxHr, periodType) {
      ZoneKeyFacts(rows, maxHr, periodType, k);
    }
  }

  /** `parseInt(process.env.MAX_HR) || 190`: the parsed value unless it is missing, NaN or 0. */
  function MaxHrSetting(parsed: JsNumber): (r: real)
    ensures r != 0.0
    ensures parsed.Num? && parsed.v != 0.0 ==> r == parsed.v
    ensures !(parsed.Num? && parsed.v != 0.0) ==> r == 190.0
  {
    if parsed.Num? && parsed.v != 0.0 then parsed.v else 190.0
  }

  /** After the first loop, the records are those of `ZoneRows`. */
  lemma AggregatedZoneRows(laps: seq<LapRow>, maxHr: real, periodType: string, statsMap: map<ZoneKey, ZoneBucket>)
    requires Aggregated(statsMap, laps, LapKey(maxHr, periodType), AddLap, EmptyZoneBucket)
    ensures forall k :: k in statsMap <==> k in ZoneRows(laps, maxHr, periodType)
    ensures forall k :: k in statsMap ==> ZoneRows(laps, maxHr, periodType)[k] == ZoneRowOf(statsMap[k])
  {
  }

  lemma AggregatedTrendRows(activities: seq<Activity>, periodType: string, trendsMap: map<TrendKey, TrendBucket>)
    requires Aggregated(trendsMap, activities, TrendKeyOf(periodType), AddActivity, EmptyTrendBucket)
    ensures forall k :: k in trendsMap <==> k in TrendRows(activities, periodType)
    ensures forall k :: k in trendsMap ==> TrendRows(activities, periodType)[k] == TrendRowOf(trendsMap[k])
  {
  }

  /** A table after upserting the rows of the first `j` keys of `order`. */
  function Upserted<K, V>(cache: map<K, V>, rows: map<K, V>, order: seq<K>, j: nat): map<K, V>
    requires j <= |order|
  {
    cache + map k | k in order[..j] && k in rows :: rows[k]
  }

  lemma UpsertStep<K, V>(cache: map<K, V>, rows: map<K, V>, order: seq<K>, j: nat)
    requires j < |order| && order[j] in rows
    ensures Upserted(cache, rows, order, j)[order[j] := rows[order[j]]] == Upserted(cache, rows, order, j + 1)
  {
    assert order[..j + 1] == order[..j] + [order[j]];
  }

  lemma UpsertAll<K, V>(cache: map<K, V>, rows: map<K, V>, order: seq<K>)
    requires forall k :: k in order <==> k in rows
    ensures Upserted(cache, rows, order, |order|) == cache + rows
  {
    assert order[..|order|] == order;
    assert (map k | k in order && k in rows :: rows[k]) == rows;
  }

  lemma MergeAssoc<K, V>(a: map<K, V>, b: map<K, V>, c: map<K, V>)
    ensures (a + b) + c == a + (b + c)
  {
  }

  // ---------------------------------------------------------------------
  // The builder

  class StatsCacheBuilder {
    const db: Database
    /** The maximum heart rate of the calculator used for zones. */
    const maxHr: real

    constructor(db: Database, maxHr: real)
      ensures this.db == db && this.maxHr == maxHr
    {
      this.db := db;
      this.maxHr := maxHr;
    }

    /** `clearCache`: empties both cache tables. */
    method ClearCache()
      modifies db
      ensures db.hrZoneCache == map[] && db.vdotTrendCache == map[]
      ensures db.activities == old(db.activities) && db.laps == old(db.laps) && db.records == old(db.records)
    {
      db.ClearCaches();
    }

    /** The first loop of `buildHrZoneStats`: one running record per
        (period, zone) key of the laps, and the keys in first-seen order. */
    method AggregateLaps(laps: seq<LapRow>, periodType: string)
      returns (statsMap: map<ZoneKey, ZoneBucket>, order: seq<ZoneKey>)
      ensures Aggregated(statsMap, laps, LapKey(maxHr, periodType), AddLap, EmptyZoneBucket)
      ensures forall k :: k in order <==> k in statsMap
    {
      ghost var key := LapKey(maxHr, periodType);
      statsMap := map[];
      order := [];
      AggregatedStart(laps, key, AddLap, EmptyZoneBucket);
      for i := 0 to |laps|
        invariant Aggregated(statsMap, laps[..i], key, AddLap, EmptyZoneBucket)
        invariant forall k :: k in order <==> k in statsMap
      {
        var lap := laps[i];
        ghost var before := statsMap;
        var hrZone := VdotCalculator.HrZone(OrZero(lap.averageHeartRate), maxHr);
        assert key(lap) == if hrZone == 0 then None else Some(ZoneKey(GetPeriod(lap.date, periodType), periodType, hrZone));
        if hrZone != 0 {
          var period := GetPeriod(lap.date, periodType);
          statsMap, order := AddToRecord(statsMap, order, ZoneKey(period, periodType, hrZone), lap);
        }
        AggregateStep(laps, i, key, AddLap, EmptyZoneBucket, before, statsMap);
      }
      assert laps[..|laps|] == laps;
    }

    /** Adds a lap to the record of key `k`, creating the record (and
        noting its key) when it is new. */
    static method AddToRecord(statsMap: map<ZoneKey, ZoneBucket>, order: seq<ZoneKey>, k: ZoneKey, lap: LapRow)
      returns (statsMap': map<ZoneKey, ZoneBucket>, order': seq<ZoneKey>)
      requires forall k :: k in order <==> k in statsMap
      ensures statsMap' == statsMap[k := AddLap(if k in statsMap then statsMap[k] else EmptyZoneBucket, lap)]
      ensures forall k :: k in order' <==> k in statsMap'
    {
      statsMap', order' := statsMap, order;
      if k !in statsMap' {
        statsMap' := statsMap'[k := EmptyZoneBucket];
        order' := order' + [k];
      }
      statsMap' := statsMap'[k := AddLap(statsMap'[k], lap)];
    }

    /** The second loop of `buildHrZoneStats`: one upsert per record, in
        first-seen order, overwriting every derived column. */
    method UpsertZoneStats(statsMap: map<ZoneKey, ZoneBucket>, order: seq<ZoneKey>, ghost rows: map<ZoneKey, ZoneRow>)
      requires forall k :: k in order <==> k in rows
      requires forall k :: k in statsMap <==> k in rows
      requires forall k :: k in statsMap ==> rows[k] == ZoneRowOf(statsMap[k])
      modifies db
      ensures db.hrZoneCache == old(db.hrZoneCache) + rows
      ensures db.vdotTrendCache == old(db.vdotTrendCache)
      ensures db.activities == old(db.activities) && db.laps == old(db.laps) && db.records == old(db.records)
    {
      ghost var cache0 := db.hrZoneCache;
      for j := 0 to |order|
        invariant db.activities == old(db.activities) && db.laps == old(db.laps) && db.records == old(db.records)
        invariant db.vdotTrendCache == old(db.vdotTrendCache)
        invariant db.hrZoneCache == Upserted(cache0, rows, order, j)
      {
        UpsertStep(cache0, rows, order, j);
        db.hrZoneCache := db.hrZoneCache[order[j] := ZoneRowOf(statsMap[order[j]])];
      }
      UpsertAll(cache0, rows, order);
    }

    /** `buildHrZoneStats`: the records of the selected laps, then their upserts. */
    method BuildHrZoneStats(periodType: string, startDate: string, endDate: string)
      modifies db
      ensures db.hrZoneCache == old(db.hrZoneCache) + ZoneRows(LapRows(db.activities, db.laps, startDate, endDate), maxHr, periodType)
      ensures db.vdotTrendCache == old(db.vdotTrendCache)
      ensures db.activities == old(db.activities) && db.laps == old(db.laps) && db.records == old(db.records)
    {
      var laps := LapRows(db.activities, db.laps, startDate, endDate);
      var statsMap, order := AggregateLaps(laps, periodType);
      AggregatedZoneRows(laps, maxHr, periodType, statsMap);
      UpsertZoneStats(statsMap, order, ZoneRows(laps, maxHr, periodType));
    }

    /** The first loop of `buildVDOTTrend`: one running record per period
        of the activities, and the periods in first-seen order. */
    method AggregateActivities(activities: seq<Activity>, periodType: string)
      returns (trendsMap: map<TrendKey, TrendBucket>, order: seq<TrendKey>)
      ensures Aggregated(trendsMap, activities, TrendKeyOf(periodType), AddActivity, EmptyTrendBucket)
      ensures forall k :: k in order <==> k in trendsMap
    {
      ghost var key := TrendKeyOf(periodType);
      trendsMap := map[];
      order := [];
      AggregatedStart(activities, key, AddActivity, EmptyTrendBucket);
      for i := 0 to |activities|
        invariant Aggregated(trendsMap, activities[..i], key, AddActivity, EmptyTrendBucket)
        invariant forall k :: k in order <==> k in trendsMap
      {
        var activity := activities[i];
        ghost var before := trendsMap;
        var period := TrendKey(GetPeriod(activity.date, periodType), periodType);
        trendsMap, order := AddToTrend(trendsMap, order, period, activity);
        AggregateStep(activities, i, key, AddActivity, EmptyTrendBucket, before, trendsMap);
      }
      assert activities[..|activities|] == activities;
    }

    /** Adds an activity to the record of period `k`, creating the record
        (and noting its key) when it is new. */
    static method AddToTrend(trendsMap: map<TrendKey, TrendBucket>, order: seq<TrendKey>, k: TrendKey, activity: Activity)
      returns (trendsMap': map<TrendKey, TrendBucket>, order': seq<TrendKey>)
      requires forall k :: k in order <==> k in trendsMap
      ensures trendsMap' == trendsMap[k := AddActivity(if k in trendsMap then trendsMap[k] else EmptyTrendBucket, activity)]
      ensures forall k :: k in order' <==> k in trendsMap'
    {
      trendsMap', order' := trendsMap, order;
      if k !in trendsMap' {
        trendsMap' := trendsMap'[k := EmptyTrendBucket];
        order' := order' + [k];
      }
      trendsMap' := trendsMap'[k := AddActivity(trendsMap'[k], activity)];
    }

    /** The second loop of `buildVDOTTrend`: one upsert per record, in
        first-seen order, overwriting every derived column. */
    method UpsertTrends(trendsMap: map<TrendKey, TrendBucket>, order: seq<TrendKey>, ghost rows: map<TrendKey, TrendRow>)
      requires forall k :: k in order <==> k in rows
      requires forall k :: k in trendsMap <==> k in rows
      requires forall k :: k in trendsMap ==> rows[k] == TrendRowOf(trendsMap[k])
      modifies db
      ensures db.vdotTrendCache == old(db.vdotTrendCache) + rows
      ensures db.hrZoneCache == old(db.hrZoneCache)
      ensures db.activities == old(db.activities) && db.laps == old(db.laps) && db.records == old(db.records)
    {
      ghost var cache0 := db.vdotTrendCache;
      for j := 0 to |order|
        invariant db.activities == old(db.activities) && db.laps == old(db.laps) && db.records == old(db.records)
        invariant db.hrZoneCache == old(db.hrZoneCache)
        invariant db.vdotTrendCache == Upserted(cache0, rows, order, j)
      {
        UpsertStep(cache0, rows, order, j);
        db.vdotTrendCache := db.vdotTrendCache[order[j] := TrendRowOf(trendsMap[order[j]])];
      }
      UpsertAll(cache0, rows, order);
    }

    /** `buildVDOTTrend`: the records of the selected activities, then their upserts. */
    method BuildVdotTrend(periodType: string, startDate: string, endDate: string)
      modifies db
      ensures db.vdotTrendCache == old(db.vdotTrendCache) + TrendRows(TrendInput(db.activities, startDate, endDate), periodType)
      ensures db.hrZoneCache == old(db.hrZoneCache)
      ensures db.activities == old(db.activities) && db.laps == old(db.laps) && db.records == old(db.records)
    {
      var activities := TrendInput(db.activities, startDate, endDate);
      var trendsMap, order := AggregateActivities(activities, periodType);
      AggregatedTrendRows(activities, periodType, trendsMap);
      UpsertTrends(trendsMap, order, TrendRows(activities, periodType));
    }

    /** `build`: clear when asked, then for each period type the zone pass
        and the trend pass. */
    method Build(options: Options)
      modifies db
      ensures db.hrZoneCache == BuiltZones(old(db.hrZoneCache), db.activities, db.laps, maxHr, options)
      ensures db.vdotTrendCache == BuiltTrends(old(db.vdotTrendCache), db.activities, options)
      ensures db.activities == old(db.activities) && db.laps == old(db.laps) && db.records == old(db.records)
    {
      if options.clear {
        ClearCache();
      }
      ghost var zones0 := db.hrZoneCache;
      ghost var trends0 := db.vdotTrendCache;
      var periodTypes := PeriodTypes(options.periodType);
      for i := 0 to |periodTypes|
        invariant db.activities == old(db.activities) && db.laps == old(db.laps) && db.records == old(db.records)
        invariant db.hrZoneCache == zones0 + ZonePasses(db.activities, db.laps, maxHr, options.startDate, options.endDate, periodTypes[..i])
        invariant db.vdotTrendCache == trends0 + TrendPasses(db.activities, options.startDate, options.endDate, periodTypes[..i])
      {
        assert periodTypes[..i + 1][..i] == periodTypes[..i];
        ghost var zones := ZonePasses(db.activities, db.laps, maxHr, options.startDate, options.endDate, periodTypes[..i]);
        ghost var trends := TrendPasses(db.activities, options.startDate, options.endDate, periodTypes[..i]);
        BuildHrZoneStats(periodTypes[i], options.startDate, options.endDate);
        MergeAssoc(zones0, zones, ZoneRows(LapRows(db.activities, db.laps, options.startDate, options.endDate), maxHr, periodTypes[i]));
        BuildVdotTrend(periodTypes[i], options.startDate, options.endDate);
        MergeAssoc(trends0, trends, TrendRows(TrendInput(db.activities, options.startDate, options.endDate), periodTypes[i]));
      }
      assert periodTypes[..|periodTypes|] == periodTypes;
    }
  }

  // ---------------------------------------------------------------------
  // parseArgs

  const DefaultOptions := Options("incremental", "both", "", "", false)

  /** The options after reading `args` from position `i` on: a flag with a
      value takes the next argument when it is non-empty; '--clear' takes
      none; anything else is skipped. */
  function ParseFrom(args: seq<string>, i: nat, options: Options): Options
    decreases |args| - i
  {
    if i >= |args| then options
    else
      var arg := args[i];
      var hasValue := i + 1 < |args| && args[i + 1] != "";
      if arg == "--mode" && hasValue then ParseFrom(args, i + 2, options.(mode := args[i + 1]))
      else if arg == "--period-type" && hasValue then ParseFrom(args, i + 2, options.(periodType := args[i + 1]))
      else if arg == "--start-date" && hasValue then ParseFrom(args, i + 2, options.(startDate := args[i + 1]))
      else if arg == "--end-date" && hasValue then ParseFrom(args, i + 2, options.(endDate := args[i + 1]))
      else if arg == "--clear" then ParseFrom(args, i + 1, options.(clear := true))
      else ParseFrom(args, i + 1, options)
  }

  /** `parseArgs`. */
  method ParseArgs(args: seq<string>) returns (options: Options)
    ensures options == ParseFrom(args, 0, DefaultOptions)
  {
    options := DefaultOptions;
    var i := 0;
    while i < |args|
      invariant 0 <= i <= |args| + 1
      invariant ParseFrom(args, i, options) == ParseFrom(args, 0, DefaultOptions)
      decreases |args| - i
    {
      var arg := args[i];
      if arg == "--mode" && i + 1 < |args| && args[i + 1] != "" {
        i := i + 1;
        options := options.(mode := args[i]);
      } else if arg == "--period-type" && i + 1 < |args| && args[i + 1] != "" {
        i := i + 1;
        options := options.(periodType := args[i]);
      } else if arg == "--start-date" && i + 1 < |args| && args[i + 1] != "" {
        i := i + 1;
        options := options.(startDate := args[i]);
      } else if arg == "--end-date" && i + 1 < |args| && args[i + 1] != "" {
        i := i + 1;
        options := options.(endDate := args[i]);
      } else if arg == "--clear" {
        options := options.(clear := true);
      }
      i := i + 1;
    }
  }

  /** The arguments that set `options` from the defaults. */
  function Render(options: Options): seq<string>
  {
    ["--mode", options.mode, "--period-type", options.periodType] +
    (if options.startDate != "" then ["--start-date", options.startDate] else []) +
    (if options.endDate != "" then ["--end-date", options.endDate] else []) +
    (if options.clear then ["--clear"] else [])
  }

  /** Parsing only looks at what follows its position. */
  lemma {:induction false} ParseShift(prefix: seq<string>, rest: seq<string>, j: nat, options: Options)
    ensures ParseFrom(prefix + rest, |prefix| + j, options) == ParseFrom(rest, j, options)
    decreases |rest| - j
  {
    var args := prefix + rest;
    if j < |rest| {
      var arg := rest[j];
      assert args[|prefix| + j] == arg;
      var hasValue := j + 1 < |rest| && rest[j + 1] != "";
      if j + 1 < |rest| {
        assert args[|prefix| + j + 1] == rest[j + 1];
      }
      if arg == "--mode" && hasValue {
        ParseShift(prefix, rest, j + 2, options.(mode := rest[j + 1]));
      } else if arg == "--period-type" && hasValue {
        ParseShift(prefix, rest, j + 2, options.(periodType := rest[j + 1]));
      } else if arg == "--start-date" && hasValue {
        ParseShift(prefix, rest, j + 2, options.(startDate := rest[j + 1]));
      } else if arg == "--end-date" && hasValue {
        ParseShift(prefix, rest, j + 2, options.(endDate := rest[j + 1]));
      } else if arg == "--clear" {
        ParseShift(prefix, rest, j + 1, options.(clear := true));
      } else {
        ParseShift(prefix, rest, j + 1, options);
      }
    }
  }

  /** Options with a non-empty mode and period type are read back from
      their rendering. */
  lemma ParseRender(options: Options)
    requires options.mode != "" && options.periodType != ""
    ensures ParseFrom(Render(options), 0, DefaultOptions) == options
  {
    var head := ["--mode", options.mode, "--period-type", options.periodType];
    var dates := (if options.startDate != "" then ["--start-date", options.startDate] else []);
    var ends := (if options.endDate != "" then ["--end-date", options.endDate] else []);
    var tail := (if options.clear then ["--clear"] else []);
    var args := Render(options);
    assert args == head + (dates + (ends + tail));
    var o1 := DefaultOptions.(mode := options.mode, periodType := options.periodType);
    ParseShift(head, dates + (ends + tail), 0, o1);
    var o2 := o1.(startDate := options.startDate);
    ParseShift(dates, ends + tail, 0, o2);
    var o3 := o2.(endDate := options.endDate);
    ParseShift(ends, tail, 0, o3);
  }

  /** An argument that is not a flag is skipped. */
  lemma UnknownSkipped(arg: string, args: seq<string>, options: Options)
    requires arg !in {"--mode", "--period-type", "--start-date", "--end-date", "--clear"}
    ensures ParseFrom([arg] + args, 0, options) == ParseFrom(args, 0, options)
  {
    ParseShift([arg], args, 0, options);
  }
}
