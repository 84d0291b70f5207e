/**
 * The data validation script: read-only consistency checks over the
 * activities and laps tables that collect issues and warnings, then a
 * verdict. Each query's result is a function of the two tables; the log
 * lines and the message texts are not modelled, a note records which check
 * fired and the count it reports.
 */
module ValidateData {
  import opened Js
  import Grouping

  // ---------------------------------------------------------------------
  // Rows

  /** A row of `activities`. Distance is in metres, speed in km/h, pace in
      seconds per kilometre. The columns the completeness and range checks
      read by name are in `columns`; a column missing there is NULL. */
  datatype ActivityRow = ActivityRow(
    activityId: string,
    distance: Option<real>,
    duration: Option<real>,
    elapsedTime: Option<real>,
    movingTime: Option<real>,
    averageSpeed: Option<real>,
    averagePace: Option<real>,
    maxSpeed: Option<real>,
    columns: map<string, real>)

  /** A row of `activity_laps`. */
  datatype LapRow = LapRow(
    activityId: string,
    lapIndex: int,
    distance: Option<real>,
    duration: Option<real>,
    averageSpeed: Option<real>,
    averagePace: Option<real>,
    cumulativeTime: Option<real>)

  /** The category a note is filed under. */
  datatype Category = Units | Calculation | Consistency | Completeness | Plausibility

  /** What a check found, with the count its message reports. */
  datatype Finding =
    | DistanceUnit(rows: nat)
    | MaxSpeedHigh
    | Speed(rows: nat)
    | Pace(rows: nat)
    | ElapsedBeforeMoving(rows: nat)
    | LapSpeedUnit
    | LapSpeed(laps: nat)
    | LapPace(laps: nat)
    | CumulativeTime(laps: nat)
    | LapDistanceSum(activities: nat)
    | AllNull(field: string)
    | OutOfRange(field: string, rows: nat)
    | OrphanedLaps(laps: nat)
    | LapCountOdd(activities: nat)

  datatype Note = Note(category: Category, finding: Finding)

  /** A plausible range for a column. */
  datatype Range = Range(field: string, min: real, max: real)

  /** The columns whose NULL share is reported. */
  const NullFields: seq<string> := [
    "average_cadence", "max_cadence", "average_stride_length",
    "average_vertical_oscillation", "average_vertical_ratio",
    "average_ground_contact_time", "average_gct_balance",
    "average_power", "max_power", "total_ascent", "total_descent",
    "vdot_value", "training_load"]

  /** The plausible ranges, in the order they are checked. */
  const Ranges: seq<Range> := [
    Range("average_cadence", 150.0, 220.0),
    Range("average_vertical_oscillation", 5.0, 15.0),
    Range("average_ground_contact_time", 150.0, 350.0),
    Range("average_gct_balance", 45.0, 55.0),
    Range("average_vertical_ratio", 5.0, 15.0),
    Range("average_heart_rate", 100.0, 200.0),
    Range("max_heart_rate", 120.0, 220.0)]

  // ---------------------------------------------------------------------
  // Counting

  /** How many elements of `s` satisfy `p`. */
  function Count<T>(s: seq<T>, p: T -> bool): (n: nat)
    ensures n <= |s|
  {
    if s == [] then 0 else Count(s[..|s| - 1], p) + (if p(s[|s| - 1]) then 1 else 0)
  }

  lemma CountStep<T>(s: seq<T>, i: nat, p: T -> bool)
    requires i < |s|
    ensures Count(s[..i + 1], p) == Count(s[..i], p) + (if p(s[i]) then 1 else 0)
  {
    assert s[..i + 1][..i] == s[..i];
  }

  /** A count is positive exactly when some element qualifies. */
  lemma {:induction false} CountPositive<T>(s: seq<T>, p: T -> bool)
    ensures Count(s, p) > 0 <==> exists i :: 0 <= i < |s| && p(s[i])
  {
    if s != [] {
      var init := s[..|s| - 1];
      CountPositive(init, p);
      if exists i :: 0 <= i < |init| && p(init[i]) {
        var i :| 0 <= i < |init| && p(init[i]);
        assert p(s[i]);
      }
    }
  }

  /** A count reaches the length exactly when every element qualifies. */
  lemma {:induction false} CountAll<T>(s: seq<T>, p: T -> bool)
    ensures Count(s, p) == |s| <==> forall i :: 0 <= i < |s| ==> p(s[i])
  {
    if s != [] {
      var init := s[..|s| - 1];
      CountAll(init, p);
      assert forall i :: 0 <= i < |init| ==> init[i] == s[i];
    }
  }

  /** `LIMIT n` on a query without `ORDER BY`: the first `n` rows. */
  function Take<T>(s: seq<T>, n: nat): (r: seq<T>)
    ensures |r| <= n && r <= s
    ensures |s| <= n ==> r == s
  {
    if |s| <= n then s else s[..n]
  }

  // ---------------------------------------------------------------------
  // Per-row predicates

  predicate Positive(x: Option<real>)
  {
    x.Some? && x.value > 0.0
  }

  /** `WHERE distance > 0 AND duration > 0`. */
  predicate Selected(a: ActivityRow)
  {
    Positive(a.distance) && Positive(a.duration)
  }

  /** The stored speed is more than 0.01 km/h away from
      distance / duration · 3.6; a NULL speed reads as 0. */
  predicate SpeedMismatch(a: ActivityRow)
  {
    Selected(a) && Abs(a.distance.value / a.duration.value * 3.6 - OrZero(a.averageSpeed)) > 0.01
  }

  /** The stored pace is more than 0.01 s/km away from
      duration · 1000 / distance; a NULL pace reads as 0. */
  predicate PaceMismatch(a: ActivityRow)
  {
    Selected(a) && Abs(a.duration.value * 1000.0 / a.distance.value - OrZero(a.averagePace)) > 0.01
  }

  /** `elapsed_time < moving_time`, where a NULL compares as 0. */
  predicate ElapsedShort(a: ActivityRow)
  {
    OrZero(a.elapsedTime) < OrZero(a.movingTime)
  }

  predicate FastRow(a: ActivityRow)
  {
    a.maxSpeed.Some? && a.maxSpeed.value > 20.0
  }

  predicate LapSelected(l: LapRow)
  {
    Positive(l.duration) && Positive(l.distance)
  }

  /** A lap's speed is checked only when its duration and distance are
      positive and the speed is not NULL. */
  predicate LapSpeedMismatch(l: LapRow)
  {
    LapSelected(l) && l.averageSpeed.Some? &&
    Abs(l.distance.value / l.duration.value * 3.6 - l.averageSpeed.value) > 0.01
  }

  predicate LapPaceMismatch(l: LapRow)
  {
    LapSelected(l) && l.averagePace.Some? &&
    Abs(l.duration.value * 1000.0 / l.distance.value - l.averagePace.value) > 0.01
  }

  /** The row of `activities` with this id, as `.get(activity_id)` returns it. */
  function FindActivity(acts: seq<ActivityRow>, id: string): (r: Option<ActivityRow>)
    ensures r.Some? ==> r.value in acts && r.value.activityId == id
  {
    if acts == [] then None
    else if acts[0].activityId == id then Some(acts[0])
    else FindActivity(acts[1..], id)
  }

  /** No row is found exactly when no row has the id. */
  lemma {:induction false} FindActivityNone(acts: seq<ActivityRow>, id: string)
    ensures FindActivity(acts, id).None? <==> forall i :: 0 <= i < |acts| ==> acts[i].activityId != id
  {
    if acts != [] {
      FindActivityNone(acts[1..], id);
      assert forall i :: 1 <= i < |acts| ==> acts[i] == acts[1..][i - 1];
    }
  }

  // ---------------------------------------------------------------------
  // Sums and the laps of one activity

  /** `laps.reduce((sum, lap) => sum + lap.duration, 0)`, a NULL adding 0. */
  function DurationSum(laps: seq<LapRow>): real
  {
    if laps == [] then 0.0 else DurationSum(laps[..|laps| - 1]) + OrZero(laps[|laps| - 1].duration)
  }

  function DistanceSum(laps: seq<LapRow>): real
  {
    if laps == [] then 0.0 else DistanceSum(laps[..|laps| - 1]) + OrZero(laps[|laps| - 1].distance)
  }

  function SpeedSum(laps: seq<LapRow>): real
  {
    if laps == [] then 0.0 else SpeedSum(laps[..|laps| - 1]) + OrZero(laps[|laps| - 1].averageSpeed)
  }

  /** The laps whose cumulative time is more than 1 s away from the
      running sum of the durations up to and including them. */
  function CumulativeErrors(laps: seq<LapRow>): (n: nat)
    ensures n <= |laps|
  {
    if laps == [] then 0
    else
      CumulativeErrors(laps[..|laps| - 1]) +
        (if Abs(DurationSum(laps) - OrZero(laps[|laps| - 1].cumulativeTime)) > 1.0 then 1 else 0)
  }

  /** The activity ids of `activity_laps` in first-seen order (`SELECT DISTINCT`). */
  function DistinctIds(laps: seq<LapRow>): (r: seq<string>)
    ensures |r| <= |laps|
  {
    if laps == [] then []
    else
      var d := DistinctIds(laps[..|laps| - 1]);
      var id := laps[|laps| - 1].activityId;
      if id in d then d else d + [id]
  }

  /** Each id of the laps table occurs once. */
  lemma {:induction false} DistinctIdsSpec(laps: seq<LapRow>)
    ensures forall i, j :: 0 <= i < j < |DistinctIds(laps)| ==> DistinctIds(laps)[i] != DistinctIds(laps)[j]
    ensures forall id :: id in DistinctIds(laps) <==> exists k :: 0 <= k < |laps| && laps[k].activityId == id
  {
    if laps != [] {
      var init := laps[..|laps| - 1];
      var last := |laps| - 1;
      DistinctIdsSpec(init);
    }
  }

  /** The laps of one activity, in table order. */
  function RowsOf(laps: seq<LapRow>, id: string): seq<LapRow>
  {
    if laps == [] then []
    else
      var init := RowsOf(laps[..|laps| - 1], id);
      if laps[|laps| - 1].activityId == id then init + [laps[|laps| - 1]] else init
  }

  /** Puts a lap after every lap of the sorted `s` whose index is not above its own. */
  function InsertLap(x: LapRow, s: seq<LapRow>): seq<LapRow>
  {
    if s == [] || s[|s| - 1].lapIndex <= x.lapIndex then s + [x]
    else InsertLap(x, s[..|s| - 1]) + [s[|s| - 1]]
  }

  /** `ORDER BY lap_index`, as an insertion sort. */
  function SortLaps(s: seq<LapRow>): seq<LapRow>
  {
    if s == [] then [] else InsertLap(s[|s| - 1], SortLaps(s[..|s| - 1]))
  }

  /** `WHERE activity_id = ? ORDER BY lap_index`. */
  function LapsOf(laps: seq<LapRow>, id: string): seq<LapRow>
  {
    SortLaps(RowsOf(laps, id))
  }

  predicate SortedByIndex(s: seq<LapRow>)
  {
    forall i, j :: 0 <= i < j < |s| ==> s[i].lapIndex <= s[j].lapIndex
  }

  lemma {:induction false} RowsOfSpec(laps: seq<LapRow>, id: string)
    ensures forall l :: l in RowsOf(laps, id) <==> l in laps && l.activityId == id
  {
    if laps != [] {
      RowsOfSpec(laps[..|laps| - 1], id);
      assert laps == laps[..|laps| - 1] + [laps[|laps| - 1]];
    }
  }

  lemma {:induction false} InsertLapMultiset(x: LapRow, s: seq<LapRow>)
    ensures multiset(InsertLap(x, s)) == multiset(s) + multiset{x}
  {
    if s != [] && s[|s| - 1].lapIndex > x.lapIndex {
      InsertLapMultiset(x, s[..|s| - 1]);
      assert s == s[..|s| - 1] + [s[|s| - 1]];
    }
  }

  lemma {:induction false} InsertLapSpec(x: LapRow, s: seq<LapRow>)
    requires SortedByIndex(s)
    ensures multiset(InsertLap(x, s)) == multiset(s) + multiset{x}
    ensures SortedByIndex(InsertLap(x, s))
  {
    InsertLapMultiset(x, s);
    if s != [] && s[|s| - 1].lapIndex > x.lapIndex {
      var init := s[..|s| - 1];
      var top := s[|s| - 1];
      InsertLapSpec(x, init);
      var r := InsertLap(x, init);
      forall i | 0 <= i < |r|
        ensures r[i].lapIndex <= top.lapIndex
      {
        assert r[i] in multiset(r);
        if r[i] != x {
          assert r[i] in multiset(init);
        }
      }
      SortedAppend(r, top);
    } else {
      SortedAppend(s, x);
    }
  }

  /** A lap whose index is not below any of a sorted sequence's keeps it
      sorted when appended. */
  lemma SortedAppend(s: seq<LapRow>, x: LapRow)
    requires SortedByIndex(s)
    requires s != [] ==> s[|s| - 1].lapIndex <= x.lapIndex
    ensures SortedByIndex(s + [x])
  {
  }

  lemma {:induction false} SortLapsSpec(s: seq<LapRow>)
    ensures multiset(SortLaps(s)) == multiset(s)
    ensures SortedByIndex(SortLaps(s))
  {
    if s != [] {
      var init, last := s[..|s| - 1], s[|s| - 1];
      SortLapsSpec(init);
      InsertLapSpec(last, SortLaps(init));
      assert s == init + [last];
      assert multiset(s) == multiset(init) + multiset{last};
    }
  }

  /** An activity's laps are the rows with its id, in lap order. */
  lemma LapsOfSpec(laps: seq<LapRow>, id: string)
    ensures var r := LapsOf(laps, id);
      SortedByIndex(r) && forall l :: l in r <==> l in laps && l.activityId == id
  {
    RowsOfSpec(laps, id);
    SortLapsSpec(RowsOf(laps, id));
    forall l
      ensures l in LapsOf(laps, id) <==> l in RowsOf(laps, id)
    {
      assert l in LapsOf(laps, id) <==> l in multiset(LapsOf(laps, id));
      assert l in RowsOf(laps, id) <==> l in multiset(RowsOf(laps, id));
    }
  }

  // ---------------------------------------------------------------------
  // What each check records

  /** The rows `WHERE distance > 0 AND duration > 0`. */
  function SelectedRows(acts: seq<ActivityRow>): (r: seq<ActivityRow>)
    ensures forall a :: a in r <==> a in acts && Selected(a)
  {
    Grouping.Filter(acts, Selected)
  }

  /** Phase 1, activity units: the speed check over the first 100 selected
      rows is an issue; a `max_speed` above 20 m/s is a warning. */
  function UnitIssues(acts: seq<ActivityRow>): seq<Note>
  {
    var n := Count(Take(SelectedRows(acts), 100), SpeedMismatch);
    if n == 0 then [] else [Note(Units, DistanceUnit(n))]
  }

  function UnitWarnings(acts: seq<ActivityRow>): seq<Note>
  {
    if Count(acts, FastRow) > 0 then [Note(Units, MaxSpeedHigh)] else []
  }

  /** Phase 1, activity calculations: wrong speeds and wrong paces are
      issues; an elapsed time below the moving time is only a warning. */
  function CalcIssues(acts: seq<ActivityRow>): seq<Note>
  {
    var rows := SelectedRows(acts);
    var speed := Count(rows, SpeedMismatch);
    var pace := Count(rows, PaceMismatch);
    (if speed == 0 then [] else [Note(Calculation, Speed(speed))]) +
    (if pace == 0 then [] else [Note(Calculation, Pace(pace))])
  }

  function CalcWarnings(acts: seq<ActivityRow>): seq<Note>
  {
    var time := Count(SelectedRows(acts), ElapsedShort);
    if time == 0 then [] else [Note(Consistency, ElapsedBeforeMoving(time))]
  }

  /** Phase 1, lap units: the mean speed of the first 100 laps with a
      positive distance and duration is an issue below 1 km/h. */
  function LapUnitIssues(laps: seq<LapRow>): seq<Note>
  {
    var sample := Take(Grouping.Filter(laps, LapSelected), 100);
    if sample == [] then []
    else if SpeedSum(sample) / |sample| as real < 1.0 then [Note(Units, LapSpeedUnit)]
    else []
  }

  /** The error counts of the lap calculation check. */
  datatype LapTally = LapTally(speed: nat, pace: nat, cumulative: nat, distanceSum: nat)

  function Plus(a: LapTally, b: LapTally): LapTally
  {
    LapTally(a.speed + b.speed, a.pace + b.pace, a.cumulative + b.cumulative, a.distanceSum + b.distanceSum)
  }

  /** The lap distances are more than 1 m away from the activity's distance;
      an activity row that is not there is not compared. */
  predicate DistanceSumMismatch(laps: seq<LapRow>, activity: Option<ActivityRow>)
  {
    activity.Some? && Abs(DistanceSum(laps) - OrZero(activity.value.distance)) > 1.0
  }

  /** What one activity's laps contribute to the counts. */
  function GroupTally(acts: seq<ActivityRow>, laps: seq<LapRow>, id: string): LapTally
  {
    var group := LapsOf(laps, id);
    LapTally(Count(group, LapSpeedMismatch), Count(group, LapPaceMismatch), CumulativeErrors(group),
             if DistanceSumMismatch(group, FindActivity(acts, id)) then 1 else 0)
  }

  function TallyOf(acts: seq<ActivityRow>, laps: seq<LapRow>, ids: seq<string>): LapTally
  {
    if ids == [] then LapTally(0, 0, 0, 0)
    else Plus(TallyOf(acts, laps, ids[..|ids| - 1]), GroupTally(acts, laps, ids[|ids| - 1]))
  }

  /** The activities the lap calculation check samples: the first 20 ids. */
  function SampledIds(laps: seq<LapRow>): seq<string>
  {
    Take(DistinctIds(laps), 20)
  }

  /** The issues a lap tally reports: one per non-zero error count. */
  function TallyIssues(t: LapTally): seq<Note>
  {
    (if t.speed == 0 then [] else [Note(Calculation, LapSpeed(t.speed))]) +
    (if t.pace == 0 then [] else [Note(Calculation, LapPace(t.pace))]) +
    (if t.cumulative == 0 then [] else [Note(Calculation, CumulativeTime(t.cumulative))])
  }

  /** The warning a lap tally reports when some distance sum is off. */
  function TallyWarnings(t: LapTally): seq<Note>
  {
    if t.distanceSum == 0 then [] else [Note(Consistency, LapDistanceSum(t.distanceSum))]
  }

  function LapCalcIssues(acts: seq<ActivityRow>, laps: seq<LapRow>): seq<Note>
  {
    TallyIssues(TallyOf(acts, laps, SampledIds(laps)))
  }

  function LapCalcWarnings(acts: seq<ActivityRow>, laps: seq<LapRow>): seq<Note>
  {
    TallyWarnings(TallyOf(acts, laps, SampledIds(laps)))
  }

  /** The rows where `field` is NULL. */
  function NullCount(acts: seq<ActivityRow>, field: string): nat
  {
    Count(acts, (a: ActivityRow) => field !in a.columns)
  }

  /** Phase 2, completeness: a warning for each column that is NULL in
      every row. */
  function NullWarnings(acts: seq<ActivityRow>, fields: seq<string>): seq<Note>
  {
    if fields == [] then []
    else
      var f := fields[|fields| - 1];
      NullWarnings(acts, fields[..|fields| - 1]) +
        (if NullCount(acts, f) == |acts| then [Note(Completeness, AllNull(f))] else [])
  }

  predicate Outside(a: ActivityRow, r: Range)
  {
    r.field in a.columns && (a.columns[r.field] < r.min || a.columns[r.field] > r.max)
  }

  /** Phase 2, plausibility: a warning for each column with values, some
      of them outside its range. */
  function RangeWarnings(acts: seq<ActivityRow>, ranges: seq<Range>): seq<Note>
  {
    if ranges == [] then []
    else
      var r := ranges[|ranges| - 1];
      var present := Count(acts, (a: ActivityRow) => r.field in a.columns);
      var outside := Count(acts, (a: ActivityRow) => Outside(a, r));
      RangeWarnings(acts, ranges[..|ranges| - 1]) +
        (if present == 0 || outside == 0 then [] else [Note(Plausibility, OutOfRange(r.field, outside))])
  }

  /** Laps whose activity is not in `activities`. */
  function OrphanCount(acts: seq<ActivityRow>, laps: seq<LapRow>): nat
  {
    Count(laps, (l: LapRow) => FindActivity(acts, l.activityId).None?)
  }

  /** Activities with more than 100 laps (`HAVING lap_count > 100 OR
      lap_count < 1`; a group is never empty). */
  function CrowdedCount(laps: seq<LapRow>): nat
  {
    Count(DistinctIds(laps), (id: string) => |Grouping.Filter(laps, (l: LapRow) => l.activityId == id)| > 100)
  }

  function RelationIssues(acts: seq<ActivityRow>, laps: seq<LapRow>): seq<Note>
  {
    var n := OrphanCount(acts, laps);
    if n == 0 then [] else [Note(Completeness, OrphanedLaps(n))]
  }

  function RelationWarnings(laps: seq<LapRow>): seq<Note>
  {
    var n := CrowdedCount(laps);
    if n == 0 then [] else [Note(Plausibility, LapCountOdd(n))]
  }

  /** All issues of a run, in the order the checks run. */
  function Issues(acts: seq<ActivityRow>, laps: seq<LapRow>): seq<Note>
  {
    UnitIssues(acts) + CalcIssues(acts) + LapUnitIssues(laps) + LapCalcIssues(acts, laps) + RelationIssues(acts, laps)
  }

  /** All warnings of a run, in the order the checks run. */
  function Warnings(acts: seq<ActivityRow>, laps: seq<LapRow>): seq<Note>
  {
    UnitWarnings(acts) + CalcWarnings(acts) + LapCalcWarnings(acts, laps) +
    NullWarnings(acts, NullFields) + RangeWarnings(acts, Ranges) + RelationWarnings(laps)
  }

  // ---------------------------------------------------------------------
  // The validator

  class DataValidator {
    /** The tables, opened read-only. */
    const activities: seq<ActivityRow>
    const laps: seq<LapRow>
    var issues: seq<Note>
    var warnings: seq<Note>

    constructor(activities: seq<ActivityRow>, laps: seq<LapRow>)
      ensures this.activities == activities && this.laps == laps
      ensures issues == [] && warnings == []
    {
      this.activities := activities;
      this.laps := laps;
      issues := [];
      warnings := [];
    }

    method AddIssue(category: Category, finding: Finding)
      modifies this
      ensures issues == old(issues) + [Note(category, finding)] && warnings == old(warnings)
    {
      issues := issues + [Note(category, finding)];
    }

    method AddWarning(category: Category, finding: Finding)
      modifies this
      ensures warnings == old(warnings) + [Note(category, finding)] && issues == old(issues)
    {
      warnings := warnings + [Note(category, finding)];
    }

    method ValidateActivityUnits()
      modifies this
      ensures issues == old(issues) + UnitIssues(activities)
      ensures warnings == old(warnings) + UnitWarnings(activities)
    {
      var rows := Take(SelectedRows(activities), 100);
      var distanceUnitIssues := 0;
      var i := 0;
      while i < |rows|
        invariant i <= |rows| && distanceUnitIssues == Count(rows[..i], SpeedMismatch)
        invariant issues == old(issues) && warnings == old(warnings)
      {
        var act := rows[i];
        assert act in SelectedRows(activities);
        var expectedSpeed := act.distance.value / act.duration.value * 3.6;
        if Abs(expectedSpeed - OrZero(act.averageSpeed)) > 0.01 {
          distanceUnitIssues := distanceUnitIssues + 1;
        }
        CountStep(rows, i, SpeedMismatch);
        i := i + 1;
      }
      assert rows[..i] == rows;
      assert UnitIssues(activities) == if distanceUnitIssues == 0 then [] else [Note(Units, DistanceUnit(distanceUnitIssues))];
      if distanceUnitIssues != 0 {
        AddIssue(Units, DistanceUnit(distanceUnitIssues));
      }
      if Count(activities, FastRow) > 0 {
        AddWarning(Units, MaxSpeedHigh);
      }
    }

    /** The loop of the calculation check over the selected rows, counting
        speed, pace and elapsed-time errors in one pass. */
    method CountCalcErrors(rows: seq<ActivityRow>) returns (speedErrors: nat, paceErrors: nat, timeErrors: nat)
      requires forall a :: a in rows ==> Selected(a)
      ensures speedErrors == Count(rows, SpeedMismatch)
      ensures paceErrors == Count(rows, PaceMismatch)
      ensures timeErrors == Count(rows, ElapsedShort)
    {
      speedErrors, paceErrors, timeErrors := 0, 0, 0;
      var i := 0;
      while i < |rows|
        invariant i <= |rows|
        invariant speedErrors == Count(rows[..i], SpeedMismatch)
        invariant paceErrors == Count(rows[..i], PaceMismatch)
        invariant timeErrors == Count(rows[..i], ElapsedShort)
      {
        var act := rows[i];
        assert act in rows;
        var expectedSpeed := act.distance.value / act.duration.value * 3.6;
        if Abs(expectedSpeed - OrZero(act.averageSpeed)) > 0.01 {
          speedErrors := speedErrors + 1;
        }
        var expectedPace := act.duration.value * 1000.0 / act.distance.value;
        if Abs(expectedPace - OrZero(act.averagePace)) > 0.01 {
          paceErrors := paceErrors + 1;
        }
        if OrZero(act.elapsedTime) < OrZero(act.movingTime) {
          timeErrors := timeErrors + 1;
        }
        CountStep(rows, i, SpeedMismatch);
        CountStep(rows, i, PaceMismatch);
        CountStep(rows, i, ElapsedShort);
        i := i + 1;
      }
      assert rows[..i] == rows;
    }

    method ValidateActivityCalculations()
      modifies this
      ensures issues == old(issues) + CalcIssues(activities)
      ensures warnings == old(warnings) + CalcWarnings(activities)
    {
      var speedErrors, paceErrors, timeErrors := CountCalcErrors(SelectedRows(activities));
      ghost var speedNotes := if speedErrors == 0 then [] else [Note(Calculation, Speed(speedErrors))];
      ghost var paceNotes := if paceErrors == 0 then [] else [Note(Calculation, Pace(paceErrors))];
      assert CalcIssues(activities) == speedNotes + paceNotes;
      if speedErrors != 0 {
        AddIssue(Calculation, Speed(speedErrors));
      }
      assert issues == old(issues) + speedNotes;
      if paceErrors != 0 {
        AddIssue(Calculation, Pace(paceErrors));
      }
      assert issues == old(issues) + speedNotes + paceNotes;
      if timeErrors != 0 {
        AddWarning(Consistency, ElapsedBeforeMoving(timeErrors));
      }
    }

    method ValidateLapUnits()
      modifies this
      ensures issues == old(issues) + LapUnitIssues(laps)
      ensures warnings == old(warnings)
    {
      var sample := Take(Grouping.Filter(laps, LapSelected), 100);
      if |sample| == 0 {
        return;
      }
      var avgSpeed := SpeedSum(sample) / |sample| as real;
      if avgSpeed < 1.0 {
        AddIssue(Units, LapSpeedUnit);
      }
    }

    /** The counts of one activity's laps, in lap order, carrying the
      expected cumulative time from lap to lap. */
    method CheckLaps(group: seq<LapRow>) returns (speed: nat, pace: nat, cumulative: nat)
      ensures speed == Count(group, LapSpeedMismatch)
      ensures pace == Count(group, LapPaceMismatch)
      ensures cumulative == CumulativeErrors(group)
    {
      speed, pace, cumulative := 0, 0, 0;
      var expectedCumulativeTime := 0.0;
      var j := 0;
      while j < |group|
        invariant j <= |group|
        invariant expectedCumulativeTime == DurationSum(group[..j])
        invariant speed == Count(group[..j], LapSpeedMismatch)
        invariant pace == Count(group[..j], LapPaceMismatch)
        invariant cumulative == CumulativeErrors(group[..j])
      {
        var lap := group[j];
        if Positive(lap.duration) && Positive(lap.distance) {
          var expectedSpeed := lap.distance.value / lap.duration.value * 3.6;
          if lap.averageSpeed.Some? && Abs(expectedSpeed - lap.averageSpeed.value) > 0.01 {
            speed := speed + 1;
          }
          var expectedPace := lap.duration.value * 1000.0 / lap.distance.value;
          if lap.averagePace.Some? && Abs(expectedPace - lap.averagePace.value) > 0.01 {
            pace := pace + 1;
          }
        }
        expectedCumulativeTime := expectedCumulativeTime + OrZero(lap.duration);
        if Abs(expectedCumulativeTime - OrZero(lap.cumulativeTime)) > 1.0 {
          cumulative := cumulative + 1;
        }
        CountStep(group, j, LapSpeedMismatch);
        CountStep(group, j, LapPaceMismatch);
        assert group[..j + 1][..j] == group[..j];
        j := j + 1;
      }
      assert group[..j] == group;
    }

    /** One sampled activity: its laps in lap order, checked one by one,
      then their distance sum against the activity's distance. */
    method CheckActivity(id: string) returns (counts: LapTally)
      ensures counts == GroupTally(activities, laps, id)
    {
      var group := LapsOf(laps, id);
      var activity := FindActivity(activities, id);
      var speed, pace, cumulative := CheckLaps(group);
      var lapDistanceSum := DistanceSum(group);
      var mismatch := if activity.Some? && Abs(lapDistanceSum - OrZero(activity.value.distance)) > 1.0 then 1 else 0;
      counts := LapTally(speed, pace, cumulative, mismatch);
    }

    /** The sampled activities checked in turn, their counts added up. */
    method CheckSample(ids: seq<string>) returns (tally: LapTally)
      ensures tally == TallyOf(activities, laps, ids)
    {
      tally := LapTally(0, 0, 0, 0);
      var k := 0;
      while k < |ids|
        invariant k <= |ids| && tally == TallyOf(activities, laps, ids[..k])
      {
        var counts := CheckActivity(ids[k]);
        tally := Plus(tally, counts);
        assert ids[..k + 1][..k] == ids[..k];
        k := k + 1;
      }
      assert ids[..k] == ids;
    }

    method ValidateLapCalculations()
      modifies this
      ensures issues == old(issues) + LapCalcIssues(activities, laps)
      ensures warnings == old(warnings) + LapCalcWarnings(activities, laps)
    {
      var ids := SampledIds(laps);
      if |ids| == 0 {
        return;
      }
      var tally := CheckSample(ids);
      ReportTally(tally);
    }

    /** Adds the issues and the warning of a lap tally. */
    method ReportTally(tally: LapTally)
      modifies this
      ensures issues == old(issues) + TallyIssues(tally)
      ensures warnings == old(warnings) + TallyWarnings(tally)
    {
      ghost var speedNotes := if tally.speed == 0 then [] else [Note(Calculation, LapSpeed(tally.speed))];
      ghost var paceNotes := if tally.pace == 0 then [] else [Note(Calculation, LapPace(tally.pace))];
      if tally.speed != 0 {
        AddIssue(Calculation, LapSpeed(tally.speed));
      }
      assert issues == old(issues) + speedNotes;
      if tally.pace != 0 {
        AddIssue(Calculation, LapPace(tally.pace));
      }
      assert issues == old(issues) + speedNotes + paceNotes;
      if tally.cumulative != 0 {
        AddIssue(Calculation, CumulativeTime(tally.cumulative));
      }
      if tally.distanceSum != 0 {
        AddWarning(Consistency, LapDistanceSum(tally.distanceSum));
      }
    }

    method ValidateNullValues()
      modifies this
      ensures issues == old(issues)
      ensures warnings == old(warnings) + NullWarnings(activities, NullFields)
    {
      var i := 0;
      while i < |NullFields|
        invariant i <= |NullFields| && issues == old(issues)
        invariant warnings == old(warnings) + NullWarnings(activities, NullFields[..i])
      {
        var field := NullFields[i];
        var nullCount := NullCount(activities, field);
        if nullCount == |activities| {
          AddWarning(Completeness, AllNull(field));
        }
        assert NullFields[..i + 1][..i] == NullFields[..i];
        i := i + 1;
      }
      assert NullFields[..i] == NullFields;
    }

    method ValidateDataRanges()
      modifies this
      ensures issues == old(issues)
      ensures warnings == old(warnings) + RangeWarnings(activities, Ranges)
    {
      var i := 0;
      while i < |Ranges|
        invariant i <= |Ranges| && issues == old(issues)
        invariant warnings == old(warnings) + RangeWarnings(activities, Ranges[..i])
      {
        var range := Ranges[i];
        assert Ranges[..i + 1][..i] == Ranges[..i];
        var count := Count(activities, (a: ActivityRow) => range.field in a.columns);
        if count != 0 {
          var outOfRange := Count(activities, (a: ActivityRow) => Outside(a, range));
          if outOfRange != 0 {
            AddWarning(Plausibility, OutOfRange(range.field, outOfRange));
          }
        }
        i := i + 1;
      }
      assert Ranges[..i] == Ranges;
    }

    method ValidateRelationships()
      modifies this
      ensures issues == old(issues) + RelationIssues(activities, laps)
      ensures warnings == old(warnings) + RelationWarnings(laps)
    {
      var orphanedLaps := OrphanCount(activities, laps);
      if orphanedLaps != 0 {
        AddIssue(Completeness, OrphanedLaps(orphanedLaps));
      }
      var lapStats := CrowdedCount(laps);
      if lapStats != 0 {
        AddWarning(Plausibility, LapCountOdd(lapStats));
      }
    }

    /** Both phases, in order. */
    method Validate()
      modifies this
      ensures issues == old(issues) + Issues(activities, laps)
      ensures warnings == old(warnings) + Warnings(activities, laps)
    {
      ghost var i0, w0 := issues, warnings;
      ValidateActivityUnits();
      ghost var i1, w1 := issues, warnings;
      ValidateActivityCalculations();
      ghost var i2, w2 := issues, warnings;
      ValidateLapUnits();
      ghost var i3, w3 := issues, warnings;
      ValidateLapCalculations();
      ghost var i4, w4 := issues, warnings;
      ValidateNullValues();
      ghost var w5 := warnings;
      ValidateDataRanges();
      ghost var w6 := warnings;
      ValidateRelationships();
      Chain5(i0, i1, i2, i3, i4, issues, UnitIssues(activities), CalcIssues(activities), LapUnitIssues(laps),
             LapCalcIssues(activities, laps), RelationIssues(activities, laps));
      Chain6(w0, w1, w2, w4, w5, w6, warnings, UnitWarnings(activities), CalcWarnings(activities),
             LapCalcWarnings(activities, laps), NullWarnings(activities, NullFields),
             RangeWarnings(activities, Ranges), RelationWarnings(laps));
    }

    /** The summary's verdict: every check passed. */
    function AllPassed(): bool
      reads this
    {
      |issues| == 0 && |warnings| == 0
    }
  }

  // ---------------------------------------------------------------------
  // What the checks promise

  /** The unit check reads the first 100 rows the calculation check reads,
      with the same formula: a unit issue always comes with a speed issue. */
  lemma UnitIssueImpliesSpeedIssue(acts: seq<ActivityRow>)
    requires UnitIssues(acts) != []
    ensures CalcIssues(acts) != [] && CalcIssues(acts)[0].finding.Speed?
  {
    var rows := SelectedRows(acts);
    var sample := Take(rows, 100);
    CountPositive(sample, SpeedMismatch);
    var i :| 0 <= i < |sample| && SpeedMismatch(sample[i]);
    assert sample[i] == rows[i];
    CountPositive(rows, SpeedMismatch);
  }

  /** A check that only fires on selected rows finds a row among the
      selected rows exactly when it finds one in the whole table. */
  lemma SelectedWitness(acts: seq<ActivityRow>, p: ActivityRow -> bool)
    requires forall a :: p(a) ==> Selected(a)
    ensures Count(SelectedRows(acts), p) > 0 <==> exists i :: 0 <= i < |acts| && p(acts[i])
  {
    var rows := SelectedRows(acts);
    CountPositive(rows, p);
    if exists i :: 0 <= i < |acts| && p(acts[i]) {
      var i :| 0 <= i < |acts| && p(acts[i]);
      assert acts[i] in rows;
    }
    if exists j :: 0 <= j < |rows| && p(rows[j]) {
      var j :| 0 <= j < |rows| && p(rows[j]);
      assert rows[j] in acts;
    }
  }

  /** A speed or pace issue is recorded exactly when some row with a
      positive distance and duration disagrees with its stored value. */
  lemma CalcIssuesIff(acts: seq<ActivityRow>)
    ensures CalcIssues(acts) != [] <==>
      exists i :: 0 <= i < |acts| && (SpeedMismatch(acts[i]) || PaceMismatch(acts[i]))
  {
    SelectedWitness(acts, SpeedMismatch);
    SelectedWitness(acts, PaceMismatch);
  }

  /** An elapsed time below the moving time never becomes an issue; it is
      a warning exactly when some selected row has it (NULL reading as 0). */
  lemma ElapsedIsOnlyWarning(acts: seq<ActivityRow>)
    ensures forall n :: n in CalcIssues(acts) ==> !n.finding.ElapsedBeforeMoving?
    ensures CalcWarnings(acts) != [] <==>
      exists i :: 0 <= i < |acts| && Selected(acts[i]) && ElapsedShort(acts[i])
  {
    var rows := SelectedRows(acts);
    CountPositive(rows, ElapsedShort);
    if exists i :: 0 <= i < |acts| && Selected(acts[i]) && ElapsedShort(acts[i]) {
      var i :| 0 <= i < |acts| && Selected(acts[i]) && ElapsedShort(acts[i]);
      assert acts[i] in rows;
      var j :| 0 <= j < |rows| && rows[j] == acts[i];
    }
    if exists j :: 0 <= j < |rows| && ElapsedShort(rows[j]) {
      var j :| 0 <= j < |rows| && ElapsedShort(rows[j]);
      assert rows[j] in acts;
    }
  }

  /** A lap without a positive duration or distance is never counted as a
      speed or pace error, whatever it stores. */
  lemma UncheckedLapsNeverMismatch(group: seq<LapRow>)
    requires forall i :: 0 <= i < |group| ==> !LapSelected(group[i])
    ensures Count(group, LapSpeedMismatch) == 0 && Count(group, LapPaceMismatch) == 0
  {
    CountPositive(group, LapSpeedMismatch);
    CountPositive(group, LapPaceMismatch);
  }

  /** Lap `k`'s cumulative time is within 1 s of the running sum of the
      durations up to and including it. */
  predicate WithinRunningSum(laps: seq<LapRow>, k: int)
    requires 0 <= k < |laps|
  {
    Abs(DurationSum(laps[..k + 1]) - OrZero(laps[k].cumulativeTime)) <= 1.0
  }

  /** No cumulative-time error exactly when every lap's cumulative time is
      within 1 s of the sum of the durations so far. */
  lemma {:induction false} CumulativeErrorsIff(laps: seq<LapRow>)
    ensures CumulativeErrors(laps) == 0 <==> forall k :: 0 <= k < |laps| ==> WithinRunningSum(laps, k)
  {
    if laps != [] {
      var n := |laps| - 1;
      var init := laps[..n];
      CumulativeErrorsIff(init);
      assert laps[..n + 1] == laps;
      assert WithinRunningSum(laps, n) <==> !(Abs(DurationSum(laps) - OrZero(laps[n].cumulativeTime)) > 1.0);
      forall k | 0 <= k < n
        ensures WithinRunningSum(laps, k) == WithinRunningSum(init, k)
      {
        assert laps[..k + 1] == init[..k + 1];
      }
    }
  }

  /** A count of the tally is positive exactly when some sampled activity
      contributes to it. */
  lemma {:induction false} TallyDistancePositive(acts: seq<ActivityRow>, laps: seq<LapRow>, ids: seq<string>)
    ensures TallyOf(acts, laps, ids).distanceSum > 0 <==>
      exists i :: 0 <= i < |ids| && DistanceSumMismatch(LapsOf(laps, ids[i]), FindActivity(acts, ids[i]))
  {
    if ids != [] {
      var init := ids[..|ids| - 1];
      TallyDistancePositive(acts, laps, init);
      assert forall i :: 0 <= i < |init| ==> init[i] == ids[i];
    }
  }

  /** The lap-distance warning is recorded exactly when one of the first
      20 activities with laps has a lap distance sum more than 1 m away
      from its own distance. */
  lemma LapDistanceWarningIff(acts: seq<ActivityRow>, laps: seq<LapRow>)
    ensures LapCalcWarnings(acts, laps) != [] <==>
      exists i :: 0 <= i < |SampledIds(laps)| &&
        DistanceSumMismatch(LapsOf(laps, SampledIds(laps)[i]), FindActivity(acts, SampledIds(laps)[i]))
  {
    TallyDistancePositive(acts, laps, SampledIds(laps));
  }

  /** A lap unit issue means some sampled lap stores a speed below 1 km/h
      (a NULL speed reading as 0). */
  lemma LapUnitIssueWitness(laps: seq<LapRow>)
    requires LapUnitIssues(laps) != []
    ensures exists i :: (0 <= i < |Take(Grouping.Filter(laps, LapSelected), 100)| &&
      OrZero(Take(Grouping.Filter(laps, LapSelected), 100)[i].averageSpeed) < 1.0)
  {
    var sample := Take(Grouping.Filter(laps, LapSelected), 100);
    if forall i :: 0 <= i < |sample| ==> OrZero(sample[i].averageSpeed) >= 1.0 {
      SpeedSumAtLeast(sample);
      MeanAtLeastOne(SpeedSum(sample), |sample| as real);
      assert false;
    }
  }

  lemma MeanAtLeastOne(total: real, count: real)
    requires count > 0.0 && total >= count
    ensures total / count >= 1.0
  {
  }

  lemma {:induction false} SpeedSumAtLeast(s: seq<LapRow>)
    requires forall i :: 0 <= i < |s| ==> OrZero(s[i].averageSpeed) >= 1.0
    ensures SpeedSum(s) >= |s| as real
  {
    if s != [] {
      SpeedSumAtLeast(s[..|s| - 1]);
    }
  }

  /** No completeness warning exactly when every listed column has a value
      in some row. */
  lemma {:induction false} NullWarningsEmpty(acts: seq<ActivityRow>, fields: seq<string>)
    ensures NullWarnings(acts, fields) == [] <==>
      forall j :: 0 <= j < |fields| ==> exists i :: 0 <= i < |acts| && fields[j] in acts[i].columns
  {
    if fields != [] {
      var n := |fields| - 1;
      var f := fields[n];
      NullWarningsEmpty(acts, fields[..n]);
      CountAll(acts, (a: ActivityRow) => f !in a.columns);
      assert forall j :: 0 <= j < n ==> fields[..n][j] == fields[j];
    }
  }

  /** With no activities every listed column is NULL everywhere, so an
      empty database never passes. */
  lemma EmptyDatabaseNeverPasses(laps: seq<LapRow>)
    ensures NullWarnings([], NullFields) != [] && Warnings([], laps) != []
  {
    NullWarningsEmpty([], NullFields);
    assert NullFields[0] == "average_cadence";
  }

  /** A run without warnings saw a value in every listed column. */
  lemma PassRequiresEveryColumn(acts: seq<ActivityRow>, laps: seq<LapRow>)
    requires Warnings(acts, laps) == []
    ensures forall j :: 0 <= j < |NullFields| ==> exists i :: 0 <= i < |acts| && NullFields[j] in acts[i].columns
  {
    NullWarningsEmpty(acts, NullFields);
  }

  /** No plausibility warning exactly when no row has a value outside the
      range of its column; the "has values" guard never suppresses one. */
  lemma {:induction false} RangeWarningsEmpty(acts: seq<ActivityRow>, ranges: seq<Range>)
    ensures RangeWarnings(acts, ranges) == [] <==>
      forall j, i :: 0 <= j < |ranges| && 0 <= i < |acts| ==> !Outside(acts[i], ranges[j])
  {
    if ranges != [] {
      var n := |ranges| - 1;
      var r := ranges[n];
      RangeWarningsEmpty(acts, ranges[..n]);
      CountPositive(acts, (a: ActivityRow) => r.field in a.columns);
      CountPositive(acts, (a: ActivityRow) => Outside(a, r));
      assert forall j :: 0 <= j < n ==> ranges[..n][j] == ranges[j];
    }
  }

  /** Orphaned laps are an issue exactly when some lap's activity is missing. */
  lemma OrphanIssueIff(acts: seq<ActivityRow>, laps: seq<LapRow>)
    ensures RelationIssues(acts, laps) != [] <==>
      exists k :: 0 <= k < |laps| && forall i :: 0 <= i < |acts| ==> acts[i].activityId != laps[k].activityId
  {
    CountPositive(laps, (l: LapRow) => FindActivity(acts, l.activityId).None?);
    forall k | 0 <= k < |laps| {
      FindActivityNone(acts, laps[k].activityId);
    }
  }

  /** Appending five lists one after another appends their concatenation. */
  lemma Chain5<T>(s0: seq<T>, s1: seq<T>, s2: seq<T>, s3: seq<T>, s4: seq<T>, s5: seq<T>,
                  a: seq<T>, b: seq<T>, c: seq<T>, d: seq<T>, e: seq<T>)
    requires s1 == s0 + a && s2 == s1 + b && s3 == s2 + c && s4 == s3 + d && s5 == s4 + e
    ensures s5 == s0 + (a + b + c + d + e)
  {
  }

  lemma Chain6<T>(s0: seq<T>, s1: seq<T>, s2: seq<T>, s3: seq<T>, s4: seq<T>, s5: seq<T>, s6: seq<T>,
                  a: seq<T>, b: seq<T>, c: seq<T>, d: seq<T>, e: seq<T>, f: seq<T>)
    requires s1 == s0 + a && s2 == s1 + b && s3 == s2 + c && s4 == s3 + d && s5 == s4 + e && s6 == s5 + f
    ensures s6 == s0 + (a + b + c + d + e + f)
  {
  }
}
