/**
 * The SQLite database as the model sees it: the activities, laps and
 * per-second records tables, and the two statistics cache tables keyed by
 * their primary keys. Query results are functions of these fields; the SQL
 * engine itself is not modelled.
 */
module Store {
  import opened Js

  /** The UTC calendar fields of an activity's `start_time`: year, month
      1..12, whole days since 1 January (0-based) and the weekday of
      1 January (0 = Sunday). */
  datatype UtcDate = UtcDate(year: int, month: int, dayOfYear: int, jan1Weekday: int)

  predicate ValidDate(d: UtcDate)
  {
    1 <= d.month <= 12 && 0 <= d.dayOfYear <= 365 && 0 <= d.jan1Weekday <= 6
  }

  /** A row of `activities`; `source` is `None` for SQL NULL. */
  datatype Activity = Activity(
    activityId: string,
    source: Option<string>,
    startTime: string,
    date: UtcDate,
    distance: Option<real>,
    duration: Option<real>,
    vdotValue: Option<real>)

  /** A row of `activity_laps`. */
  datatype Lap = Lap(
    activityId: string,
    lapIndex: int,
    duration: Option<real>,
    distance: Option<real>,
    averagePace: Option<real>,
    averageCadence: Option<real>,
    averageStrideLength: Option<real>,
    averageHeartRate: Option<real>)

  /** A row of `activity_records`. */
  datatype Record = Record(activityId: string, heartRate: Option<real>)

  /** Primary key and derived columns of `hr_zone_stats_cache`. */
  datatype ZoneKey = ZoneKey(period: string, periodType: string, hrZone: int)
  datatype ZoneRow = ZoneRow(
    activityCount: int,
    totalDuration: real,
    totalDistance: real,
    avgPace: Option<real>,
    avgCadence: Option<real>,
    avgStrideLength: Option<real>,
    avgHeartRate: Option<real>)

  /** Primary key and derived columns of `vdot_trend_cache`. */
  datatype TrendKey = TrendKey(period: string, periodType: string)
  datatype TrendRow = TrendRow(
    avgVdot: JsNumber,
    maxVdot: Option<real>,
    minVdot: Option<real>,
    activityCount: int,
    totalDistance: real,
    totalDuration: real)

  class Database {
    var activities: seq<Activity>
    var laps: seq<Lap>
    var records: seq<Record>
    var hrZoneCache: map<ZoneKey, ZoneRow>
    var vdotTrendCache: map<TrendKey, TrendRow>

    constructor(activities: seq<Activity>, laps: seq<Lap>, records: seq<Record>)
      ensures this.activities == activities && this.laps == laps && this.records == records
      ensures hrZoneCache == map[] && vdotTrendCache == map[]
    {
      this.activities := activities;
      this.laps := laps;
      this.records := records;
      hrZoneCache := map[];
      vdotTrendCache := map[];
    }

    /** `DELETE FROM hr_zone_stats_cache; DELETE FROM vdot_trend_cache`. */
    method ClearCaches()
      modifies this
      ensures hrZoneCache == map[] && vdotTrendCache == map[]
      ensures activities == old(activities) && laps == old(laps) && records == old(records)
    {
      hrZoneCache := map[];
      vdotTrendCache := map[];
    }
  }
}
