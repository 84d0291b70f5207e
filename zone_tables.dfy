/**
 * The two zone tables of the analysis page: the heart-rate zone table, which
 * merges per-period rows into one row per zone (sums, and means of the
 * per-period averages), and the pace zone table, which keeps zones 1..5 in
 * zone order and renders each band's pace range.
 */
module ZoneTables {
  import opened Js
  import Sorting
  import Grouping
  import Format
  import VdotPace

  // ---------------------------------------------------------------------
  // Heart-rate zone table

  /** One cached (period, zone) row as the table receives it. */
  datatype HrZoneStat = HrZoneStat(
    hrZone: int,
    activityCount: int,
    totalDuration: real,
    totalDistance: real,
    avgPace: Option<real>,
    avgCadence: Option<real>,
    avgStrideLength: Option<real>)

  /** The running record kept per zone: sums, and the non-null averages seen. */
  datatype ZoneAcc = ZoneAcc(
    activityCount: int,
    totalDuration: real,
    totalDistance: real,
    paces: seq<real>,
    cadences: seq<real>,
    strides: seq<real>)

  /** One displayed row. */
  datatype HrZoneRow = HrZoneRow(
    zone: int,
    activityCount: int,
    totalDuration: real,
    totalDistance: real,
    avgPace: Option<real>,
    avgCadence: Option<real>,
    avgStride: Option<real>)

  const EmptyAcc := ZoneAcc(0, 0.0, 0.0, [], [], [])

  /** The values an optional average contributes: itself, or nothing for null. */
  function Values(x: Option<real>): (r: seq<real>)
    ensures |r| <= 1 && (r == [] <==> x.None?)
  {
    if x.Some? then [x.value] else []
  }

  /** The rows of `data` that belong to zone `z`, in order. */
  function InZone(data: seq<HrZoneStat>, z: int): seq<HrZoneStat>
  {
    if data == [] then []
    else
      var init := InZone(data[..|data| - 1], z);
      if data[|data| - 1].hrZone == z then init + [data[|data| - 1]] else init
  }

  /** The zones present in `data`. */
  function ZonesOf(data: seq<HrZoneStat>): set<int>
  {
    if data == [] then {} else ZonesOf(data[..|data| - 1]) + {data[|data| - 1].hrZone}
  }

  lemma {:induction false} ZonesOfMember(data: seq<HrZoneStat>, i: nat)
    requires i < |data|
    ensures data[i].hrZone in ZonesOf(data)
  {
    if i < |data| - 1 {
      ZonesOfMember(data[..|data| - 1], i);
    }
  }

  /** Adds one row to a zone's record: its sums, and its non-null averages. */
  function AddRow(acc: ZoneAcc, item: HrZoneStat): ZoneAcc
  {
    ZoneAcc(acc.activityCount + item.activityCount,
            acc.totalDuration + item.totalDuration,
            acc.totalDistance + item.totalDistance,
            acc.paces + Values(item.avgPace),
            acc.cadences + Values(item.avgCadence),
            acc.strides + Values(item.avgStrideLength))
  }

  /** The totals of a zone's rows, one row after the other. */
  function Totals(items: seq<HrZoneStat>): ZoneAcc
  {
    if items == [] then EmptyAcc else AddRow(Totals(items[..|items| - 1]), items[|items| - 1])
  }

  lemma TotalsSnoc(items: seq<HrZoneStat>, item: HrZoneStat)
    ensures Totals(items + [item]) == AddRow(Totals(items), item)
  {
    assert (items + [item])[..|items|] == items;
  }

  lemma {:induction false} InZoneAbsent(data: seq<HrZoneStat>, z: int)
    requires z !in ZonesOf(data)
    ensures InZone(data, z) == []
  {
    if data != [] {
      InZoneAbsent(data[..|data| - 1], z);
    }
  }

  /** Extending the rows by one row only changes the rows of its own zone. */
  lemma InZoneStep(data: seq<HrZoneStat>, i: nat, z: int)
    requires i < |data|
    ensures InZone(data[..i + 1], z) ==
      if data[i].hrZone == z then InZone(data[..i], z) + [data[i]] else InZone(data[..i], z)
    ensures ZonesOf(data[..i + 1]) == ZonesOf(data[..i]) + {data[i].hrZone}
  {
    assert data[..i + 1][..i] == data[..i];
  }

  /** The loop's invariant: one record per zone of `rows`, holding its totals. */
  ghost predicate Aggregated(stats: map<int, ZoneAcc>, rows: seq<HrZoneStat>)
  {
    stats.Keys == ZonesOf(rows) && forall z :: z in stats ==> stats[z] == Totals(InZone(rows, z))
  }

  lemma AggregateStep(data: seq<HrZoneStat>, i: nat, before: map<int, ZoneAcc>, after: map<int, ZoneAcc>)
    requires i < |data| && Aggregated(before, data[..i])
    requires var z := data[i].hrZone;
      after == before[z := AddRow(if z in before then before[z] else EmptyAcc, data[i])]
    ensures Aggregated(after, data[..i + 1])
  {
    forall z | z in after
      ensures after[z] == Totals(InZone(data[..i + 1], z))
    {
      AggregateAt(data, i, before, after, z);
    }
    InZoneStep(data, i, data[i].hrZone);
  }

  lemma AggregateAt(data: seq<HrZoneStat>, i: nat, before: map<int, ZoneAcc>, after: map<int, ZoneAcc>, z: int)
    requires i < |data| && Aggregated(before, data[..i])
    requires var z := data[i].hrZone;
      after == before[z := AddRow(if z in before then before[z] else EmptyAcc, data[i])]
    requires z in after
    ensures after[z] == Totals(InZone(data[..i + 1], z))
  {
    InZoneStep(data, i, z);
    if z == data[i].hrZone {
      if z !in before {
        InZoneAbsent(data[..i], z);
      }
      TotalsSnoc(InZone(data[..i], z), data[i]);
    }
  }

  /** The per-zone aggregation loop: one record per zone seen, holding the
      totals of that zone's rows; `order` lists the zones as first met. */
  method AggregateZones(data: seq<HrZoneStat>) returns (stats: map<int, ZoneAcc>, order: seq<int>)
    ensures Aggregated(stats, data)
    ensures Distinct(order) && forall z :: z in order <==> z in stats
  {
    stats := map[];
    order := [];
    for i := 0 to |data|
      invariant Aggregated(stats, data[..i])
      invariant Distinct(order) && forall z :: z in order <==> z in stats
    {
      ghost var before := stats;
      stats, order := AddToZone(stats, order, data[i]);
      AggregateStep(data, i, before, stats);
    }
    assert data[..|data|] == data;
  }

  /** The loop body for one row: its zone's record is created when new
      (and the zone noted), then the row is added to it. */
  method AddToZone(stats: map<int, ZoneAcc>, order: seq<int>, item: HrZoneStat)
    returns (stats': map<int, ZoneAcc>, order': seq<int>)
    requires Distinct(order) && forall z :: z in order <==> z in stats
    ensures var z := item.hrZone;
      stats' == stats[z := AddRow(if z in stats then stats[z] else EmptyAcc, item)]
    ensures Distinct(order') && forall z :: z in order' <==> z in stats'
  {
    stats', order' := stats, order;
    if item.hrZone !in stats' {
      stats' := stats'[item.hrZone := EmptyAcc];
      order' := order' + [item.hrZone];
    }
    stats' := stats'[item.hrZone := AddRow(stats'[item.hrZone], item)];
  }

  /** A zone's row: its sums, and the mean of its non-null per-period averages. */
  function RowOf(zone: int, acc: ZoneAcc): HrZoneRow
  {
    HrZoneRow(zone, acc.activityCount, acc.totalDuration, acc.totalDistance,
              Mean(acc.paces), Mean(acc.cadences), Mean(acc.strides))
  }

  predicate Ascending(zones: seq<int>)
  {
    forall i, j :: 0 <= i < j < |zones| ==> zones[i] < zones[j]
  }

  /** Puts a new zone into an ascending list of zones. */
  function InsertZone(z: int, zones: seq<int>): (r: seq<int>)
    requires Ascending(zones) && z !in zones
    ensures Ascending(r) && forall x :: x in r <==> x == z || x in zones
  {
    if zones == [] || z < zones[0] then [z] + zones
    else
      var rest := InsertZone(z, zones[1..]);
      assert forall x :: x in zones <==> x == zones[0] || x in zones[1..];
      HeadBelowRest(z, zones, rest);
      [zones[0]] + rest
  }

  lemma HeadBelowRest(z: int, zones: seq<int>, rest: seq<int>)
    requires Ascending(zones) && zones != [] && z !in zones && zones[0] <= z
    requires forall x :: x in rest <==> x == z || x in zones[1..]
    ensures forall k :: 0 <= k < |rest| ==> zones[0] < rest[k]
  {
    forall k | 0 <= k < |rest|
      ensures zones[0] < rest[k]
    {
      assert rest[k] in rest;
      if rest[k] != z {
        var j :| 0 <= j < |zones[1..]| && zones[1..][j] == rest[k];
        assert zones[j + 1] == rest[k];
      }
    }
  }

  /** `sort((a, b) => a.zone - b.zone)` on rows with distinct zones: the
      zones in ascending order. */
  function SortZones(zones: seq<int>): (r: seq<int>)
    requires Distinct(zones)
    ensures Ascending(r) && forall x :: x in r <==> x in zones
  {
    if zones == [] then []
    else
      var init := zones[..|zones| - 1];
      assert forall x :: x in zones <==> x in init || x == zones[|zones| - 1];
      InsertZone(zones[|zones| - 1], SortZones(init))
  }

  /** The `map` from zones to displayed rows, in the order of `zones`. */
  method RowsOf(zones: seq<int>, stats: map<int, ZoneAcc>) returns (rows: seq<HrZoneRow>)
    requires forall z :: z in zones ==> z in stats
    ensures |rows| == |zones|
    ensures forall i :: 0 <= i < |zones| ==> rows[i] == RowOf(zones[i], stats[zones[i]])
  {
    rows := [];
    for k := 0 to |zones|
      invariant |rows| == k
      invariant forall i :: 0 <= i < k ==> rows[i] == RowOf(zones[i], stats[zones[i]])
    {
      rows := rows + [RowOf(zones[k], stats[zones[k]])];
    }
  }

  /** The table rows: one per zone present, in ascending zone order. */
  method HrZoneRows(data: seq<HrZoneStat>) returns (rows: seq<HrZoneRow>)
    ensures forall i, j :: 0 <= i < j < |rows| ==> rows[i].zone < rows[j].zone
    ensures forall i :: 0 <= i < |rows| ==>
      rows[i].zone in ZonesOf(data) && rows[i] == RowOf(rows[i].zone, Totals(InZone(data, rows[i].zone)))
    ensures forall z :: z in ZonesOf(data) ==> exists i :: 0 <= i < |rows| && rows[i].zone == z
  {
    var stats, order := AggregateZones(data);
    var zones := SortZones(order);
    rows := RowsOf(zones, stats);
    assert forall i :: 0 <= i < |rows| ==> rows[i].zone == zones[i] && zones[i] in zones;
    forall z | z in ZonesOf(data)
      ensures exists i :: 0 <= i < |rows| && rows[i].zone == z
    {
      assert z in zones;
      var i :| 0 <= i < |zones| && zones[i] == z;
      assert rows[i].zone == z;
    }
  }

  /** No rows, and so the placeholder, exactly for empty input. */
  lemma NoRowsIffEmpty(data: seq<HrZoneStat>)
    ensures ZonesOf(data) == {} <==> data == []
  {
    if data != [] {
      ZonesOfMember(data, 0);
    }
  }

  /** The three averaged columns of the table. */
  datatype Metric = Pace | Cadence | Stride

  function Average(item: HrZoneStat, m: Metric): Option<real>
  {
    match m
    case Pace => item.avgPace
    case Cadence => item.avgCadence
    case Stride => item.avgStrideLength
  }

  function Collected(acc: ZoneAcc, m: Metric): seq<real>
  {
    match m
    case Pace => acc.paces
    case Cadence => acc.cadences
    case Stride => acc.strides
  }

  /** The non-null values of a column, in order. */
  function Present(xs: seq<Option<real>>): seq<real>
  {
    if xs == [] then [] else Present(xs[..|xs| - 1]) + Values(xs[|xs| - 1])
  }

  function Column(items: seq<HrZoneStat>, m: Metric): (r: seq<Option<real>>)
    ensures |r| == |items| && forall i :: 0 <= i < |items| ==> r[i] == Average(items[i], m)
  {
    seq(|items|, i requires 0 <= i < |items| => Average(items[i], m))
  }

  /** What a zone's record collects for a column is the column's non-null values. */
  lemma {:induction false} TotalsCollect(items: seq<HrZoneStat>, m: Metric)
    ensures Collected(Totals(items), m) == Present(Column(items, m))
  {
    if items != [] {
      var init := items[..|items| - 1];
      TotalsCollect(init, m);
      assert Column(items, m)[..|items| - 1] == Column(init, m);
    }
  }

  lemma {:induction false} PresentBounds(xs: seq<Option<real>>, lo: real, hi: real)
    requires forall i :: 0 <= i < |xs| && xs[i].Some? ==> lo <= xs[i].value <= hi
    ensures forall k :: 0 <= k < |Present(xs)| ==> lo <= Present(xs)[k] <= hi
  {
    if xs != [] {
      var init := xs[..|xs| - 1];
      assert forall i :: 0 <= i < |init| ==> init[i] == xs[i];
      PresentBounds(init, lo, hi);
    }
  }

  lemma {:induction false} PresentEmpty(xs: seq<Option<real>>)
    ensures Present(xs) == [] <==> forall i :: 0 <= i < |xs| ==> xs[i].None?
  {
    if xs != [] {
      var init := xs[..|xs| - 1];
      var last := xs[|xs| - 1];
      PresentEmpty(init);
      if last.Some? {
        assert Present(xs) == Present(init) + [last.value];
      } else {
        assert Present(xs) == Present(init);
        assert (forall i :: 0 <= i < |xs| ==> xs[i].None?) <==> (forall i :: 0 <= i < |init| ==> init[i].None?);
      }
    }
  }

  /** A zone's average of a column is absent exactly when none of its rows
      has a value there, and otherwise it is a mean of the per-period
      averages, so it lies between the least and the greatest of them. */
  lemma MeanOfMeans(items: seq<HrZoneStat>, m: Metric, lo: real, hi: real)
    requires forall i :: 0 <= i < |items| && Average(items[i], m).Some? ==>
      lo <= Average(items[i], m).value <= hi
    ensures Mean(Collected(Totals(items), m)).None? <==>
      forall i :: 0 <= i < |items| ==> Average(items[i], m).None?
    ensures Mean(Collected(Totals(items), m)).Some? ==>
      lo <= Mean(Collected(Totals(items), m)).value <= hi
  {
    TotalsCollect(items, m);
    var col := Column(items, m);
    PresentEmpty(col);
    var ps := Present(col);
    if ps != [] {
      PresentBounds(col, lo, hi);
      MeanBounds(ps, lo, hi);
    }
  }

  /** The sum of `activity_count` over some rows. */
  function CountSum(data: seq<HrZoneStat>): int
  {
    if data == [] then 0 else CountSum(data[..|data| - 1]) + data[|data| - 1].activityCount
  }

  lemma {:induction false} TotalsCount(items: seq<HrZoneStat>)
    ensures Totals(items).activityCount == CountSum(items)
  {
    if items != [] {
      TotalsCount(items[..|items| - 1]);
    }
  }

  /** The sum of the zone rows' counts over a list of zones. */
  function ZoneCountSum(zones: seq<int>, data: seq<HrZoneStat>): int
  {
    if zones == [] then 0
    else ZoneCountSum(zones[..|zones| - 1], data) + CountSum(InZone(data, zones[|zones| - 1]))
  }

  predicate Distinct(zones: seq<int>)
  {
    forall i, j :: 0 <= i < j < |zones| ==> zones[i] != zones[j]
  }

  lemma {:induction false} ZoneCountSumStep(zones: seq<int>, data: seq<HrZoneStat>)
    requires data != [] && Distinct(zones)
    ensures ZoneCountSum(zones, data) ==
      ZoneCountSum(zones, data[..|data| - 1]) +
      (if data[|data| - 1].hrZone in zones then data[|data| - 1].activityCount else 0)
  {
    if zones != [] {
      var init := zones[..|zones| - 1];
      assert Distinct(init);
      ZoneCountSumStep(init, data);
      var last := data[|data| - 1];
      if last.hrZone == zones[|zones| - 1] {
        assert last.hrZone !in init;
      }
      assert last.hrZone in zones <==> last.hrZone in init || last.hrZone == zones[|zones| - 1];
    }
  }

  /** Merging per-period rows into zone rows keeps the total activity count:
      the zone rows' counts add up to the input's counts. */
  lemma {:induction false} ZoneCountsConserved(zones: seq<int>, data: seq<HrZoneStat>)
    requires Distinct(zones) && forall z :: z in ZonesOf(data) ==> z in zones
    ensures ZoneCountSum(zones, data) == CountSum(data)
  {
    if data == [] {
      ZoneCountSumEmpty(zones);
    } else {
      var init := data[..|data| - 1];
      ZoneCountsConserved(zones, init);
      ZoneCountSumStep(zones, data);
      assert data[|data| - 1].hrZone in ZonesOf(data);
    }
  }

  lemma {:induction false} ZoneCountSumEmpty(zones: seq<int>)
    ensures ZoneCountSum(zones, []) == 0
  {
    if zones != [] {
      ZoneCountSumEmpty(zones[..|zones| - 1]);
    }
  }

  // ---------------------------------------------------------------------
  // Pace zone table

  /** One pace-zone row as the table receives it. */
  datatype PaceZoneStat = PaceZoneStat(
    zone: int,
    paceMinSecPerKm: real,
    paceMaxSecPerKm: real,
    avgHeartRate: Option<real>,
    avgCadence: Option<real>,
    avgStrideLength: Option<real>)

  function ByZone(): (PaceZoneStat, PaceZoneStat) -> bool
  {
    (a: PaceZoneStat, b: PaceZoneStat) => a.zone <= b.zone
  }

  predicate KnownZone(x: PaceZoneStat)
  {
    1 <= x.zone <= 5
  }

  /** The rows of zones 1..5, in their order (`Grouping.Filter`): each
      occurs as often as in the data. */
  function KnownZones(data: seq<PaceZoneStat>): (r: seq<PaceZoneStat>)
    ensures forall x :: x in r <==> x in data && 1 <= x.zone <= 5
    ensures forall x :: multiset(r)[x] == if 1 <= x.zone <= 5 then multiset(data)[x] else 0
  {
    var r := Grouping.Filter(data, KnownZone);
    assert forall x :: multiset(r)[x] == if 1 <= x.zone <= 5 then multiset(data)[x] else 0 by {
      forall x
        ensures multiset(r)[x] == if 1 <= x.zone <= 5 then multiset(data)[x] else 0
      {
        Grouping.FilterCount(data, KnownZone, x);
      }
    }
    r
  }

  /** The displayed rows: zones 1..5 only, ascending by zone. */
  function PaceRows(data: seq<PaceZoneStat>): (rows: seq<PaceZoneStat>)
    ensures forall x :: x in rows <==> x in data && 1 <= x.zone <= 5
    ensures forall i, j :: 0 <= i < j < |rows| ==> rows[i].zone <= rows[j].zone
    ensures multiset(rows) == multiset(KnownZones(data))
  {
    assert Sorting.TotalPreorder(ByZone());
    var rows := Sorting.InsertionSort(KnownZones(data), ByZone());
    assert forall x :: x in rows <==> x in multiset(rows);
    assert forall x :: x in KnownZones(data) <==> x in multiset(KnownZones(data));
    rows
  }

  /** The placeholder is shown exactly when no row has a zone in 1..5. */
  lemma PacePlaceholder(data: seq<PaceZoneStat>)
    ensures PaceRows(data) == [] <==> forall i :: 0 <= i < |data| ==> !(1 <= data[i].zone <= 5)
  {
    if PaceRows(data) != [] {
      assert PaceRows(data)[0] in PaceRows(data);
    } else {
      forall i | 0 <= i < |data|
        ensures !(1 <= data[i].zone <= 5)
      {
        assert data[i] in data;
      }
    }
  }

  /** The range label from the two rendered ends: `fast` followed by "+" when
      the slow end is open, "< " then `slow` when the fast end is open, else
      `slow`, an en dash and `fast`. */
  function RangeText(openSlow: bool, openFast: bool, fast: string, slow: string): (r: string)
    requires |fast| >= 2 && |slow| >= 2
    requires Format.NoRangeMark(fast) && Format.NoRangeMark(slow)
    ensures |r| >= 2
    ensures r[|r| - 1] == '+' <==> openSlow
    ensures r[..2] == "< " <==> !openSlow && openFast
    ensures (exists i :: 0 <= i < |r| && r[i] == '–') <==> !openSlow && !openFast
    ensures openSlow ==> r[..|r| - 1] == fast
    ensures !openSlow && openFast ==> r[2..] == slow
    ensures !openSlow && !openFast ==>
      |r| == |slow| + 1 + |fast| && r[..|slow|] == slow && r[|slow|] == '–' && r[|slow| + 1..] == fast
  {
    if openSlow then
      var r := fast + ['+'];
      assert forall i :: 0 <= i < |r| ==> r[i] != '–' by {
        forall i | 0 <= i < |r| ensures r[i] != '–' { if i < |fast| { assert r[i] == fast[i]; } }
      }
      assert r[..2] != "< " by { assert r[0] == fast[0]; }
      r
    else if openFast then
      var r := ['<', ' '] + slow;
      assert forall i :: 0 <= i < |r| ==> r[i] != '–' by {
        forall i | 0 <= i < |r| ensures r[i] != '–' { if i >= 2 { assert r[i] == slow[i - 2]; } }
      }
      assert r[|r| - 1] == slow[|slow| - 1];
      r
    else
      var r := slow + ['–'] + fast;
      assert r[|slow|] == '–';
      assert r[|r| - 1] == fast[|fast| - 1];
      assert r[..2] != "< " by { assert r[0] == slow[0]; }
      r
  }

  /** `formatPaceRange(paceMin, paceMax)`: "min+" for the open slow end,
      "< max" for the open fast end, else "max–min". */
  function FormatPaceRange(paceMin: real, paceMax: real): (r: string)
    ensures |r| >= 2
    ensures r[|r| - 1] == '+' <==> paceMax >= VdotPace.Sentinel
    ensures r[..2] == "< " <==> paceMax < VdotPace.Sentinel && paceMin <= 0.0
    ensures (exists i :: 0 <= i < |r| && r[i] == '–') <==> paceMax < VdotPace.Sentinel && paceMin > 0.0
    ensures paceMax >= VdotPace.Sentinel ==> r[..|r| - 1] == Format.FormatPace(Num(paceMin), false)
    ensures paceMax < VdotPace.Sentinel && paceMin <= 0.0 ==>
      r[2..] == Format.FormatPace(Num(paceMax), false)
    ensures paceMax < VdotPace.Sentinel && paceMin > 0.0 ==>
      var slow := Format.FormatPace(Num(paceMax), false);
      |r| > |slow| && r[..|slow|] == slow && r[|slow|] == '–' && r[|slow| + 1..] == Format.FormatPace(Num(paceMin), false)
  {
    var fast := Format.FormatPace(Num(paceMin), false);
    var slow := Format.FormatPace(Num(paceMax), false);
    RangeText(paceMax >= VdotPace.Sentinel, paceMin <= 0.0, fast, slow)
  }

  /** Zones 1..4 have a positive lower end, zones 2..5 an upper end below the sentinel. */
  lemma BandEnds(bands: map<int, VdotPace.Band>)
    requires VdotPace.Contiguous(bands)
    ensures forall z :: 1 <= z <= 4 ==> bands[z].paceMin > 0.0
    ensures forall z :: 2 <= z <= 5 ==> bands[z].paceMax < VdotPace.Sentinel
  {
    assert bands[4].paceMin == bands[5].paceMax > bands[5].paceMin;
    assert bands[3].paceMin == bands[4].paceMax > bands[4].paceMin;
    assert bands[2].paceMin == bands[3].paceMax > bands[3].paceMin;
    assert bands[1].paceMin == bands[2].paceMax > bands[2].paceMin;
    assert bands[2].paceMax == bands[1].paceMin < bands[1].paceMax;
    assert bands[3].paceMax == bands[2].paceMin < bands[2].paceMax;
    assert bands[4].paceMax == bands[3].paceMin < bands[3].paceMax;
    assert bands[5].paceMax == bands[4].paceMin < bands[4].paceMax;
  }

  /** On the bands built from a VDOT, zone 1 is rendered open-ended as
      "min+", zone 5 as "< max", and zones 2..4 as a closed "max–min" range. */
  lemma BandRanges(bands: map<int, VdotPace.Band>, z: int)
    requires VdotPace.Contiguous(bands) && 1 <= z <= 5
    ensures var b := bands[z];
      FormatPaceRange(b.paceMin, b.paceMax) ==
        if z == 1 then Format.FormatPace(Num(b.paceMin), false) + "+"
        else if z == 5 then "< " + Format.FormatPace(Num(b.paceMax), false)
        else Format.FormatPace(Num(b.paceMax), false) + "–" + Format.FormatPace(Num(b.paceMin), false)
  {
    BandEnds(bands);
  }
}
