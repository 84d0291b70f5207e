/**
 * The read-only query layer over the activities database: the statements
 * `getActivities` builds (a filtered page and a count sharing its `WHERE`
 * clause) with their positional parameters, the pagination it echoes, the
 * normalisation of the `getStats` row, and the rows `getVDOTHistory`,
 * `getActivityById` and `getActivityLaps` return, each read off the tables.
 *
 * The SQL engine is not modelled: the count and the page rows of
 * `getActivities` are what the engine answers and come in as parameters.
 */
module DbQuery {
  import opened Js
  import opened Text
  import opened Store
  import Sorting
  import Grouping
  import ApiParams

  /** A value bound to a `?` placeholder. */
  datatype SqlParam = Str(s: string) | Number(n: JsNumber)

  /** SQL text as written: literal text and `?` placeholders. */
  datatype Part = Text(s: string) | Hole

  /** The number of placeholders. */
  function Placeholders(parts: seq<Part>): nat
  {
    if parts == [] then 0 else (if parts[0].Hole? then 1 else 0) + Placeholders(parts[1..])
  }

  lemma {:induction false} PlaceholdersAppend(a: seq<Part>, b: seq<Part>)
    ensures Placeholders(a + b) == Placeholders(a) + Placeholders(b)
  {
    if a == [] {
      assert a + b == b;
    } else {
      assert (a + b)[1..] == a[1..] + b;
      PlaceholdersAppend(a[1..], b);
    }
  }

  /** A prepared statement and the values bound to it, in order. */
  datatype Statement = Statement(sql: seq<Part>, params: seq<SqlParam>)

  const FromActivities: string := " FROM activities WHERE 1=1"
  const SelectAll: string := "SELECT *" + FromActivities
  const SelectCount: string := "SELECT COUNT(*) as count" + FromActivities
  const TypeClause: seq<Part> := [Text(" AND activity_type = "), Hole]
  const StartClause: seq<Part> := [Text(" AND start_time >= "), Hole]
  const EndClause: seq<Part> := [Text(" AND start_time <= "), Hole]
  const OrderClause: seq<Part> := [Text(" ORDER BY start_time DESC LIMIT "), Hole, Text(" OFFSET "), Hole]

  /** The clause a filter adds when its value is given (not ""). */
  function When(value: string, clause: seq<Part>): seq<Part>
  {
    if value != "" then clause else []
  }

  /** The value a filter binds when it is given. */
  function Bound(value: string): seq<SqlParam>
  {
    if value != "" then [Str(value)] else []
  }

  /** The filter conditions after `WHERE 1=1`, in the order type, start, end. */
  function Where(activityType: string, startDate: string, endDate: string): seq<Part>
  {
    When(activityType, TypeClause) + When(startDate, StartClause) + When(endDate, EndClause)
  }

  /** The filter values, in the order of their placeholders. */
  function FilterParams(activityType: string, startDate: string, endDate: string): (r: seq<SqlParam>)
    ensures |r| <= 3
    ensures forall i :: 0 <= i < |r| ==> r[i].Str? && r[i].s != ""
  {
    Bound(activityType) + Bound(startDate) + Bound(endDate)
  }

  /** Each filter adds exactly one placeholder and binds exactly one value;
      the order clause adds two. */
  lemma WhereBindsAll(activityType: string, startDate: string, endDate: string)
    ensures Placeholders(Where(activityType, startDate, endDate)) == |FilterParams(activityType, startDate, endDate)|
    ensures Placeholders(OrderClause) == 2
  {
    PlaceholdersAppend(When(activityType, TypeClause), When(startDate, StartClause));
    PlaceholdersAppend(When(activityType, TypeClause) + When(startDate, StartClause), When(endDate, EndClause));
  }

  /** `query.replace(pat, rep)`: only the first occurrence is replaced. */
  function ReplaceFirst(s: string, pat: string, rep: string): (r: string)
    requires pat != []
    ensures pat <= s ==> r == rep + s[|pat|..]
    ensures |s| < |pat| ==> r == s
  {
    if pat <= s then rep + s[|pat|..]
    else if s == [] then s
    else [s[0]] + ReplaceFirst(s[1..], pat, rep)
  }

  /** `pat` occurs in `s` at position `k`. */
  predicate OccursAt(s: string, pat: string, k: nat)
  {
    k + |pat| <= |s| && s[k..k + |pat|] == pat
  }

  /** An occurrence in the tail is one position further in the whole. */
  lemma OccursShift(s: string, pat: string, j: nat)
    requires s != []
    ensures OccursAt(s[1..], pat, j) <==> OccursAt(s, pat, j + 1)
  {
    if j + |pat| <= |s| - 1 {
      assert s[1..][j..j + |pat|] == s[j + 1..j + 1 + |pat|];
    }
  }

  /** A pattern that does not start the text is not a prefix of it. */
  lemma NotAtStart(s: string, pat: string)
    requires !OccursAt(s, pat, 0)
    ensures !(pat <= s)
  {
  }

  /** Where the pattern does not start the text, the first character is
      kept and the rest is searched. */
  lemma ReplaceFirstStep(s: string, pat: string, rep: string)
    requires pat != [] && s != [] && !OccursAt(s, pat, 0)
    ensures ReplaceFirst(s, pat, rep) == [s[0]] + ReplaceFirst(s[1..], pat, rep)
  {
    NotAtStart(s, pat);
  }

  /** Splicing into the tail is splicing one position further into the whole. */
  lemma SpliceShift(s: string, rep: string, k: nat, m: nat)
    requires 1 <= k <= m <= |s|
    ensures [s[0]] + (s[1..][..k - 1] + rep + s[1..][m - 1..]) == s[..k] + rep + s[m..]
  {
    assert [s[0]] + s[1..][..k - 1] == s[..k];
    assert s[1..][m - 1..] == s[m..];
  }

  /** The first occurrence of the pattern is replaced, and the text before
      and after it is kept. */
  lemma {:induction false} ReplaceFirstAt(s: string, pat: string, rep: string, k: nat)
    requires pat != [] && OccursAt(s, pat, k)
    requires forall j: nat :: j < k ==> !OccursAt(s, pat, j)
    ensures ReplaceFirst(s, pat, rep) == s[..k] + rep + s[k + |pat|..]
  {
    if k == 0 {
      assert s[..|pat|] == pat;
    } else {
      var t := s[1..];
      ReplaceFirstStep(s, pat, rep);
      OccursShift(s, pat, k - 1);
      forall j: nat | j < k - 1
        ensures !OccursAt(t, pat, j)
      {
        OccursShift(s, pat, j);
      }
      ReplaceFirstAt(t, pat, rep, k - 1);
      SpliceShift(s, rep, k, k + |pat|);
    }
  }

  /** Text in which the pattern does not occur is kept as it is. */
  lemma {:induction false} ReplaceFirstAbsent(s: string, pat: string, rep: string)
    requires pat != [] && forall j: nat :: !OccursAt(s, pat, j)
    ensures ReplaceFirst(s, pat, rep) == s
  {
    NotAtStart(s, pat);
    if s != [] {
      var t := s[1..];
      forall j: nat
        ensures !OccursAt(t, pat, j)
      {
        OccursShift(s, pat, j);
      }
      ReplaceFirstAbsent(t, pat, rep);
    }
  }

  /** The count statement's text: the page query's leading `SELECT *`
      replaced, the rest kept. */
  function CountOf(parts: seq<Part>): seq<Part>
  {
    if parts != [] && parts[0].Text? then
      [Text(ReplaceFirst(parts[0].s, "SELECT *", "SELECT COUNT(*) as count"))] + parts[1..]
    else parts
  }

  /** Destructuring with a default: only an absent value takes it. */
  function Default(x: JsNumber, d: real): (r: JsNumber)
    ensures x.Missing? ==> r == Num(d)
    ensures !x.Missing? ==> r == x
  {
    if x.Missing? then Num(d) else x
  }

  /** `(page - 1) * limit`; any NaN operand makes it NaN. */
  function Offset(page: JsNumber, limit: JsNumber): (r: JsNumber)
    requires !page.Missing? && !limit.Missing?
    ensures r.NaN? <==> page.NaN? || limit.NaN?
  {
    if page.Num? && limit.Num? then Num((page.v - 1.0) * limit.v) else NaN
  }

  /** The first page starts at row 0, and each page starts `limit` rows
      after the one before, so pages neither overlap nor leave gaps. */
  lemma OffsetsTile(page: real, limit: real)
    requires page >= 1.0 && limit >= 1.0
    ensures Offset(Num(1.0), Num(limit)) == Num(0.0)
    ensures Offset(Num(page), Num(limit)).v >= 0.0
    ensures Offset(Num(page + 1.0), Num(limit)).v == Offset(Num(page), Num(limit)).v + limit
  {
    MulNonNeg(page - 1.0, limit);
  }

  datatype Pagination = Pagination(page: JsNumber, limit: JsNumber, total: int)
  datatype Paginated<T> = Paginated(data: seq<T>, pagination: Pagination)

  /** The page query up to its filters, and their values: each given
      filter appends its condition and binds its value. */
  method FilteredQuery(q: ApiParams.ActivityQuery) returns (query: seq<Part>, params: seq<SqlParam>)
    ensures query == [Text(SelectAll)] + Where(q.activityType, q.startDate, q.endDate)
    ensures params == FilterParams(q.activityType, q.startDate, q.endDate)
  {
    query := [Text(SelectAll)];
    params := [];
    if q.activityType != "" {
      query := query + TypeClause;
      params := params + [Str(q.activityType)];
    }
    assert query == [Text(SelectAll)] + When(q.activityType, TypeClause);
    if q.startDate != "" {
      query := query + StartClause;
      params := params + [Str(q.startDate)];
    }
    assert query == [Text(SelectAll)] + When(q.activityType, TypeClause) + When(q.startDate, StartClause);
    if q.endDate != "" {
      query := query + EndClause;
      params := params + [Str(q.endDate)];
    }
  }

  /** `getActivities`: builds the filtered query and its parameters one
      filter at a time, derives the count statement from it, then appends
      the order, limit and offset. `total` and `rows` are the engine's
      answers to the two statements. */
  method GetActivities<T>(q: ApiParams.ActivityQuery, total: int, rows: seq<T>)
    returns (countStatement: Statement, pageStatement: Statement, response: Paginated<T>)
    ensures var page := Default(q.page, 1.0);
      var limit := Default(q.limit, 20.0);
      var w := Where(q.activityType, q.startDate, q.endDate);
      var filters := FilterParams(q.activityType, q.startDate, q.endDate);
      countStatement == Statement([Text(SelectCount)] + w, filters) &&
      pageStatement == Statement([Text(SelectAll)] + w + OrderClause,
                                 filters + [Number(limit), Number(Offset(page, limit))]) &&
      response == Paginated(rows, Pagination(page, limit, total))
    ensures Placeholders(countStatement.sql) == |countStatement.params|
    ensures Placeholders(pageStatement.sql) == |pageStatement.params|
  {
    var page := Default(q.page, 1.0);
    var limit := Default(q.limit, 20.0);
    var offset := Offset(page, limit);

    var query, params := FilteredQuery(q);
    var w := Where(q.activityType, q.startDate, q.endDate);

    countStatement := Statement(CountOf(query), params);
    CountReplacesSelect(w);

    query := query + OrderClause;
    params := params + [Number(limit), Number(offset)];
    pageStatement := Statement(query, params);
    response := Paginated(rows, Pagination(page, limit, total));

    WhereBindsAll(q.activityType, q.startDate, q.endDate);
    StatementsBalanced(w, |FilterParams(q.activityType, q.startDate, q.endDate)|);
  }

  /** With the filter placeholders matched by the filter values, the count
      statement needs no more values and the page statement two more. */
  lemma StatementsBalanced(w: seq<Part>, filters: nat)
    requires Placeholders(w) == filters
    ensures Placeholders([Text(SelectCount)] + w) == filters
    ensures Placeholders([Text(SelectAll)] + w + OrderClause) == filters + 2
  {
    PlaceholdersAppend([Text(SelectCount)], w);
    PlaceholdersAppend([Text(SelectAll)], w);
    PlaceholdersAppend([Text(SelectAll)] + w, OrderClause);
    WhereBindsAll("", "", "");
  }

  /** The count statement is the page query before its order clause with
      only the leading `SELECT *` replaced: both share the `WHERE` clause. */
  lemma CountReplacesSelect(w: seq<Part>)
    ensures CountOf([Text(SelectAll)] + w) == [Text(SelectCount)] + w
  {
    assert "SELECT *" <= SelectAll;
    assert SelectAll[|"SELECT *"|..] == FromActivities;
    assert ([Text(SelectAll)] + w)[1..] == w;
  }

  // ---------------------------------------------------------------------
  // getStats

  /** The aggregate row; SQL NULL (no rows to aggregate) is `None`. */
  datatype StatsRow = StatsRow(
    totalActivities: Option<real>,
    totalDistance: Option<real>,
    totalDuration: Option<real>,
    averagePace: Option<real>,
    averageHeartRate: Option<real>,
    totalAscent: Option<real>,
    averageVdot: Option<real>)

  datatype Stats = Stats(
    totalActivities: real,
    totalDistance: real,
    totalDuration: real,
    averagePace: Option<real>,
    averageHeartRate: Option<real>,
    totalAscent: Option<real>,
    averageVdot: Option<real>)

  /** `x || undefined`: NULL and 0 are both absent. */
  function Truthy(x: Option<real>): (r: Option<real>)
    ensures r.None? <==> x.None? || x.value == 0.0
    ensures r.Some? ==> r == x && r.value != 0.0
  {
    if x.Some? && x.value != 0.0 then x else None
  }

  /** The `getStats` response: totals default to 0, the averages and the
      ascent are absent when NULL or 0. */
  function NormaliseStats(row: StatsRow): (r: Stats)
    ensures r.averagePace.None? <==> row.averagePace.None? || row.averagePace.value == 0.0
    ensures r.averageHeartRate.None? <==> row.averageHeartRate.None? || row.averageHeartRate.value == 0.0
    ensures r.totalAscent.None? <==> row.totalAscent.None? || row.totalAscent.value == 0.0
    ensures r.averageVdot.None? <==> row.averageVdot.None? || row.averageVdot.value == 0.0
    ensures row.averagePace.Some? && row.averagePace.value != 0.0 ==> r.averagePace == row.averagePace
    ensures row.averageHeartRate.Some? && row.averageHeartRate.value != 0.0 ==> r.averageHeartRate == row.averageHeartRate
    ensures row.totalAscent.Some? && row.totalAscent.value != 0.0 ==> r.totalAscent == row.totalAscent
    ensures row.averageVdot.Some? && row.averageVdot.value != 0.0 ==> r.averageVdot == row.averageVdot
    ensures r.totalActivities == if row.totalActivities.Some? then row.totalActivities.value else 0.0
    ensures r.totalDistance == if row.totalDistance.Some? then row.totalDistance.value else 0.0
    ensures r.totalDuration == if row.totalDuration.Some? then row.totalDuration.value else 0.0
  {
    Stats(OrZero(row.totalActivities), OrZero(row.totalDistance), OrZero(row.totalDuration),
          Truthy(row.averagePace), Truthy(row.averageHeartRate), Truthy(row.totalAscent),
          Truthy(row.averageVdot))
  }

  /** The stats of an empty period: zero totals and no averages. */
  lemma EmptyPeriodStats()
    ensures NormaliseStats(StatsRow(Some(0.0), None, None, None, None, None, None)) ==
      Stats(0.0, 0.0, 0.0, None, None, None, None)
  {
  }

  /** An average of exactly 0 is reported as absent, while a total of 0
      stays 0, and a non-zero value always comes through unchanged. */
  lemma ZeroAverageAbsent(row: StatsRow, v: real)
    requires row.averagePace == Some(0.0) && row.totalDistance == Some(0.0)
    requires row.averageHeartRate == Some(v) && v != 0.0
    ensures NormaliseStats(row).averagePace.None?
    ensures NormaliseStats(row).totalDistance == 0.0
    ensures NormaliseStats(row).averageHeartRate == Some(v)
  {
  }

  /** Reading the response back as a row and normalising again changes nothing. */
  lemma NormaliseIdempotent(row: StatsRow)
    ensures var s := NormaliseStats(row);
      NormaliseStats(StatsRow(Some(s.totalActivities), Some(s.totalDistance), Some(s.totalDuration),
                              s.averagePace, s.averageHeartRate, s.totalAscent, s.averageVdot)) == s
  {
  }

  // ---------------------------------------------------------------------
  // getActivityById, getActivityLaps

  /** `SELECT * FROM activities WHERE activity_id = ?`, or `null`. */
  function ActivityById(activities: seq<Activity>, id: string): (r: Option<Activity>)
    ensures r.Some? ==> r.value in activities && r.value.activityId == id
    ensures r.None? <==> forall a :: a in activities ==> a.activityId != id
  {
    if activities == [] then None
    else if activities[0].activityId == id then Some(activities[0])
    else ActivityById(activities[1..], id)
  }

  /** With unique ids the lookup returns the one activity that has the id. */
  lemma ActivityByIdUnique(activities: seq<Activity>, a: Activity)
    requires a in activities
    requires forall b :: b in activities && b.activityId == a.activityId ==> b == a
    ensures ActivityById(activities, a.activityId) == Some(a)
  {
  }

  function ByLapIndex(): (Lap, Lap) -> bool
  {
    (x: Lap, y: Lap) => x.lapIndex <= y.lapIndex
  }

  /** `getActivityLaps`: the activity's laps, by lap index. Each of its
      laps occurs as often as in the table, and no other lap occurs. */
  function ActivityLaps(laps: seq<Lap>, id: string): (r: seq<Lap>)
    ensures forall l :: multiset(r)[l] == if l.activityId == id then multiset(laps)[l] else 0
    ensures forall l :: l in r <==> l in laps && l.activityId == id
    ensures forall i, j :: 0 <= i < j < |r| ==> r[i].lapIndex <= r[j].lapIndex
  {
    var mine := Grouping.Filter(laps, (l: Lap) => l.activityId == id);
    assert Sorting.TotalPreorder(ByLapIndex());
    var r := Sorting.InsertionSort(mine, ByLapIndex());
    assert forall l :: multiset(r)[l] == if l.activityId == id then multiset(laps)[l] else 0 by {
      forall l
        ensures multiset(r)[l] == if l.activityId == id then multiset(laps)[l] else 0
      {
        Grouping.FilterCount(laps, (l: Lap) => l.activityId == id, l);
      }
    }
    assert forall l :: l in r <==> l in mine by {
      forall l
        ensures l in r <==> l in mine
      {
        Sorting.SortedMembers(mine, ByLapIndex(), l);
      }
    }
    r
  }

  // ---------------------------------------------------------------------
  // getVDOTHistory

  datatype VdotPoint = VdotPoint(activityId: string, startTime: string, vdotValue: real,
                                 distance: Option<real>, duration: Option<real>)

  predicate HasVdot(a: Activity)
  {
    a.vdotValue.Some?
  }

  function Point(a: Activity): VdotPoint
    requires HasVdot(a)
  {
    VdotPoint(a.activityId, a.startTime, a.vdotValue.value, a.distance, a.duration)
  }

  /** `ORDER BY start_time DESC` on ISO timestamps. */
  function NewestFirst(): (Activity, Activity) -> bool
  {
    (x: Activity, y: Activity) => LessEq(y.startTime, x.startTime)
  }

  lemma NewestFirstTotal()
    ensures Sorting.TotalPreorder(NewestFirst())
  {
    forall a: Activity, b: Activity
      ensures LessEq(b.startTime, a.startTime) || LessEq(a.startTime, b.startTime)
    {
      LessTotal(a.startTime, b.startTime);
    }
    forall a: Activity, b: Activity, c: Activity |
      LessEq(b.startTime, a.startTime) && LessEq(c.startTime, b.startTime)
      ensures LessEq(c.startTime, a.startTime)
    {
      if c.startTime != b.startTime && b.startTime != a.startTime {
        LessTransitive(c.startTime, b.startTime, a.startTime);
      }
    }
  }

  /** `WHERE vdot_value IS NOT NULL`: each activity with a VDOT occurs as
      often as in the table, and no other activity occurs. */
  function WithVdot(activities: seq<Activity>): (r: seq<Activity>)
    ensures forall a :: a in r <==> a in activities && HasVdot(a)
    ensures forall a :: multiset(r)[a] == if HasVdot(a) then multiset(activities)[a] else 0
    ensures multiset(r) <= multiset(activities)
  {
    var r := Grouping.Filter(activities, (a: Activity) => HasVdot(a));
    assert forall a :: multiset(r)[a] == if HasVdot(a) then multiset(activities)[a] else 0 by {
      forall a
        ensures multiset(r)[a] == if HasVdot(a) then multiset(activities)[a] else 0
      {
        Grouping.FilterCount(activities, (a: Activity) => HasVdot(a), a);
      }
    }
    r
  }

  /** The activities with a VDOT, newest first. */
  function VdotRanking(activities: seq<Activity>): (r: seq<Activity>)
    ensures multiset(r) == multiset(WithVdot(activities))
    ensures forall a :: multiset(r)[a] == if HasVdot(a) then multiset(activities)[a] else 0
    ensures |r| == |WithVdot(activities)|
    ensures Sorting.SortedBy(r, NewestFirst())
    ensures forall i :: 0 <= i < |r| ==> HasVdot(r[i])
  {
    NewestFirstTotal();
    var r := Sorting.InsertionSort(WithVdot(activities), NewestFirst());
    assert forall i :: 0 <= i < |r| ==> r[i] in multiset(WithVdot(activities));
    r
  }

  function Points(s: seq<Activity>): (r: seq<VdotPoint>)
    requires forall i :: 0 <= i < |s| ==> HasVdot(s[i])
    ensures |r| == |s| && forall i :: 0 <= i < |s| ==> r[i] == Point(s[i])
  {
    if s == [] then [] else [Point(s[0])] + Points(s[1..])
  }

  /** `getVDOTHistory(limit)`: the `limit` newest activities that have a
      VDOT, newest first: as many points as `LIMIT` allows, each the point of
      the activity at the same place in the ranking, so every activity with a
      VDOT gives at most one point and none is repeated beyond its rows. */
  function VdotHistory(activities: seq<Activity>, limit: nat): (r: seq<VdotPoint>)
    ensures |r| <= limit
    ensures |r| == if limit < |WithVdot(activities)| then limit else |WithVdot(activities)|
    ensures r == Points(VdotRanking(activities)[..|r|])
    ensures forall i, j :: 0 <= i < j < |r| ==> LessEq(r[j].startTime, r[i].startTime)
    ensures forall p :: p in r ==> PointOf(activities, p)
  {
    var ranked := VdotRanking(activities);
    var n := if limit < |ranked| then limit else |ranked|;
    PointsOfRanking(activities, n);
    Points(ranked[..n])
  }

  /** The points of a prefix of the ranking are newest first, and each is
      the point of an activity with a VDOT. */
  lemma PointsOfRanking(activities: seq<Activity>, n: nat)
    requires n <= |VdotRanking(activities)|
    ensures var r := Points(VdotRanking(activities)[..n]);
      forall i, j :: 0 <= i < j < |r| ==> LessEq(r[j].startTime, r[i].startTime)
    ensures var r := Points(VdotRanking(activities)[..n]);
      forall p :: p in r ==> PointOf(activities, p)
  {
    var ranked := VdotRanking(activities);
    var r := Points(ranked[..n]);
    forall i, j | 0 <= i < j < |r|
      ensures LessEq(r[j].startTime, r[i].startTime)
    {
      assert NewestFirst()(ranked[i], ranked[j]);
    }
    forall p | p in r
      ensures PointOf(activities, p)
    {
      var i :| 0 <= i < |r| && r[i] == p;
      assert ranked[i] in multiset(WithVdot(activities));
    }
  }

  /** `p` is the point of one of the activities, one that has a VDOT. */
  ghost predicate PointOf(activities: seq<Activity>, p: VdotPoint)
  {
    exists a :: a in activities && HasVdot(a) && Point(a) == p
  }

  /** The default history holds at most 50 points. */
  const DefaultHistoryLimit: nat := 50

  /** Every activity with a VDOT that is left out of the history is no
      newer than any point shown, and the history is short of `limit` only
      when every activity with a VDOT is in it. */
  lemma VdotHistoryNewest(activities: seq<Activity>, limit: nat, a: Activity)
    requires a in activities && HasVdot(a)
    ensures var r := VdotHistory(activities, limit);
      Point(a) !in r ==> |r| == limit && forall i :: 0 <= i < |r| ==> LessEq(a.startTime, r[i].startTime)
  {
    var ranked := VdotRanking(activities);
    var n := if limit < |ranked| then limit else |ranked|;
    var r := VdotHistory(activities, limit);
    assert r == Points(ranked[..n]);
    assert a in WithVdot(activities);
    assert a in multiset(ranked);
    var j :| 0 <= j < |ranked| && ranked[j] == a;
    if j < n {
      assert r[j] == Point(a);
    }
    if Point(a) !in r {
      forall i | 0 <= i < |r|
        ensures LessEq(a.startTime, r[i].startTime)
      {
        assert NewestFirst()(ranked[i], ranked[j]);
        assert r[i] == Point(ranked[i]);
      }
    }
  }
}
