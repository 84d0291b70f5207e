/**
 * Validation of the query parameters of the analysis and activity routes,
 * and the small answers they build around the (unmodelled) database calls.
 * A query value that is absent is "" here wherever the route reads it
 * with `||` or `??`, since both treat the two alike for strings; the months
 * route, which tells `null` from "", reads `Option<string>`.
 */
module ApiParams {
  import opened Js
  import opened Text
  import opened JsParse

  /** A validated query, or the message of a 400 answer. */
  datatype Result<T> = Ok(value: T) | BadRequest(error: string)

  /** `/^\d{4}-\d{2}-\d{2}$/`: digits only, no calendar check. */
  predicate IsDatePattern(s: string)
  {
    |s| == 10 && s[4] == '-' && s[7] == '-' &&
    IsDigit(s[0]) && IsDigit(s[1]) && IsDigit(s[2]) && IsDigit(s[3]) &&
    IsDigit(s[5]) && IsDigit(s[6]) && IsDigit(s[8]) && IsDigit(s[9])
  }

  /** "2024-13-99" is accepted: only the shape is checked. */
  lemma NoCalendarCheck()
    ensures IsDatePattern("2024-13-99")
  {
  }

  // ---------------------------------------------------------------------
  // hr-zones and vdot-trend (the same validation)

  datatype PeriodQuery = PeriodQuery(startDate: string, endDate: string, groupBy: string)

  /** `groupBy` (default "month") must be "week" or "month"; each date,
      when given, must match the pattern; checked in that order. */
  function PeriodParams(startDate: string, endDate: string, groupByParam: string): (r: Result<PeriodQuery>)
    ensures r.Ok? <==> (
      Or(groupByParam, "month") in {"week", "month"} &&
      (startDate == "" || IsDatePattern(startDate)) &&
      (endDate == "" || IsDatePattern(endDate)))
    ensures r.Ok? ==> r.value == PeriodQuery(startDate, endDate, Or(groupByParam, "month"))
    ensures r.BadRequest? && !(Or(groupByParam, "month") in {"week", "month"}) ==>
      r.error == "groupBy must be either \"week\" or \"month\""
  {
    var groupBy := Or(groupByParam, "month");
    if groupBy != "week" && groupBy != "month" then BadRequest("groupBy must be either \"week\" or \"month\"")
    else if startDate != "" && !IsDatePattern(startDate) then BadRequest("startDate must be in YYYY-MM-DD format")
    else if endDate != "" && !IsDatePattern(endDate) then BadRequest("endDate must be in YYYY-MM-DD format")
    else Ok(PeriodQuery(startDate, endDate, groupBy))
  }

  /** With no parameter at all the query is all dates by month. */
  lemma PeriodDefaults()
    ensures PeriodParams("", "", "") == Ok(PeriodQuery("", "", "month"))
  {
  }

  /** A row of the zone statistics, as the summary reads it. */
  datatype ZoneStat = ZoneStat(period: string, activityCount: real)

  datatype DateRangeLabel = DateRangeLabel(start: string, end: string)
  datatype ZoneSummary = ZoneSummary(totalActivities: real, totalPeriods: nat, dateRange: DateRangeLabel)

  function TotalActivities(data: seq<ZoneStat>): real
  {
    if data == [] then 0.0 else TotalActivities(data[..|data| - 1]) + data[|data| - 1].activityCount
  }

  function Periods(data: seq<ZoneStat>): (r: set<string>)
    ensures forall p :: p in r <==> exists i :: 0 <= i < |data| && data[i].period == p
  {
    set i | 0 <= i < |data| :: data[i].period
  }

  /** The hr-zones summary: the summed activity counts, the number of
      distinct periods, and each date or "all". */
  function HrZoneSummary(data: seq<ZoneStat>, startDate: string, endDate: string): (r: ZoneSummary)
    ensures r.totalActivities == TotalActivities(data)
    ensures r.totalPeriods == |Periods(data)|
    ensures r.totalPeriods <= |data|
    ensures r.totalPeriods == 0 <==> data == []
    ensures r.dateRange.start == (if startDate == "" then "all" else startDate)
    ensures r.dateRange.end == (if endDate == "" then "all" else endDate)
  {
    PeriodsBound(data);
    assert data != [] ==> data[0].period in Periods(data);
    ZoneSummary(TotalActivities(data), |Periods(data)|, DateRangeLabel(Or(startDate, "all"), Or(endDate, "all")))
  }

  lemma {:induction false} PeriodsBound(data: seq<ZoneStat>)
    ensures |Periods(data)| <= |data|
  {
    if data != [] {
      var init := data[..|data| - 1];
      PeriodsBound(init);
      assert Periods(data) == Periods(init) + {data[|data| - 1].period} by {
        forall p
          ensures p in Periods(data) <==> p in Periods(init) + {data[|data| - 1].period}
        {
          if p in Periods(data) {
            var i :| 0 <= i < |data| && data[i].period == p;
            if i < |init| {
              assert init[i] == data[i];
            }
          }
          if p in Periods(init) {
            var i :| 0 <= i < |init| && init[i].period == p;
            assert data[i] == init[i];
          }
        }
      }
    }
  }

  /** Counts add up across rows: the total of two tables is the sum of their totals. */
  lemma {:induction false} TotalActivitiesAppend(a: seq<ZoneStat>, b: seq<ZoneStat>)
    ensures TotalActivities(a + b) == TotalActivities(a) + TotalActivities(b)
  {
    if b != [] {
      assert (a + b)[..|a + b| - 1] == a + b[..|b| - 1];
      TotalActivitiesAppend(a, b[..|b| - 1]);
    } else {
      assert a + b == a;
    }
  }

  /** Rows of one period count that period once. */
  lemma OnePeriod(data: seq<ZoneStat>, p: string)
    requires data != [] && forall i :: 0 <= i < |data| ==> data[i].period == p
    ensures HrZoneSummary(data, "", "").totalPeriods == 1
  {
    assert Periods(data) == {p} by {
      assert data[0].period == p;
    }
  }

  // ---------------------------------------------------------------------
  // pace-zones

  datatype PaceZoneQuery = PaceZoneQuery(vdot: real, startDate: string, endDate: string)

  /** Both dates are required and must match the pattern; `vdot` is read
      with `parseFloat` and must be a positive number. */
  function PaceZoneParams(startDate: string, endDate: string, vdotParam: string): (r: Result<PaceZoneQuery>)
    ensures r.Ok? <==> (
      IsDatePattern(startDate) && IsDatePattern(endDate) &&
      ParseFloat(vdotParam).Num? && ParseFloat(vdotParam).v > 0.0)
    ensures r.Ok? ==> r.value == PaceZoneQuery(ParseFloat(vdotParam).v, startDate, endDate)
  {
    if !IsDatePattern(startDate) || !IsDatePattern(endDate) then
      BadRequest("startDate and endDate must be YYYY-MM-DD")
    else
      var vdot := ParseFloat(vdotParam);
      if !vdot.Num? || vdot.v <= 0.0 then BadRequest("vdot must be a positive number (current running power)")
      else Ok(PaceZoneQuery(vdot.v, startDate, endDate))
  }

  /** A numeric prefix is enough: "45abc" is read as 45. */
  lemma PaceZoneNumericPrefix(startDate: string, endDate: string)
    requires IsDatePattern(startDate) && IsDatePattern(endDate)
    ensures PaceZoneParams(startDate, endDate, "45abc") == Ok(PaceZoneQuery(45.0, startDate, endDate))
  {
    assert "45abc" == NatToString(45) + "abc" by {
      assert NatToString(45) == NatToString(4) + [DigitChar(5)];
    }
    ParseFloatPrefix(45, "abc");
  }

  // ---------------------------------------------------------------------
  // activities/months

  datatype Paging = Paging(limit: Option<int>, offset: Option<int>)

  /** `limit` and `offset` are optional; when given, they are read with
      `parseInt(_, 10)`, and the limit must be 1..100 and the offset at
      least 0. */
  function MonthsParams(limitParam: Option<string>, offsetParam: Option<string>): (r: Result<Paging>)
    ensures limitParam.None? && offsetParam.None? ==> r == Ok(Paging(None, None))
    ensures r.Ok? <==>
      (limitParam.Some? ==> ParseInt10(limitParam.value).Num? && 1.0 <= ParseInt10(limitParam.value).v <= 100.0) &&
      (offsetParam.Some? ==> ParseInt10(offsetParam.value).Num? && ParseInt10(offsetParam.value).v >= 0.0)
    ensures r.Ok? && r.value.limit.Some? ==> 1 <= r.value.limit.value <= 100
    ensures r.Ok? && r.value.offset.Some? ==> r.value.offset.value >= 0
  {
    var limit := if limitParam.Some? then Some(ParseInt10(limitParam.value)) else None;
    var offset := if offsetParam.Some? then Some(ParseInt10(offsetParam.value)) else None;
    if limit.Some? && (limit.value.NaN? || limit.value.v < 1.0 || limit.value.v > 100.0) then
      BadRequest("limit must be 1–100")
    else if offset.Some? && (offset.value.NaN? || offset.value.v < 0.0) then
      BadRequest("offset must be >= 0")
    else
      Ok(Paging(if limit.Some? then Some(limit.value.v.Floor) else None,
                if offset.Some? then Some(offset.value.v.Floor) else None))
  }

  /** An empty `limit=` is given but not a number, and is refused. */
  lemma EmptyLimitRefused()
    ensures MonthsParams(Some(""), None).BadRequest?
  {
  }

  /** `getMonthSummaries` answers a plain list without paging, and a page
      with the total otherwise. */
  datatype MonthSummaries<T> = AllMonths(months: seq<T>) | MonthPage(page: seq<T>, total: int)
  datatype MonthsResponse<T> = MonthsResponse(data: seq<T>, total: Option<int>)

  function MonthsAnswer<T>(result: MonthSummaries<T>): (r: MonthsResponse<T>)
    ensures result.AllMonths? ==> r.data == result.months && r.total.None?
    ensures result.MonthPage? ==> r.data == result.page && r.total == Some(result.total)
  {
    match result
    case AllMonths(months) => MonthsResponse(months, None)
    case MonthPage(page, total) => MonthsResponse(page, Some(total))
  }

  // ---------------------------------------------------------------------
  // activities

  /** The activities query: `page` and `limit` as `parseInt` read them
      (possibly NaN), and the filters, "" when not given. */
  datatype ActivityQuery = ActivityQuery(page: JsNumber, limit: JsNumber, activityType: string,
                                         startDate: string, endDate: string)

  /** `page` defaults to 1 and must not be below 1; `limit` defaults to 20
      and must be 1..100. NaN fails no comparison and so passes. */
  function ActivitiesParams(pageParam: string, limitParam: string, typeParam: string,
                            startDate: string, endDate: string): (r: Result<ActivityQuery>)
    ensures var page := ParseInt(Or(pageParam, "1"));
      var limit := ParseInt(Or(limitParam, "20"));
      r.Ok? <==> !(page.Num? && page.v < 1.0) && !(limit.Num? && (limit.v < 1.0 || limit.v > 100.0))
    ensures r.Ok? ==> r.value.page == ParseInt(Or(pageParam, "1")) && r.value.limit == ParseInt(Or(limitParam, "20"))
    ensures r.Ok? ==> r.value.activityType == typeParam && r.value.startDate == startDate && r.value.endDate == endDate
  {
    var page := ParseInt(Or(pageParam, "1"));
    var limit := ParseInt(Or(limitParam, "20"));
    if page.Num? && page.v < 1.0 then BadRequest("Page must be >= 1")
    else if limit.Num? && (limit.v < 1.0 || limit.v > 100.0) then BadRequest("Limit must be between 1 and 100")
    else Ok(ActivityQuery(page, limit, typeParam, startDate, endDate))
  }

  /** Without parameters the first page of 20 is asked for. */
  lemma ActivitiesDefaults()
    ensures ActivitiesParams("", "", "", "", "") == Ok(ActivityQuery(Num(1.0), Num(20.0), "", "", ""))
  {
    assert NatToString(1) + "" == "1";
    assert NatToString(20) == NatToString(2) + [DigitChar(0)];
    assert NatToString(20) + "" == "20";
    ParseIntPrefix(1, "");
    ParseIntPrefix(20, "");
  }

  /** A page or limit that is not a number passes validation as NaN. */
  lemma ActivitiesNaNAccepted()
    ensures ActivitiesParams("abc", "abc", "", "", "").Ok?
    ensures ActivitiesParams("abc", "abc", "", "", "").value.page == NaN
  {
    assert Or("abc", "1") == "abc" && Or("abc", "20") == "abc";
    assert TrimStart("abc") == "abc";
    assert Unsigned("abc") == "abc";
    assert !HexPrefixed("abc");
    assert LeadingDigits("abc") == [];
    assert ParseInt("abc") == NaN;
  }

  // ---------------------------------------------------------------------
  // vdot

  /** `limit` defaults to 50 and must be 1..500; NaN passes. */
  function VdotParams(limitParam: string): (r: Result<JsNumber>)
    ensures var limit := ParseInt(Or(limitParam, "50"));
      r.Ok? <==> !(limit.Num? && (limit.v < 1.0 || limit.v > 500.0))
    ensures r.Ok? ==> r.value == ParseInt(Or(limitParam, "50"))
  {
    var limit := ParseInt(Or(limitParam, "50"));
    if limit.Num? && (limit.v < 1.0 || limit.v > 500.0) then BadRequest("Limit must be between 1 and 500")
    else Ok(limit)
  }

  /** Without a limit the 50 newest values are asked for. */
  lemma VdotDefault()
    ensures VdotParams("") == Ok(Num(50.0))
  {
    assert NatToString(50) == "50" by {
      assert NatToString(50) == NatToString(5) + [DigitChar(0)];
    }
    ParseIntPrefix(50, "");
    assert NatToString(50) + "" == "50";
  }

  /** Routes that answer a list also answer its length. */
  datatype CountedAnswer<T> = CountedAnswer(data: seq<T>, count: nat)

  function Counted<T>(data: seq<T>): (r: CountedAnswer<T>)
    ensures r.data == data && r.count == |r.data|
  {
    CountedAnswer(data, |data|)
  }
}
