/**
 * The activity list page: the date range of a month, the type filter and
 * name search over a month's activities with their newest-first order, the
 * type options of the filter, and the guard in front of loading more months.
 *
 * Start times are given as milliseconds since the epoch (the `Date`
 * parsing is not modelled); a missing type or name is "".
 */
module ListPage {
  import opened Js
  import opened Text
  import Sorting

  const MonthsPageSize: nat := 6

  predicate IsLeapYear(y: int)
  {
    y % 4 == 0 && (y % 100 != 0 || y % 400 == 0)
  }

  /** Days in month `m` (1..12) of year `y`, by the Gregorian rule. */
  function DaysInMonth(y: int, m: int): (r: int)
    requires 1 <= m <= 12
    ensures 28 <= r <= 31
    ensures m == 2 ==> (r == 29 <==> IsLeapYear(y))
    ensures m != 2 ==> (r == 30 <==> m in {4, 6, 9, 11})
  {
    if m == 2 then (if IsLeapYear(y) then 29 else 28)
    else if m in {4, 6, 9, 11} then 30
    else 31
  }

  /** The full year the `Date` constructor uses for a year argument: a
      year from 0 to 99 is read as 1900 plus that year. */
  function DateYear(y: int): (r: int)
    ensures 0 <= y <= 99 ==> r == 1900 + y
    ensures (y < 0 || y > 99) ==> r == y
  {
    if 0 <= y <= 99 then 1900 + y else y
  }

  /** `new Date(y, m, 0).getDate()`: the last day of the month before
      month index `m` (0-based), that is of 1-based month `m` of the year
      `DateYear(y)`, with months outside 1..12 rolling over into
      neighbouring years. */
  function LastDay(y: int, m: int): (r: int)
    ensures 1 <= m <= 12 ==> r == DaysInMonth(DateYear(y), m)
    ensures 1 <= m <= 12 && (y < 0 || y > 99) ==> r == DaysInMonth(y, m)
    ensures 28 <= r <= 31
  {
    DaysInMonth(DateYear(y) + (m - 1) / 12, (m - 1) % 12 + 1)
  }

  /** The year 0 is a leap year, but the constructor reads it as 1900,
      which is not, so February of year 0 ends on the 28th; month 14 of
      year 99 rolls over into February 2000, which ends on the 29th. */
  lemma LastDayTwoDigitYear()
    ensures IsLeapYear(0) && !IsLeapYear(1900)
    ensures LastDay(0, 2) == 28 && LastDay(2000, 2) == 29
    ensures LastDay(99, 14) == 29
  {
  }

  function Field2(n: int): (r: string)
  {
    PadStart(IntToString(n), 2, '0')
  }

  datatype DateRange = DateRange(startDate: string, endDate: string)

  /** `monthToRange` on the parsed year and month of a "YYYY-MM" key. */
  function MonthToRange(y: int, m: int): DateRange
  {
    var prefix := IntToString(y) + "-" + Field2(m) + "-";
    DateRange(prefix + "01", prefix + Field2(LastDay(y, m)))
  }

  /** For a month 1..12 both dates share the "YYYY-MM-" prefix, with the
      month on two digits, and end on the month's last day by the leap rule
      of the year the `Date` constructor reads. */
  lemma MonthRangeShape(y: int, m: int)
    requires 1 <= m <= 12
    ensures var r := MonthToRange(y, m);
      var prefix := IntToString(y) + "-" + Pad2(m) + "-";
      r.startDate == prefix + "01" && r.endDate == prefix + Pad2(DaysInMonth(DateYear(y), m))
    ensures |Pad2(m)| == 2 && |Pad2(DaysInMonth(DateYear(y), m))| == 2
  {
    assert Field2(m) == Pad2(m);
    assert Field2(DaysInMonth(DateYear(y), m)) == Pad2(DaysInMonth(DateYear(y), m));
  }

  // ---------------------------------------------------------------------
  // Filtering and ordering a month's activities

  datatype ListActivity = ListActivity(activityType: string, name: string, startMillis: int)

  /** `a.activity_type || '跑步'`. */
  function TypeOf(a: ListActivity): string
  {
    if a.activityType != "" then a.activityType else "跑步"
  }

  /** `s.includes(q)`. */
  predicate Includes(s: string, q: string)
  {
    q <= s || (s != [] && Includes(s[1..], q))
  }

  predicate TypeMatches(a: ListActivity, typeFilter: string)
  {
    typeFilter == "all" || TypeOf(a) == typeFilter
  }

  predicate SearchMatches(a: ListActivity, searchQuery: string)
  {
    Trim(searchQuery) == "" || Includes(Lower(a.name), Lower(Trim(searchQuery)))
  }

  function ByTypeFilter(list: seq<ListActivity>, typeFilter: string): (r: seq<ListActivity>)
    ensures forall a :: a in r <==> a in list && TypeOf(a) == typeFilter
    ensures forall a :: multiset(r)[a] == if TypeOf(a) == typeFilter then multiset(list)[a] else 0
  {
    if list == [] then []
    else
      var rest := ByTypeFilter(list[1..], typeFilter);
      assert list == [list[0]] + list[1..];
      if TypeOf(list[0]) == typeFilter then [list[0]] + rest else rest
  }

  function ByName(list: seq<ListActivity>, q: string): (r: seq<ListActivity>)
    ensures forall a :: a in r <==> a in list && Includes(Lower(a.name), q)
    ensures forall a :: multiset(r)[a] == if Includes(Lower(a.name), q) then multiset(list)[a] else 0
  {
    if list == [] then []
    else
      var rest := ByName(list[1..], q);
      assert list == [list[0]] + list[1..];
      if Includes(Lower(list[0].name), q) then [list[0]] + rest else rest
  }

  /** Newer first: `y.time - x.time` as the comparator. */
  function NewestFirst(): (ListActivity, ListActivity) -> bool
  {
    (x: ListActivity, y: ListActivity) => x.startMillis >= y.startMillis
  }

  /** `filteredItemsForMonth`: nothing while no month is expanded; else the
      month's activities narrowed by type and by name, newest first. */
  function FilteredItems(expanded: string, byMonth: map<string, seq<ListActivity>>,
                         typeFilter: string, searchQuery: string): (r: seq<ListActivity>)
    ensures expanded == "" ==> r == []
    ensures Sorting.SortedBy(r, NewestFirst())
  {
    if expanded == "" then []
    else
      var list := if expanded in byMonth then byMonth[expanded] else [];
      var byType := if typeFilter != "all" then ByTypeFilter(list, typeFilter) else list;
      var out := if Trim(searchQuery) != "" then ByName(byType, Lower(Trim(searchQuery))) else byType;
      assert Sorting.TotalPreorder(NewestFirst());
      Sorting.InsertionSort(out, NewestFirst())
  }

  /** The shown activities are exactly the expanded month's activities of
      the chosen type whose name contains the trimmed query (ignoring
      case), each as often as in the month, newest first. */
  lemma FilteredItemsMembers(expanded: string, byMonth: map<string, seq<ListActivity>>,
                             typeFilter: string, searchQuery: string, a: ListActivity)
    requires expanded != ""
    ensures var list := if expanded in byMonth then byMonth[expanded] else [];
      a in FilteredItems(expanded, byMonth, typeFilter, searchQuery) <==>
        a in list && TypeMatches(a, typeFilter) && SearchMatches(a, searchQuery)
    ensures var list := if expanded in byMonth then byMonth[expanded] else [];
      multiset(FilteredItems(expanded, byMonth, typeFilter, searchQuery))[a] ==
        if TypeMatches(a, typeFilter) && SearchMatches(a, searchQuery) then multiset(list)[a] else 0
  {
    var list := if expanded in byMonth then byMonth[expanded] else [];
    var byType := if typeFilter != "all" then ByTypeFilter(list, typeFilter) else list;
    var out := if Trim(searchQuery) != "" then ByName(byType, Lower(Trim(searchQuery))) else byType;
    assert Sorting.TotalPreorder(NewestFirst());
    Sorting.SortedMembers(out, NewestFirst(), a);
  }

  /** With the type "all" and a blank query, the whole month is shown. */
  lemma NoFilterShowsMonth(expanded: string, byMonth: map<string, seq<ListActivity>>, searchQuery: string)
    requires expanded in byMonth && expanded != "" && Trim(searchQuery) == ""
    ensures multiset(FilteredItems(expanded, byMonth, "all", searchQuery)) == multiset(byMonth[expanded])
  {
  }

  // ---------------------------------------------------------------------
  // Type options

  /** The comparator of the default `Array.prototype.sort` on strings. */
  function ByString(): (string, string) -> bool
  {
    (a: string, b: string) => LessEq(a, b)
  }

  lemma ByStringTotal()
    ensures Sorting.TotalPreorder(ByString())
  {
    forall a: string, b: string
      ensures LessEq(a, b) || LessEq(b, a)
    {
      LessTotal(a, b);
    }
    forall a: string, b: string, c: string | LessEq(a, b) && LessEq(b, c)
      ensures LessEq(a, c)
    {
      if a != b && b != c {
        LessTransitive(a, b, c);
      }
    }
  }

  /** `typeOptions`: "all", then each type that occurs (a missing one as
      '跑步') once, in string order. The loop is the `forEach` into a `Set`. */
  method TypeOptions(activities: seq<ListActivity>) returns (options: seq<string>)
    ensures |options| >= 1 && options[0] == "all"
    ensures forall t :: t in options[1..] <==> exists a :: a in activities && TypeOf(a) == t
    ensures forall i, j :: 1 <= i < j < |options| ==> Less(options[i], options[j])
  {
    var seen: seq<string> := [];
    var i := 0;
    while i < |activities|
      invariant 0 <= i <= |activities|
      invariant forall t :: t in seen <==> exists a :: a in activities[..i] && TypeOf(a) == t
      invariant forall j, k :: 0 <= j < k < |seen| ==> seen[j] != seen[k]
    {
      var t := TypeOf(activities[i]);
      assert activities[..i + 1] == activities[..i] + [activities[i]];
      if t !in seen {
        seen := seen + [t];
      }
      i := i + 1;
    }
    assert activities[..i] == activities;
    ByStringTotal();
    var sorted := Sorting.InsertionSort(seen, ByString());
    forall t
      ensures t in sorted <==> t in seen
    {
      Sorting.SortedMembers(seen, ByString(), t);
    }
    DistinctSorted(seen, sorted);
    options := ["all"] + sorted;
    assert options[1..] == sorted;
  }

  /** A sorted permutation of distinct strings is strictly increasing. */
  lemma DistinctSorted(seen: seq<string>, sorted: seq<string>)
    requires forall j, k :: 0 <= j < k < |seen| ==> seen[j] != seen[k]
    requires multiset(sorted) == multiset(seen)
    requires Sorting.SortedBy(sorted, ByString())
    ensures forall i, j :: 0 <= i < j < |sorted| ==> Less(sorted[i], sorted[j])
  {
    forall i, j | 0 <= i < j < |sorted|
      ensures Less(sorted[i], sorted[j])
    {
      assert LessEq(sorted[i], sorted[j]);
      if sorted[i] == sorted[j] {
        var x := sorted[i];
        assert multiset(sorted)[x] >= 2 by {
          assert sorted == sorted[..i] + [x] + sorted[i + 1..j] + [x] + sorted[j + 1..];
        }
        DistinctCount(seen, x);
        assert false;
      }
    }
  }

  /** In a sequence without repeats, every element occurs at most once. */
  lemma {:induction false} DistinctCount(s: seq<string>, x: string)
    requires forall j, k :: 0 <= j < k < |s| ==> s[j] != s[k]
    ensures multiset(s)[x] <= 1
  {
    if s != [] {
      var init := s[..|s| - 1];
      DistinctCount(init, x);
      assert s == init + [s[|s| - 1]];
      if s[|s| - 1] == x {
        assert x !in init;
      }
    }
  }

  // ---------------------------------------------------------------------
  // Loading more months

  datatype MonthsRequest = MonthsRequest(limit: nat, offset: nat)

  /** `loadMoreMonths`' guard: nothing while a load is running or once all
      months are loaded; otherwise the next page from the loaded count. */
  function LoadMoreMonths(loadingMore: bool, loadingSummaries: bool, loaded: nat, totalMonths: int)
    : (r: Option<MonthsRequest>)
    ensures r.None? <==> loadingMore || loadingSummaries || loaded >= totalMonths
    ensures r.Some? ==> r.value.offset == loaded && r.value.limit == MonthsPageSize
  {
    if loadingMore || loadingSummaries then None
    else if loaded >= totalMonths then None
    else Some(MonthsRequest(MonthsPageSize, loaded))
  }
}
