/**
 * The scenario filter of src/scenario/scenario-filter.ts: which routes,
 * stops and flex areas stay marked under the user's selections, and the
 * per-stop visit counters the stop filter reads.
 *
 * A selection that is `None` is a filter not applied; `Some([])` is a
 * filter applied with nothing selected.
 */
module ScenarioFilter {
  import opened Wrappers
  import opened RouteHeadway
  import Calendar
  import CoreDatetime
  import DepartureCache
  import FlexTypes
  import AgencyAggregation

  /** The user's selections as the filters receive them. */
  datatype Selection = Selection(
    weekdays: Option<seq<string>>, weekdayMode: Option<string>,
    routeTypes: Option<seq<int>>, agencies: Option<seq<string>>,
    frequencyUnder: Option<real>, frequencyOver: Option<real>)

  /** The `getDay()` number of a weekday name; `None` for any other string. */
  function DayIndex(name: string): (r: Option<int>)
    ensures r.Some? ==> 0 <= r.value < 7 && Calendar.DayNames[r.value] == name
    ensures r.None? ==> name !in Calendar.DayNames
  {
    if name == "sunday" then Some(0)
    else if name == "monday" then Some(1)
    else if name == "tuesday" then Some(2)
    else if name == "wednesday" then Some(3)
    else if name == "thursday" then Some(4)
    else if name == "friday" then Some(5)
    else if name == "saturday" then Some(6)
    else None
  }

  /** The day index of each name is where it stands in the list of day names. */
  lemma DayIndexOfDayName(w: int)
    requires 0 <= w < 7
    ensures DayIndex(Calendar.DayNames[w]) == Some(w)
  {
  }

  //////////////////////////////////////////////////////////////////////
  // Routes
  //////////////////////////////////////////////////////////////////////

  /**
   * A route feature: the fields the filters read, and those
   * `routeSetDerived` sets (its headways, its frequencies in seconds and
   * whether it stays marked).
   */
  class Route {
    const id: int
    const routeType: int
    const agencyName: string
    var headways: RouteHeadwaySummary
    var averageFrequency: Option<real>
    var fastestFrequency: Option<int>
    var slowestFrequency: Option<int>
    var marked: bool

    /** A headway summary always holds the seven day buckets. */
    predicate Valid()
      reads this
    {
      |headways.byDay| == 7
    }

    /** A route as the filter starts from it: marked, no frequencies, the empty summary. */
    constructor (id: int, routeType: int, agencyName: string)
      ensures Valid()
      ensures this.id == id && this.routeType == routeType && this.agencyName == agencyName
      ensures headways == NewRouteHeadwaySummary() && marked
      ensures averageFrequency.None? && fastestFrequency.None? && slowestFrequency.None?
    {
      this.id := id;
      this.routeType := routeType;
      this.agencyName := agencyName;
      headways := NewRouteHeadwaySummary();
      averageFrequency := None;
      fastestFrequency := None;
      slowestFrequency := None;
      marked := true;
    }
  }

  /** Whether a route has a departure, in either direction, on the named weekday; never for another name. */
  predicate RouteServesDay(h: RouteHeadwaySummary, name: string)
    requires |h.byDay| == 7
  {
    var w := DayIndex(name);
    w.Some? && (h.byDay[w.value].dir0.departures != [] || h.byDay[w.value].dir1.departures != [])
  }

  /**
   * The weekday check of `routeMarked`: no selection passes; an empty
   * selection fails; 'Any' needs service on some selected day, 'All' on
   * every selected day, and any other mode fails.
   */
  predicate RouteDaysPass(h: RouteHeadwaySummary, weekdays: Option<seq<string>>, mode: Option<string>)
    requires |h.byDay| == 7
  {
    weekdays.None? ||
    (|weekdays.value| > 0 &&
     ((mode == Some("Any") && exists i :: 0 <= i < |weekdays.value| && RouteServesDay(h, weekdays.value[i])) ||
      (mode == Some("All") && forall i :: 0 <= i < |weekdays.value| ==> RouteServesDay(h, weekdays.value[i]))))
  }

  /**
   * A frequency bound that applies needs an average that is present and
   * not 0 (JavaScript falsiness) on the right side of `minutes * 60`.
   */
  predicate FrequencyPasses(average: Option<real>, bound: Option<real>, over: bool)
  {
    bound.None? ||
    (average.Some? && average.value != 0.0 &&
     if over then average.value >= bound.value * 60.0 else average.value <= bound.value * 60.0)
  }

  /**
   * Whether `routeMarked` keeps a route: the weekday check, the route-type
   * and agency-name memberships (each passing when not applied), and, only
   * when departure data is loaded, the two frequency bounds.
   */
  predicate RouteMarks(h: RouteHeadwaySummary, routeType: int, agencyName: string, average: Option<real>,
                       s: Selection, hasDepartures: bool)
    requires |h.byDay| == 7
  {
    && RouteDaysPass(h, s.weekdays, s.weekdayMode)
    && (s.routeTypes.None? || routeType in s.routeTypes.value)
    && (s.agencies.None? || agencyName in s.agencies.value)
    && (!hasDepartures || FrequencyPasses(average, s.frequencyOver, true))
    && (!hasDepartures || FrequencyPasses(average, s.frequencyUnder, false))
  }

  /** `routeMarked`: the weekday loop with its `hasAny` / `hasAll` flags, then the other filters in turn. */
  method RouteMarked(route: Route, s: Selection, hasDepartures: bool) returns (marked: bool)
    requires route.Valid()
    ensures marked == RouteMarks(route.headways, route.routeType, route.agencyName, route.averageFrequency, s, hasDepartures)
  {
    var h := route.headways;
    if s.weekdays.Some? {
      var selected := s.weekdays.value;
      if |selected| == 0 {
        return false;
      }
      var hasAny := false;
      var hasAll := true;
      for i := 0 to |selected|
        invariant hasAny <==> exists j :: 0 <= j < i && RouteServesDay(h, selected[j])
        invariant hasAll <==> forall j :: 0 <= j < i ==> RouteServesDay(h, selected[j])
      {
        var w := DayIndex(selected[i]);
        var hasService := false;
        if w.Some? {
          var dayHeadways := h.byDay[w.value];
          hasService := |dayHeadways.dir0.departures| > 0 || |dayHeadways.dir1.departures| > 0;
        }
        if hasService {
          hasAny := true;
        } else {
          hasAll := false;
        }
      }
      var found := false;
      if s.weekdayMode == Some("Any") {
        found := hasAny;
      } else if s.weekdayMode == Some("All") {
        found := hasAll;
      }
      if !found {
        return false;
      }
    }
    if s.routeTypes.Some? && route.routeType !in s.routeTypes.value {
      return false;
    }
    if s.agencies.Some? && route.agencyName !in s.agencies.value {
      return false;
    }
    var average := route.averageFrequency;
    if hasDepartures && s.frequencyOver.Some? {
      if average.None? || average.value == 0.0 || average.value < s.frequencyOver.value * 60.0 {
        return false;
      }
    }
    if hasDepartures && s.frequencyUnder.Some? {
      if average.None? || average.value == 0.0 || average.value > s.frequencyUnder.value * 60.0 {
        return false;
      }
    }
    return true;
  }

  /** An empty weekday selection unmarks every route; with no selection the weekday check is skipped. */
  lemma RouteWeekdaySelection(h: RouteHeadwaySummary, mode: Option<string>)
    requires |h.byDay| == 7
    ensures !RouteDaysPass(h, Some([]), mode)
    ensures RouteDaysPass(h, None, mode)
  {
  }

  /** With some weekdays selected, a mode other than 'Any' and 'All' unmarks the route; 'All' implies 'Any'. */
  lemma RouteWeekdayModes(h: RouteHeadwaySummary, weekdays: seq<string>, mode: Option<string>)
    requires |h.byDay| == 7
    ensures mode != Some("Any") && mode != Some("All") ==> !RouteDaysPass(h, Some(weekdays), mode)
    ensures RouteDaysPass(h, Some(weekdays), Some("All")) ==> RouteDaysPass(h, Some(weekdays), Some("Any"))
  {
    if RouteDaysPass(h, Some(weekdays), Some("All")) {
      assert RouteServesDay(h, weekdays[0]);
    }
  }

  /**
   * The route-type and agency filters each pass when not applied and
   * otherwise need membership; without departure data the frequency bounds
   * are ignored, and with it an applied bound unmarks a route whose average
   * is missing or 0.
   */
  lemma RouteOtherFilters(h: RouteHeadwaySummary, routeType: int, agencyName: string, average: Option<real>,
                          s: Selection, hasDepartures: bool)
    requires |h.byDay| == 7
    ensures RouteMarks(h, routeType, agencyName, average, s, hasDepartures) ==>
              (s.routeTypes.None? || routeType in s.routeTypes.value)
              && (s.agencies.None? || agencyName in s.agencies.value)
    ensures !hasDepartures ==>
              (RouteMarks(h, routeType, agencyName, average, s, false) <==>
               RouteDaysPass(h, s.weekdays, s.weekdayMode)
               && (s.routeTypes.None? || routeType in s.routeTypes.value)
               && (s.agencies.None? || agencyName in s.agencies.value))
    ensures hasDepartures && (s.frequencyOver.Some? || s.frequencyUnder.Some?)
            && (average.None? || average == Some(0.0)) ==>
              !RouteMarks(h, routeType, agencyName, average, s, hasDepartures)
  {
  }

  /** The departures `routeSetDerived` takes the frequencies from: direction 1's only when it has strictly more. */
  function BusierDirection(total: Directions): (deps: seq<int>)
    ensures |deps| >= |total.dir0.departures| && |deps| >= |total.dir1.departures|
    ensures |total.dir1.departures| <= |total.dir0.departures| ==> deps == total.dir0.departures
  {
    if |total.dir1.departures| > |total.dir0.departures| then total.dir1.departures else total.dir0.departures
  }

  /**
   * `routeSetDerived`, with the departure index built from the loaded stop
   * departures: when there is one, the route's headways are recomputed and
   * its frequencies are the statistics of the busier direction's
   * departures (all cleared when there are none); then the route is
   * marked or not by `routeMarked`.
   */
  method RouteSetDerived(route: Route, dates: seq<Calendar.Date>, startTime: Option<string>, endTime: Option<string>,
                         s: Selection, routeIndex: Option<RouteIndex>)
    requires route.Valid()
    modifies route
    ensures route.Valid()
    ensures routeIndex.None? ==>
      route.headways == old(route.headways) && route.averageFrequency == old(route.averageFrequency) &&
      route.fastestFrequency == old(route.fastestFrequency) && route.slowestFrequency == old(route.slowestFrequency)
    ensures routeIndex.Some? ==>
      && route.headways == RouteHeadwaysOf(route.id, dates, startTime, endTime, routeIndex)
      && FrequenciesFrom(route, HeadwayStatsOf(BusierDirection(route.headways.total)))
    ensures route.marked == RouteMarks(route.headways, route.routeType, route.agencyName, route.averageFrequency, s, routeIndex.Some?)
  {
    if routeIndex.Some? {
      var headwayResult := RouteHeadways(route.id, dates, startTime, endTime, routeIndex);
      route.headways := headwayResult;
      var hwTotal := headwayResult.total;
      var deps := hwTotal.dir0.departures;
      if |hwTotal.dir1.departures| > |hwTotal.dir0.departures| {
        deps := hwTotal.dir1.departures;
      }
      SetFrequencies(route, deps);
    }
    route.marked := RouteMarked(route, s, routeIndex.Some?);
  }

  /** The frequencies of a route once set from the statistics of some departures. */
  predicate FrequenciesFrom(route: Route, stats: Option<HeadwayStats>)
    reads route
  {
    if stats.Some? then
      route.averageFrequency == Some(stats.value.average) &&
      route.fastestFrequency == Some(stats.value.fastest) && route.slowestFrequency == Some(stats.value.slowest)
    else
      route.averageFrequency.None? && route.fastestFrequency.None? && route.slowestFrequency.None?
  }

  /** The frequency assignments of `routeSetDerived`: the statistics, or all three cleared. */
  method SetFrequencies(route: Route, deps: seq<int>)
    modifies route
    ensures FrequenciesFrom(route, HeadwayStatsOf(deps))
    ensures route.headways == old(route.headways)
  {
    var stats := CalculateHeadwayStats(deps);
    if stats.Some? {
      route.averageFrequency := Some(stats.value.average);
      route.fastestFrequency := Some(stats.value.fastest);
      route.slowestFrequency := Some(stats.value.slowest);
    } else {
      route.averageFrequency := None;
      route.fastestFrequency := None;
      route.slowestFrequency := None;
    }
  }

  /**
   * Derived frequencies are ordered: at least two minutes, fastest <=
   * average <= slowest.  So an average that is present is never 0, and the
   * falsiness test in the frequency filters only ever rejects a missing one.
   */
  lemma DerivedFrequenciesOrdered(total: Directions)
    requires HeadwayStatsOf(BusierDirection(total)).Some?
    ensures var st := HeadwayStatsOf(BusierDirection(total)).value;
      MinHeadwaySeconds as real <= st.fastest as real <= st.average <= st.slowest as real && st.average != 0.0
  {
    StatsBounds(BusierDirection(total));
  }

  /**
   * `routeHeadways` as `routeSetDerived` calls it: it is handed the stop
   * departure cache where it expects the route departure index, and the
   * cache has no `getRouteDate`.  With no dates the loops never run and the
   * empty summary comes back; with any date the first lookup throws.
   */
  function RouteHeadwaysGivenCache(dates: seq<Calendar.Date>): (r: Result<RouteHeadwaySummary, string>)
  {
    if |dates| == 0 then Ok(NewRouteHeadwaySummary())
    else Err("routeIndex.getRouteDate is not a function")
  }

  /**
   * The input that shows it: a single selected date.  As written the call
   * fails, while over a departure index the same call yields a summary
   * whose total holds exactly the representative stop's departures of that
   * date, in the window and ascending.
   */
  lemma CacheForIndexFails(routeId: int, d: Calendar.Date, index: RouteIndex)
    ensures RouteHeadwaysGivenCache([d]).Err?
    ensures var r := RouteHeadwaysOf(routeId, [d], None, None, Some(index));
      var q := HeadwayQuery(index, routeId, CoreDatetime.ParseHMS(Some("00:00:00")), CoreDatetime.ParseHMS(Some("24:00:00")));
      r.total.dir0.departures == DateDepartures(q, 0, d) && r.total.dir1.departures == DateDepartures(q, 1, d)
  {
    var q := HeadwayQuery(index, routeId, CoreDatetime.ParseHMS(Some("00:00:00")), CoreDatetime.ParseHMS(Some("24:00:00")));
    TotalOfOneDate(routeId, d, index);
    BucketOneDate(q, 0, d);
    BucketOneDate(q, 1, d);
  }

  lemma TotalOfOneDate(routeId: int, d: Calendar.Date, index: RouteIndex)
    ensures var q := HeadwayQuery(index, routeId, CoreDatetime.ParseHMS(Some("00:00:00")), CoreDatetime.ParseHMS(Some("24:00:00")));
      RouteHeadwaysOf(routeId, [d], None, None, Some(index)).total == Directions(Bucket(q, 0, [d], None), Bucket(q, 1, [d], None))
  {
    assert OrElse(None, "00:00:00") == "00:00:00" && OrElse(None, "24:00:00") == "24:00:00";
    assert [d][..1] == [d];
  }

  lemma BucketOneDate(q: HeadwayQuery, dir: int, d: Calendar.Date)
    ensures Bucket(q, dir, [d], None).departures == DateDepartures(q, dir, d)
  {
    BucketStep(q, dir, [d], 0, None);
  }

  //////////////////////////////////////////////////////////////////////
  // Stop visits
  //////////////////////////////////////////////////////////////////////

  /** One bucket of visit counters; the average is undefined until a date is counted. */
  datatype StopVisitCounts = StopVisitCounts(visitCount: nat, dateCount: nat, visitAverage: Option<real>, allDateService: bool)

  /** The counters over all counted dates and per weekday (`byDay[getDay()]`). */
  datatype StopVisitSummary = StopVisitSummary(total: StopVisitCounts, byDay: seq<StopVisitCounts>)

  function NewStopVisitCounts(): StopVisitCounts
  {
    StopVisitCounts(0, 0, None, true)
  }

  /** `newStopVisitSummary()`: eight fresh buckets. */
  function NewStopVisitSummary(): (r: StopVisitSummary)
    ensures |r.byDay| == 7
  {
    StopVisitSummary(NewStopVisitCounts(), seq(7, _ => NewStopVisitCounts()))
  }

  /** `checkDiv`: 0 for a zero divisor, otherwise the quotient. */
  function CheckDiv(a: int, b: int): (r: real)
    ensures b == 0 ==> r == 0.0
  {
    if b == 0 then 0.0 else a as real / b as real
  }

  /** For a non-zero divisor the result times the divisor gives the dividend back. */
  lemma CheckDivInverse(a: int, b: int)
    requires b != 0
    ensures CheckDiv(a, b) * b as real == a as real
  {
  }

  /** `parseHMS(st.departure_time)` for each departure, in order. */
  function DepartureTimes(deps: seq<DepartureCache.StopTime>): (r: seq<int>)
    ensures |r| == |deps|
  {
    seq(|deps|, i requires 0 <= i < |deps| => CoreDatetime.ParseHMS(Some(deps[i].departureTime)))
  }

  /** The number of times in `start..end`, both ends included. */
  function CountInWindow(times: seq<int>, start: int, end: int): (n: nat)
    ensures n <= |times|
  {
    if times == [] then 0
    else
      var t := times[|times| - 1];
      CountInWindow(times[..|times| - 1], start, end) + (if start <= t <= end then 1 else 0)
  }

  /** The positions of the times in the window. */
  function InWindowIndices(times: seq<int>, start: int, end: int): set<int>
  {
    set i | 0 <= i < |times| && start <= times[i] <= end
  }

  /** The count is the number of times in the window. */
  lemma {:induction false} CountIsInWindowTimes(times: seq<int>, start: int, end: int)
    ensures CountInWindow(times, start, end) == |InWindowIndices(times, start, end)|
  {
    if times != [] {
      var p := times[..|times| - 1];
      var n := |times| - 1;
      CountIsInWindowTimes(p, start, end);
      var before := InWindowIndices(p, start, end);
      var after := InWindowIndices(times, start, end);
      assert forall i :: 0 <= i < |p| ==> p[i] == times[i];
      if start <= times[n] <= end {
        assert after == before + {n};
      } else {
        assert after == before;
      }
    }
  }

  /** The counting loop of `stopVisits` over one date's departure times. */
  method CountDepartures(times: seq<int>, start: int, end: int) returns (count: nat)
    ensures count == CountInWindow(times, start, end)
  {
    count := 0;
    for i := 0 to |times|
      invariant count == CountInWindow(times[..i], start, end)
    {
      assert times[..i + 1][..i] == times[..i];
      var depTime := times[i];
      if depTime >= start && depTime <= end {
        count := count + 1;
      }
    }
    assert times[..|times|] == times;
  }

  /** Whether a date's weekday is among the selected weekday names (never without a selection). */
  predicate DateCounted(weekdays: Option<seq<string>>, d: Calendar.Date)
  {
    weekdays.Some? && Calendar.DayNames[Calendar.Weekday(d)] in weekdays.value
  }

  /** The departures of the stop on a date inside the window. */
  function DateVisits(stopId: int, d: Calendar.Date, start: int, end: int, cache: DepartureCache.StopDates): nat
  {
    CountInWindow(DepartureTimes(DepartureCache.Lookup(cache, stopId, Calendar.FmtDate(d))), start, end)
  }

  /** The visits of the stop on each date, as one function of the date. */
  function VisitsOn(stopId: int, start: int, end: int, cache: DepartureCache.StopDates): Calendar.Date -> nat
  {
    d => DateVisits(stopId, d, start, end, cache)
  }

  /**
   * One more counted date with `count` visits: one more date, `count` more
   * visits and the average recomputed; in a weekday bucket a date without
   * visits also clears `all_date_service`.
   */
  function Tally(c: StopVisitCounts, count: nat, dayBucket: bool): StopVisitCounts
  {
    var visits := c.visitCount + count;
    var dates := c.dateCount + 1;
    StopVisitCounts(visits, dates, Some(CheckDiv(visits, dates)), if dayBucket && count == 0 then false else c.allDateService)
  }

  /** A counted date of weekday `w`: into the total and into bucket `w`. */
  function AddDate(prev: StopVisitSummary, w: int, count: nat): (r: StopVisitSummary)
    requires |prev.byDay| == 7 && 0 <= w < 7
    ensures |r.byDay| == 7
  {
    StopVisitSummary(Tally(prev.total, count, false), prev.byDay[w := Tally(prev.byDay[w], count, true)])
  }

  /**
   * The visit counters after the given dates, where `visitsOn` gives the
   * departures in the window on a date.
   */
  function VisitsOf(weekdays: Option<seq<string>>, dates: seq<Calendar.Date>, visitsOn: Calendar.Date -> nat): (r: StopVisitSummary)
    ensures |r.byDay| == 7
  {
    if dates == [] then NewStopVisitSummary()
    else
      var prev := VisitsOf(weekdays, dates[..|dates| - 1], visitsOn);
      var d := dates[|dates| - 1];
      if !DateCounted(weekdays, d) then prev
      else AddDate(prev, Calendar.Weekday(d), visitsOn(d))
  }

  /** The update of `stopVisits` for one counted date. */
  method CountDate(result: StopVisitSummary, w: int, count: nat) returns (r: StopVisitSummary)
    requires |result.byDay| == 7 && 0 <= w < 7
    ensures r == AddDate(result, w, count)
  {
    var total := result.total;
    total := total.(dateCount := total.dateCount + 1, visitCount := total.visitCount + count);
    total := total.(visitAverage := Some(CheckDiv(total.visitCount, total.dateCount)));
    var resultDay := result.byDay[w];
    resultDay := resultDay.(dateCount := resultDay.dateCount + 1, visitCount := resultDay.visitCount + count);
    resultDay := resultDay.(visitAverage := Some(CheckDiv(resultDay.visitCount, resultDay.dateCount)));
    if count == 0 {
      resultDay := resultDay.(allDateService := false);
    }
    r := StopVisitSummary(total, result.byDay[w := resultDay]);
  }

  /**
   * `stopVisits`: without departure data the fresh summary; otherwise, for
   * each date whose weekday is selected, the departures at the stop on that
   * date inside the parsed window are counted into the total and into the
   * date's weekday bucket.
   */
  method StopVisits(stopId: int, weekdays: Option<seq<string>>, dateRange: Option<seq<Calendar.Date>>,
                    startTime: Option<string>, endTime: Option<string>, sdCache: DepartureCache.StopDepartureCache?)
    returns (result: StopVisitSummary)
    ensures sdCache == null ==> result == NewStopVisitSummary()
    ensures sdCache != null ==> result == VisitsOf(weekdays, if dateRange.Some? then dateRange.value else [],
      VisitsOn(stopId, CoreDatetime.ParseHMS(startTime), CoreDatetime.ParseHMS(endTime), sdCache.cache))
  {
    result := NewStopVisitSummary();
    if sdCache == null {
      return;
    }
    var startSecs := CoreDatetime.ParseHMS(startTime);
    var endSecs := CoreDatetime.ParseHMS(endTime);
    var dates := if dateRange.Some? then dateRange.value else [];
    ghost var visitsOn := VisitsOn(stopId, startSecs, endSecs, sdCache.cache);
    for i := 0 to |dates|
      invariant result == VisitsOf(weekdays, dates[..i], visitsOn)
    {
      assert dates[..i + 1][..i] == dates[..i];
      var sd := dates[i];
      var sdDow := Calendar.DayNames[Calendar.Weekday(sd)];
      if weekdays.Some? && sdDow in weekdays.value {
        var stopDepTimes := DepartureTimes(sdCache.Get(stopId, Calendar.FmtDate(sd)));
        var count := CountDepartures(stopDepTimes, startSecs, endSecs);
        assert count == visitsOn(sd);
        result := CountDate(result, Calendar.Weekday(sd), count);
      }
    }
    assert dates[..|dates|] == dates;
  }

  function SumVisits(buckets: seq<StopVisitCounts>): nat
  {
    if buckets == [] then 0 else SumVisits(buckets[..|buckets| - 1]) + buckets[|buckets| - 1].visitCount
  }

  function SumDates(buckets: seq<StopVisitCounts>): nat
  {
    if buckets == [] then 0 else SumDates(buckets[..|buckets| - 1]) + buckets[|buckets| - 1].dateCount
  }

  /** Replacing one bucket changes the sums by the difference of its counters. */
  lemma {:induction false} SumsOfUpdate(buckets: seq<StopVisitCounts>, w: nat, c: StopVisitCounts)
    requires w < |buckets|
    ensures SumVisits(buckets[w := c]) + buckets[w].visitCount == SumVisits(buckets) + c.visitCount
    ensures SumDates(buckets[w := c]) + buckets[w].dateCount == SumDates(buckets) + c.dateCount
  {
    var n := |buckets| - 1;
    var b := buckets[w := c];
    assert b[..n] == if w == n then buckets[..n] else buckets[..n][w := c];
    if w < n {
      SumsOfUpdate(buckets[..n], w, c);
    }
  }

  lemma {:induction false} SumsOfZeros(buckets: seq<StopVisitCounts>)
    requires forall i :: 0 <= i < |buckets| ==> buckets[i].visitCount == 0 && buckets[i].dateCount == 0
    ensures SumVisits(buckets) == 0 && SumDates(buckets) == 0
  {
    if buckets != [] {
      SumsOfZeros(buckets[..|buckets| - 1]);
    }
  }

  /** The number of dates among `dates` whose weekday is selected. */
  function CountedDates(weekdays: Option<seq<string>>, dates: seq<Calendar.Date>): nat
  {
    if dates == [] then 0
    else CountedDates(weekdays, dates[..|dates| - 1]) + (if DateCounted(weekdays, dates[|dates| - 1]) then 1 else 0)
  }

  /**
   * The total bucket is the sum of the seven weekday buckets, in dates and
   * in visits; it counts exactly the dates whose weekday is selected; and
   * its `all_date_service` is never cleared.
   */
  lemma {:induction false} VisitTotalsAreSumsOfDays(weekdays: Option<seq<string>>, dates: seq<Calendar.Date>,
                                                    visitsOn: Calendar.Date -> nat)
    ensures var r := VisitsOf(weekdays, dates, visitsOn);
      r.total.dateCount == SumDates(r.byDay) && r.total.visitCount == SumVisits(r.byDay) &&
      r.total.dateCount == CountedDates(weekdays, dates) && r.total.allDateService
  {
    if dates == [] {
      SumsOfZeros(NewStopVisitSummary().byDay);
    } else {
      var p := dates[..|dates| - 1];
      VisitTotalsAreSumsOfDays(weekdays, p, visitsOn);
      var d := dates[|dates| - 1];
      if DateCounted(weekdays, d) {
        var prev := VisitsOf(weekdays, p, visitsOn);
        var w := Calendar.Weekday(d);
        SumsOfUpdate(prev.byDay, w, Tally(prev.byDay[w], visitsOn(d), true));
      }
    }
  }

  /**
   * A weekday bucket keeps `all_date_service` exactly when every counted
   * date of that weekday had at least one departure in the window (so also
   * when no date of that weekday was counted).
   */
  lemma {:induction false} AllDateServiceIff(weekdays: Option<seq<string>>, dates: seq<Calendar.Date>,
                                             visitsOn: Calendar.Date -> nat, w: int)
    requires 0 <= w < 7
    ensures VisitsOf(weekdays, dates, visitsOn).byDay[w].allDateService <==>
      forall i :: 0 <= i < |dates| && DateCounted(weekdays, dates[i]) && Calendar.Weekday(dates[i]) == w ==>
        visitsOn(dates[i]) > 0
  {
    if dates != [] {
      var p := dates[..|dates| - 1];
      AllDateServiceIff(weekdays, p, visitsOn, w);
      assert forall i :: 0 <= i < |p| ==> p[i] == dates[i];
    }
  }

  /** Every bucket's average is its visits over its dates, and undefined while no date is counted. */
  predicate AverageConsistent(c: StopVisitCounts)
  {
    if c.dateCount == 0 then c.visitAverage.None? && c.visitCount == 0
    else c.visitAverage == Some(c.visitCount as real / c.dateCount as real)
  }

  lemma {:induction false} VisitAveragesConsistent(weekdays: Option<seq<string>>, dates: seq<Calendar.Date>,
                                                   visitsOn: Calendar.Date -> nat)
    ensures var r := VisitsOf(weekdays, dates, visitsOn);
      AverageConsistent(r.total) && forall w :: 0 <= w < 7 ==> AverageConsistent(r.byDay[w])
  {
    if dates != [] {
      VisitAveragesConsistent(weekdays, dates[..|dates| - 1], visitsOn);
    }
  }

  /** Without a weekday selection, or with an empty one, no date is counted and the summary stays fresh. */
  lemma {:induction false} NoWeekdaysNoVisits(weekdays: Option<seq<string>>, dates: seq<Calendar.Date>,
                                              visitsOn: Calendar.Date -> nat)
    requires weekdays.None? || weekdays == Some([])
    ensures VisitsOf(weekdays, dates, visitsOn) == NewStopVisitSummary()
  {
    if dates != [] {
      NoWeekdaysNoVisits(weekdays, dates[..|dates| - 1], visitsOn);
    }
  }

  //////////////////////////////////////////////////////////////////////
  // Stops
  //////////////////////////////////////////////////////////////////////

  /** A stop feature: what the filters read, and the visits and mark `stopSetDerived` sets. */
  class Stop {
    const id: int
    const routeStops: seq<AgencyAggregation.RouteStop>
    var visits: Option<StopVisitSummary>
    var marked: bool

    predicate Valid()
      reads this
    {
      visits.Some? ==> |visits.value.byDay| == 7
    }

    constructor (id: int, routeStops: seq<AgencyAggregation.RouteStop>)
      ensures Valid()
      ensures this.id == id && this.routeStops == routeStops && visits.None? && marked
    {
      this.id := id;
      this.routeStops := routeStops;
      visits := None;
      marked := true;
    }
  }

  /** The counters of the named weekday, if the stop has visits and the name is a weekday. */
  function DayCounts(visits: Option<StopVisitSummary>, name: string): (r: Option<StopVisitCounts>)
    requires visits.Some? ==> |visits.value.byDay| == 7
    ensures r.Some? <==> visits.Some? && DayIndex(name).Some?
  {
    var w := DayIndex(name);
    if visits.Some? && w.Some? then Some(visits.value.byDay[w.value]) else None
  }

  /**
   * The weekday check of `stopMarked`: names that are not weekdays are
   * skipped; 'Any' needs visits on some selected day, 'All' needs every
   * selected day to have had service on all its dates; any other mode fails.
   */
  predicate StopDaysPass(visits: Option<StopVisitSummary>, weekdays: seq<string>, mode: Option<string>)
    requires visits.Some? ==> |visits.value.byDay| == 7
  {
    (mode == Some("Any") &&
      exists i :: 0 <= i < |weekdays| && DayCounts(visits, weekdays[i]).Some? && DayCounts(visits, weekdays[i]).value.visitCount > 0) ||
    (mode == Some("All") &&
      forall i :: 0 <= i < |weekdays| && DayCounts(visits, weekdays[i]).Some? ==> DayCounts(visits, weekdays[i]).value.allDateService)
  }

  /** Whether any route-level filter is applied. */
  predicate RouteLevelFilter(s: Selection)
  {
    s.agencies.Some? || s.routeTypes.Some? || s.frequencyUnder.Some? || s.frequencyOver.Some?
  }

  /**
   * Whether `stopMarked` keeps a stop: with departure data and a weekday
   * selection, the weekday check; with the set of marked routes and some
   * route-level filter applied, one of its routes must be marked.
   */
  predicate StopMarks(visits: Option<StopVisitSummary>, routeStops: seq<AgencyAggregation.RouteStop>, s: Selection,
                      markedRoutes: Option<set<int>>, hasDepartures: bool)
    requires visits.Some? ==> |visits.value.byDay| == 7
  {
    && (!hasDepartures || s.weekdays.None? || StopDaysPass(visits, s.weekdays.value, s.weekdayMode))
    && (markedRoutes.None? || !RouteLevelFilter(s) ||
        exists i :: 0 <= i < |routeStops| && routeStops[i].routeId in markedRoutes.value)
  }

  /** `stopMarked`: the weekday loop with its `hasAny` / `hasAll` flags, then the marked-route check. */
  method StopMarked(stop: Stop, s: Selection, markedRoutes: Option<set<int>>, hasDepartures: bool) returns (marked: bool)
    requires stop.Valid()
    ensures marked == StopMarks(stop.visits, stop.routeStops, s, markedRoutes, hasDepartures)
  {
    var visits := stop.visits;
    if hasDepartures && s.weekdays.Some? {
      var selected := s.weekdays.value;
      var hasAny := false;
      var hasAll := true;
      for i := 0 to |selected|
        invariant hasAny <==> exists j :: 0 <= j < i && DayCounts(visits, selected[j]).Some? && DayCounts(visits, selected[j]).value.visitCount > 0
        invariant hasAll <==> forall j :: 0 <= j < i && DayCounts(visits, selected[j]).Some? ==> DayCounts(visits, selected[j]).value.allDateService
      {
        var r := DayCounts(visits, selected[i]);
        if r.Some? {
          if r.value.visitCount > 0 {
            hasAny := true;
          }
          if !r.value.allDateService {
            hasAll := false;
          }
        }
      }
      var found := false;
      if s.weekdayMode == Some("Any") {
        found := hasAny;
      } else if s.weekdayMode == Some("All") {
        found := hasAll;
      }
      if !found {
        return false;
      }
    }
    if markedRoutes.Some? && RouteLevelFilter(s) {
      var hasMarkedRoute := false;
      for i := 0 to |stop.routeStops|
        invariant hasMarkedRoute <==> exists j :: 0 <= j < i && stop.routeStops[j].routeId in markedRoutes.value
      {
        if stop.routeStops[i].routeId in markedRoutes.value {
          hasMarkedRoute := true;
        }
      }
      if !hasMarkedRoute {
        return false;
      }
    }
    return true;
  }

  /**
   * Unlike the route filter, an empty weekday selection does not unmark a
   * stop in 'All' mode (nothing clears `hasAll`), while in 'Any' mode it
   * does; any mode other than the two unmarks it.
   */
  lemma StopWeekdaySelection(visits: Option<StopVisitSummary>, weekdays: seq<string>, mode: Option<string>)
    requires visits.Some? ==> |visits.value.byDay| == 7
    ensures StopDaysPass(visits, [], Some("All"))
    ensures !StopDaysPass(visits, [], Some("Any"))
    ensures mode != Some("Any") && mode != Some("All") ==> !StopDaysPass(visits, weekdays, mode)
  {
  }

  /**
   * A marked route is needed only when some route-level filter is applied:
   * then a stop none of whose routes is marked is unmarked, and otherwise
   * the weekday check alone decides.
   */
  lemma StopMarkedRouteCheck(visits: Option<StopVisitSummary>, routeStops: seq<AgencyAggregation.RouteStop>, s: Selection,
                             markedRoutes: Option<set<int>>, hasDepartures: bool)
    requires visits.Some? ==> |visits.value.byDay| == 7
    ensures !RouteLevelFilter(s) ==>
              (StopMarks(visits, routeStops, s, markedRoutes, hasDepartures) <==>
               !hasDepartures || s.weekdays.None? || StopDaysPass(visits, s.weekdays.value, s.weekdayMode))
    ensures markedRoutes.Some? && RouteLevelFilter(s)
            && (forall i :: 0 <= i < |routeStops| ==> routeStops[i].routeId !in markedRoutes.value) ==>
              !StopMarks(visits, routeStops, s, markedRoutes, hasDepartures)
  {
  }

  /**
   * `stopSetDerived`: the visits are counted first, then the stop is marked
   * from them.
   */
  method StopSetDerived(stop: Stop, s: Selection, dateRange: Option<seq<Calendar.Date>>,
                        startTime: Option<string>, endTime: Option<string>,
                        markedRoutes: Option<set<int>>, sdCache: DepartureCache.StopDepartureCache?)
    modifies stop
    ensures stop.Valid()
    ensures sdCache == null ==> stop.visits == Some(NewStopVisitSummary())
    ensures sdCache != null ==> stop.visits == Some(VisitsOf(s.weekdays, if dateRange.Some? then dateRange.value else [],
      VisitsOn(stop.id, CoreDatetime.ParseHMS(startTime), CoreDatetime.ParseHMS(endTime), sdCache.cache)))
    ensures stop.marked == StopMarks(stop.visits, stop.routeStops, s, markedRoutes, sdCache != null)
  {
    var visits := StopVisits(stop.id, s.weekdays, dateRange, startTime, endTime, sdCache);
    stop.visits := Some(visits);
    stop.marked := StopMarked(stop, s, markedRoutes, sdCache != null);
  }

  //////////////////////////////////////////////////////////////////////
  // Flex areas
  //////////////////////////////////////////////////////////////////////

  /**
   * `flexAreaMarked`: every area passes when no agency is selected, none
   * when the selection is empty, otherwise an area passes exactly when one
   * of its agencies' names is selected.
   */
  function FlexAreaMarked(feature: FlexTypes.FlexAreaFeature, selectedAgencies: Option<seq<string>>): (r: bool)
    ensures selectedAgencies.None? ==> r
    ensures selectedAgencies == Some([]) ==> !r
    ensures selectedAgencies.Some? ==>
      (r <==> (exists i :: 0 <= i < |feature.properties.agencies| &&
                 feature.properties.agencies[i].agencyName in selectedAgencies.value))
  {
    if selectedAgencies.None? then true
    else if |selectedAgencies.value| == 0 then false
    else
      var names := FlexTypes.GetFlexAgencyNames(feature);
      exists i :: 0 <= i < |names| && names[i] in selectedAgencies.value
  }
}
