/**
 * The stop filter of `src/stop.ts`: the visits of a stop on the selected
 * dates inside the time window, counted with the legacy `parseHMS` (whose
 * NaN fails every comparison), and the mark derived from them and from the
 * set of marked routes.
 */
module LegacyStop {
  import opened Wrappers
  import Calendar
  import LegacyDatetime
  import DepartureCache
  import ScenarioFilter
  import StopCsv

  type Number = LegacyDatetime.Number

  //////////////////////////////////////////////////////////////////////
  // Visits
  //////////////////////////////////////////////////////////////////////

  /** `depTime >= startTime && depTime <= endTime`, false as soon as one of them is NaN. */
  predicate InWindow(t: Number, start: Number, end: Number)
  {
    t.Int? && start.Int? && end.Int? && start.value <= t.value <= end.value
  }

  /** The departure times of a date, each parsed with the legacy `parseHMS`. */
  function LegacyTimes(deps: seq<DepartureCache.StopTime>): (r: seq<Number>)
    ensures |r| == |deps| && forall i :: 0 <= i < |deps| ==> r[i] == LegacyDatetime.ParseHMS(Some(deps[i].departureTime))
  {
    seq(|deps|, i requires 0 <= i < |deps| => LegacyDatetime.ParseHMS(Some(deps[i].departureTime)))
  }

  /** The number of times inside the window. */
  function CountInWindow(times: seq<Number>, start: Number, end: Number): (n: nat)
    ensures n <= |times|
  {
    if times == [] then 0
    else CountInWindow(times[..|times| - 1], start, end) + if InWindow(times[|times| - 1], start, end) then 1 else 0
  }

  function InWindowIndices(times: seq<Number>, start: Number, end: Number): set<int>
  {
    set i | 0 <= i < |times| && InWindow(times[i], start, end)
  }

  /** The count is the number of positions whose time lies in the window. */
  lemma {:induction false} CountIsInWindowTimes(times: seq<Number>, start: Number, end: Number)
    ensures CountInWindow(times, start, end) == |InWindowIndices(times, start, end)|
  {
    if times != [] {
      var p := times[..|times| - 1];
      var n := |times| - 1;
      CountIsInWindowTimes(p, start, end);
      var before := InWindowIndices(p, start, end);
      var after := InWindowIndices(times, start, end);
      assert forall i :: 0 <= i < |p| ==> p[i] == times[i];
      if InWindow(times[n], start, end) {
        assert after == before + {n};
      } else {
        assert after == before;
      }
    }
  }

  /** A NaN bound or a NaN time counts nothing: with a NaN bound no departure is a visit. */
  lemma {:induction false} NaNBoundCountsNothing(times: seq<Number>, start: Number, end: Number)
    requires start.NaN? || end.NaN?
    ensures CountInWindow(times, start, end) == 0
  {
    if times != [] {
      NaNBoundCountsNothing(times[..|times| - 1], start, end);
    }
  }

  /**
   * Where every time and both bounds are numbers, the legacy count is the
   * count of the current filter.
   */
  lemma {:induction false} CountAgainstCore(secs: seq<int>, start: int, end: int)
    ensures CountInWindow(seq(|secs|, i requires 0 <= i < |secs| => LegacyDatetime.Int(secs[i])),
                          LegacyDatetime.Int(start), LegacyDatetime.Int(end))
            == ScenarioFilter.CountInWindow(secs, start, end)
  {
    var times := seq(|secs|, i requires 0 <= i < |secs| => LegacyDatetime.Int(secs[i]));
    if secs != [] {
      var p := secs[..|secs| - 1];
      CountAgainstCore(p, start, end);
      assert times[..|times| - 1] == seq(|p|, i requires 0 <= i < |p| => LegacyDatetime.Int(p[i]));
    }
  }

  /** The counting loop of `stopVisits` over one date's departure times. */
  method CountDepartures(times: seq<Number>, start: Number, end: Number) returns (count: nat)
    ensures count == CountInWindow(times, start, end)
  {
    count := 0;
    for i := 0 to |times|
      invariant count == CountInWindow(times[..i], start, end)
    {
      assert times[..i + 1][..i] == times[..i];
      if times[i].Int? && start.Int? && end.Int? && times[i].value >= start.value && times[i].value <= end.value {
        count := count + 1;
      }
    }
    assert times[..|times|] == times;
  }

  /** The departures of the stop on a date inside the window. */
  function DateVisits(stopId: int, d: Calendar.Date, start: Number, end: Number, cache: DepartureCache.StopDates): nat
  {
    CountInWindow(LegacyTimes(DepartureCache.Lookup(cache, stopId, Calendar.FmtDate(d))), start, end)
  }

  /** The visits of the stop on each date, as one function of the date. */
  function VisitsOn(stopId: int, start: Number, end: Number, cache: DepartureCache.StopDates): Calendar.Date -> nat
  {
    d => DateVisits(stopId, d, start, end, cache)
  }

  /**
   * `stopVisits`: without a departure cache the fresh summary; otherwise,
   * for each date whose weekday is selected, the departures at the stop on
   * that date inside the window are counted into the total and into the
   * date's weekday bucket.
   */
  method StopVisits(stopId: int, selectedDays: seq<string>, dateRange: seq<Calendar.Date>,
                    startTime: string, endTime: string, sdCache: DepartureCache.StopDepartureCache?)
    returns (result: ScenarioFilter.StopVisitSummary)
    ensures sdCache == null ==> result == ScenarioFilter.NewStopVisitSummary()
    ensures sdCache != null ==> result == ScenarioFilter.VisitsOf(Some(selectedDays), dateRange,
      VisitsOn(stopId, LegacyDatetime.ParseHMS(Some(startTime)), LegacyDatetime.ParseHMS(Some(endTime)), sdCache.cache))
  {
    result := ScenarioFilter.NewStopVisitSummary();
    if sdCache == null {
      return;
    }
    var start := LegacyDatetime.ParseHMS(Some(startTime));
    var end := LegacyDatetime.ParseHMS(Some(endTime));
    ghost var visitsOn := VisitsOn(stopId, start, end, sdCache.cache);
    for i := 0 to |dateRange|
      invariant result == ScenarioFilter.VisitsOf(Some(selectedDays), dateRange[..i], visitsOn)
    {
      assert dateRange[..i + 1][..i] == dateRange[..i];
      var sd := dateRange[i];
      var sdDow := Calendar.DayNames[Calendar.Weekday(sd)];
      if sdDow in selectedDays {
        var stopDepTimes := LegacyTimes(sdCache.Get(stopId, Calendar.FmtDate(sd)));
        var count := CountDepartures(stopDepTimes, start, end);
        assert count == visitsOn(sd);
        result := ScenarioFilter.CountDate(result, Calendar.Weekday(sd), count);
      }
    }
    assert dateRange[..|dateRange|] == dateRange;
  }

  /**
   * When no date has a visit, every counter has no visits, and a weekday
   * keeps `all_date_service` exactly when none of its dates was counted.
   */
  lemma {:induction false} NoVisitsOnAnyDate(selectedDays: seq<string>, dates: seq<Calendar.Date>, visitsOn: Calendar.Date -> nat)
    requires forall d :: visitsOn(d) == 0
    ensures var r := ScenarioFilter.VisitsOf(Some(selectedDays), dates, visitsOn);
            r.total.visitCount == 0 &&
            forall w :: 0 <= w < 7 ==> r.byDay[w].visitCount == 0 && (r.byDay[w].allDateService <==> r.byDay[w].dateCount == 0)
  {
    if dates != [] {
      NoVisitsOnAnyDate(selectedDays, dates[..|dates| - 1], visitsOn);
    }
  }

  /**
   * A start or end time that does not parse as a number (NaN) gives no
   * visit on any date: every weekday that had a selected date loses
   * `all_date_service`.
   */
  lemma NaNWindowNoVisits(stopId: int, selectedDays: seq<string>, dates: seq<Calendar.Date>,
                          start: Number, end: Number, cache: DepartureCache.StopDates)
    requires start.NaN? || end.NaN?
    ensures var r := ScenarioFilter.VisitsOf(Some(selectedDays), dates, VisitsOn(stopId, start, end, cache));
            r.total.visitCount == 0 &&
            forall w :: 0 <= w < 7 ==> r.byDay[w].visitCount == 0 && (r.byDay[w].allDateService <==> r.byDay[w].dateCount == 0)
  {
    var visitsOn := VisitsOn(stopId, start, end, cache);
    forall d
      ensures visitsOn(d) == 0
    {
      NaNBoundCountsNothing(LegacyTimes(DepartureCache.Lookup(cache, stopId, Calendar.FmtDate(d))), start, end);
    }
    NoVisitsOnAnyDate(selectedDays, dates, visitsOn);
  }

  //////////////////////////////////////////////////////////////////////
  // Marking
  //////////////////////////////////////////////////////////////////////

  /**
   * Whether the marked-route check applies: some agency or route type is
   * selected, or a frequency bound is above 0.
   */
  predicate RouteLevelFilter(routeTypes: seq<int>, agencies: seq<string>, frequencyUnder: real, frequencyOver: real)
  {
    |agencies| > 0 || |routeTypes| > 0 || frequencyUnder > 0.0 || frequencyOver > 0.0
  }

  /**
   * Whether `stopMarked` keeps a stop: with a departure cache, the weekday
   * check in the selected mode; with a route-level filter, one of its
   * routes must be marked.
   */
  predicate StopMarks(visits: Option<ScenarioFilter.StopVisitSummary>, routeStops: seq<StopCsv.RouteRef>,
                      selectedDays: seq<string>, selectedDayMode: string, routeTypes: seq<int>, agencies: seq<string>,
                      frequencyUnder: real, frequencyOver: real, markedRoutes: set<int>, hasCache: bool)
    requires visits.Some? ==> |visits.value.byDay| == 7
  {
    && (!hasCache || ScenarioFilter.StopDaysPass(visits, selectedDays, Some(selectedDayMode)))
    && (!RouteLevelFilter(routeTypes, agencies, frequencyUnder, frequencyOver) ||
        exists i :: 0 <= i < |routeStops| && routeStops[i].routeId in markedRoutes)
  }

  /** A stop feature: what the filter reads, and the visits and mark `stopSetDerived` sets. */
  class Stop {
    const id: int
    const routeStops: seq<StopCsv.RouteRef>
    var visits: Option<ScenarioFilter.StopVisitSummary>
    var marked: bool

    predicate Valid()
      reads this
    {
      visits.Some? ==> |visits.value.byDay| == 7
    }

    constructor (id: int, routeStops: seq<StopCsv.RouteRef>)
      ensures Valid()
      ensures this.id == id && this.routeStops == routeStops && visits.None? && !marked
    {
      this.id := id;
      this.routeStops := routeStops;
      visits := None;
      marked := false;
    }
  }

  /** `stopMarked`: the weekday loop with its `hasAny` / `hasAll` flags, then the marked-route check. */
  method StopMarked(stop: Stop, selectedDays: seq<string>, selectedDayMode: string, routeTypes: seq<int>,
                    agencies: seq<string>, frequencyUnder: real, frequencyOver: real, markedRoutes: set<int>,
                    hasCache: bool) returns (marked: bool)
    requires stop.Valid()
    ensures marked == StopMarks(stop.visits, stop.routeStops, selectedDays, selectedDayMode, routeTypes, agencies,
                                frequencyUnder, frequencyOver, markedRoutes, hasCache)
  {
    var visits := stop.visits;
    if hasCache {
      var hasAny := false;
      var hasAll := true;
      for i := 0 to |selectedDays|
        invariant hasAny <==> exists j :: 0 <= j < i && ScenarioFilter.DayCounts(visits, selectedDays[j]).Some? &&
                                          ScenarioFilter.DayCounts(visits, selectedDays[j]).value.visitCount > 0
        invariant hasAll <==> forall j :: 0 <= j < i && ScenarioFilter.DayCounts(visits, selectedDays[j]).Some? ==>
                                          ScenarioFilter.DayCounts(visits, selectedDays[j]).value.allDateService
      {
        var r := ScenarioFilter.DayCounts(visits, selectedDays[i]);
        if r.None? {
          continue;
        }
        if r.value.visitCount > 0 {
          hasAny := true;
        }
        if !r.value.allDateService {
          hasAll := false;
        }
      }
      var found := false;
      if selectedDayMode == "Any" {
        found := hasAny;
      } else if selectedDayMode == "All" {
        found := hasAll;
      }
      if !found {
        return false;
      }
    }
    if |agencies| > 0 || |routeTypes| > 0 || frequencyUnder > 0.0 || frequencyOver > 0.0 {
      var hasMarkedRoute := false;
      for i := 0 to |stop.routeStops|
        invariant hasMarkedRoute <==> exists j :: 0 <= j < i && stop.routeStops[j].routeId in markedRoutes
      {
        if stop.routeStops[i].routeId in markedRoutes {
          hasMarkedRoute := true;
        }
      }
      if !hasMarkedRoute {
        return false;
      }
    }
    return true;
  }

  /**
   * `stopSetDerived`: the visits are counted first, then the stop is
   * marked from them.
   */
  method StopSetDerived(stop: Stop, selectedDays: seq<string>, selectedDayMode: string, dateRange: seq<Calendar.Date>,
                        startTime: string, endTime: string, routeTypes: seq<int>, agencies: seq<string>,
                        frequencyUnder: real, frequencyOver: real, markedRoutes: set<int>,
                        sdCache: DepartureCache.StopDepartureCache?)
    modifies stop
    ensures stop.Valid()
    ensures sdCache == null ==> stop.visits == Some(ScenarioFilter.NewStopVisitSummary())
    ensures sdCache != null ==> stop.visits == Some(ScenarioFilter.VisitsOf(Some(selectedDays), dateRange,
      VisitsOn(stop.id, LegacyDatetime.ParseHMS(Some(startTime)), LegacyDatetime.ParseHMS(Some(endTime)), sdCache.cache)))
    ensures stop.marked == StopMarks(stop.visits, stop.routeStops, selectedDays, selectedDayMode, routeTypes, agencies,
                                     frequencyUnder, frequencyOver, markedRoutes, sdCache != null)
  {
    var visits := StopVisits(stop.id, selectedDays, dateRange, startTime, endTime, sdCache);
    stop.visits := Some(visits);
    stop.marked := StopMarked(stop, selectedDays, selectedDayMode, routeTypes, agencies, frequencyUnder,
                              frequencyOver, markedRoutes, sdCache != null);
  }

  //////////////////////////////////////////////////////////////////////
  // What the mark means
  //////////////////////////////////////////////////////////////////////

  /**
   * Without a departure cache and without a route-level filter every stop
   * is kept; with a cache, a mode other than 'Any' and 'All' drops every
   * stop.
   */
  lemma MarkWithoutFilters(visits: Option<ScenarioFilter.StopVisitSummary>, routeStops: seq<StopCsv.RouteRef>,
                           selectedDays: seq<string>, mode: string, markedRoutes: set<int>, under: real, over: real)
    requires visits.Some? ==> |visits.value.byDay| == 7
    requires under <= 0.0 && over <= 0.0
    ensures StopMarks(visits, routeStops, selectedDays, mode, [], [], under, over, markedRoutes, false)
    ensures mode != "Any" && mode != "All" ==>
              !StopMarks(visits, routeStops, selectedDays, mode, [], [], under, over, markedRoutes, true)
  {
  }

  /**
   * A frequency bound of 0 is no route-level filter for the stops, while
   * for the routes a bound of 0 already applies (see
   * `LegacyRoute.ZeroBoundIsActive`): a stop all of whose routes are
   * unmarked by that bound stays marked.
   */
  lemma ZeroBoundKeepsStops(visits: Option<ScenarioFilter.StopVisitSummary>, routeStops: seq<StopCsv.RouteRef>,
                            selectedDays: seq<string>, mode: string, markedRoutes: set<int>, hasCache: bool)
    requires visits.Some? ==> |visits.value.byDay| == 7
    requires forall i :: 0 <= i < |routeStops| ==> routeStops[i].routeId !in markedRoutes
    ensures StopMarks(visits, routeStops, selectedDays, mode, [], [], 0.0, 0.0, markedRoutes, hasCache) <==>
            (!hasCache || ScenarioFilter.StopDaysPass(visits, selectedDays, Some(mode)))
    ensures !StopMarks(visits, routeStops, selectedDays, mode, [], [], 0.0, 0.1, markedRoutes, hasCache)
  {
  }

  /**
   * With a NaN time window and a cache, no stop passes in 'Any' mode, and
   * in 'All' mode a stop passes only if none of the selected weekdays had a
   * date in the range.
   */
  lemma NaNWindowMarks(stopId: int, routeStops: seq<StopCsv.RouteRef>, selectedDays: seq<string>,
                       dates: seq<Calendar.Date>, start: Number, end: Number, cache: DepartureCache.StopDates,
                       routeTypes: seq<int>, agencies: seq<string>, under: real, over: real, markedRoutes: set<int>)
    requires start.NaN? || end.NaN?
    ensures var v := Some(ScenarioFilter.VisitsOf(Some(selectedDays), dates, VisitsOn(stopId, start, end, cache)));
            && !StopMarks(v, routeStops, selectedDays, "Any", routeTypes, agencies, under, over, markedRoutes, true)
            && (StopMarks(v, routeStops, selectedDays, "All", routeTypes, agencies, under, over, markedRoutes, true) ==>
                  forall i :: 0 <= i < |selectedDays| && ScenarioFilter.DayIndex(selectedDays[i]).Some? ==>
                    v.value.byDay[ScenarioFilter.DayIndex(selectedDays[i]).value].dateCount == 0)
  {
    NaNWindowNoVisits(stopId, selectedDays, dates, start, end, cache);
  }
}
