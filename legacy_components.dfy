/**
 * The oldest filters, in `components/`: `stopFilter` keeps a stop from
 * whether it has departures on the selected weekdays of the date range and
 * from the types and agency names of its routes; `routeFilter` keeps a
 * route by its type or, without a type selection, by its agency name.
 * The departure cache of `components/departure.ts` behaves as
 * `DepartureCache.StopDepartureCache`; its `getRouteDate` stub is modelled
 * here.
 */
module LegacyComponents {
  import opened Wrappers
  import Calendar
  import JsNum
  import DepartureCache
  import RouteHeadway
  import LegacyRoute
  import LegacyDatetime

  /** What the filters read of one of a stop's routes: `route.route_type` and `route.agency.agency_name`. */
  datatype RouteStop = RouteStop(routeType: int, agencyName: string)

  //////////////////////////////////////////////////////////////////////
  // Route types as strings
  //////////////////////////////////////////////////////////////////////

  lemma NatToStringInjective(a: nat, b: nat)
    ensures JsNum.NatToString(a) == JsNum.NatToString(b) ==> a == b
  {
    JsNum.DigitsValueOfNatToString(a);
    JsNum.DigitsValueOfNatToString(b);
  }

  /** `route_type.toString()` is one-to-one, so comparing the strings compares the numbers. */
  lemma IntToStringInjective(a: int, b: int)
    ensures JsNum.IntToString(a) == JsNum.IntToString(b) ==> a == b
  {
    var sa := JsNum.IntToString(a);
    var sb := JsNum.IntToString(b);
    if a >= 0 && b >= 0 {
      NatToStringInjective(a, b);
    } else if a < 0 && b < 0 {
      assert sa[1..] == JsNum.NatToString(-a);
      assert sb[1..] == JsNum.NatToString(-b);
      NatToStringInjective(-a, -b);
    } else if a < 0 {
      assert sa[0] == '-';
      assert JsNum.IsDigit(sb[0]);
    } else {
      assert sb[0] == '-';
      assert JsNum.IsDigit(sa[0]);
    }
  }

  //////////////////////////////////////////////////////////////////////
  // routeFilter
  //////////////////////////////////////////////////////////////////////

  /**
   * `routeFilter`: a non-empty route-type selection decides alone; else a
   * non-empty agency selection decides; else the route is kept.
   */
  function RouteFilter(routeType: int, agencyName: string, srt: seq<string>, sg: seq<string>): (r: bool)
    ensures |srt| > 0 ==> (r <==> JsNum.IntToString(routeType) in srt)
    ensures |srt| == 0 && |sg| > 0 ==> (r <==> agencyName in sg)
    ensures |srt| == 0 && |sg| == 0 ==> r
  {
    if |srt| > 0 then JsNum.IntToString(routeType) in srt
    else if |sg| > 0 then agencyName in sg
    else true
  }

  /**
   * With a route-type selection the agency selection is never consulted:
   * a route of another agency, or any agency list, gives the same answer;
   * a selection holding the string of one type keeps exactly the routes of
   * that type.
   */
  lemma RouteTypeDecidesAlone(routeType: int, agencyName: string, otherAgency: string, srt: seq<string>,
                              sg: seq<string>, otherSg: seq<string>, t: int)
    requires |srt| > 0
    ensures RouteFilter(routeType, agencyName, srt, sg) == RouteFilter(routeType, otherAgency, srt, otherSg)
    ensures RouteFilter(routeType, agencyName, [JsNum.IntToString(t)], sg) <==> routeType == t
  {
    IntToStringInjective(routeType, t);
  }

  //////////////////////////////////////////////////////////////////////
  // stopFilter
  //////////////////////////////////////////////////////////////////////

  /** `selectedDows.includes(dowDateString[sd.getDay()])`, with capitalised weekday names. */
  predicate DateSelected(selectedDows: seq<string>, d: Calendar.Date)
  {
    Calendar.CapitalisedDayNames[Calendar.Weekday(d)] in selectedDows
  }

  /** `sdCache.hasService(stop.id, format(d, 'yyyy-MM-dd'))`, as one function of the date. */
  function ServiceOn(cache: DepartureCache.StopDates, stopId: int): Calendar.Date -> bool
  {
    d => HasServiceOn(cache, stopId, d)
  }

  predicate HasServiceOn(cache: DepartureCache.StopDates, stopId: int, d: Calendar.Date)
  {
    DepartureCache.Lookup(cache, stopId, Calendar.FmtDate(d)) != []
  }

  /** `hasAny` after the given dates: some selected date had service. */
  predicate AnyService(selectedDows: seq<string>, dates: seq<Calendar.Date>, service: Calendar.Date -> bool)
  {
    if dates == [] then false
    else
      var d := dates[|dates| - 1];
      AnyService(selectedDows, dates[..|dates| - 1], service) || (DateSelected(selectedDows, d) && service(d))
  }

  /** `hasAll` after the given dates: no selected date lacked service. */
  predicate AllService(selectedDows: seq<string>, dates: seq<Calendar.Date>, service: Calendar.Date -> bool)
  {
    if dates == [] then true
    else
      var d := dates[|dates| - 1];
      AllService(selectedDows, dates[..|dates| - 1], service) && (DateSelected(selectedDows, d) ==> service(d))
  }

  /** The day check in the selected mode; any mode other than 'Any' and 'All' fails. */
  predicate DaysPass(selectedDows: seq<string>, mode: string, dates: seq<Calendar.Date>, service: Calendar.Date -> bool)
  {
    || (mode == "Any" && AnyService(selectedDows, dates, service))
    || (mode == "All" && AllService(selectedDows, dates, service))
  }

  /**
   * 'Any' needs service on some selected date of the range, 'All' on every
   * selected date of the range.
   */
  lemma {:induction false} DaysPassMeaning(selectedDows: seq<string>, dates: seq<Calendar.Date>, service: Calendar.Date -> bool)
    ensures AnyService(selectedDows, dates, service) <==>
              exists i :: 0 <= i < |dates| && DateSelected(selectedDows, dates[i]) && service(dates[i])
    ensures AllService(selectedDows, dates, service) <==>
              forall i :: 0 <= i < |dates| && DateSelected(selectedDows, dates[i]) ==> service(dates[i])
  {
    if dates != [] {
      var p := dates[..|dates| - 1];
      DaysPassMeaning(selectedDows, p, service);
      assert forall i :: 0 <= i < |p| ==> p[i] == dates[i];
    }
  }

  predicate HasRouteType(routeStops: seq<RouteStop>, srt: seq<string>)
  {
    exists i :: 0 <= i < |routeStops| && JsNum.IntToString(routeStops[i].routeType) in srt
  }

  predicate HasAgency(routeStops: seq<RouteStop>, sg: seq<string>)
  {
    exists i :: 0 <= i < |routeStops| && routeStops[i].agencyName in sg
  }

  /**
   * Whether `stopFilter` keeps a stop: the day check when some weekday is
   * selected and there is a cache, then a route of a selected type when
   * types are selected, then a route of a selected agency when agencies are.
   */
  predicate StopPasses(stopId: int, routeStops: seq<RouteStop>, selectedDows: seq<string>, mode: string,
                       dates: seq<Calendar.Date>, srt: seq<string>, sg: seq<string>,
                       cache: Option<DepartureCache.StopDates>)
  {
    && (|selectedDows| == 0 || cache.None? || DaysPass(selectedDows, mode, dates, ServiceOn(cache.value, stopId)))
    && (|srt| == 0 || HasRouteType(routeStops, srt))
    && (|sg| == 0 || HasAgency(routeStops, sg))
  }

  /** The search of `stopFilter` for a route of a selected type; it stops at the first one. */
  method FindRouteType(routeStops: seq<RouteStop>, srt: seq<string>) returns (found: bool)
    ensures found == HasRouteType(routeStops, srt)
  {
    found := false;
    var i := 0;
    while i < |routeStops| && !found
      invariant 0 <= i <= |routeStops|
      invariant found ==> HasRouteType(routeStops, srt)
      invariant !found ==> forall j :: 0 <= j < i ==> JsNum.IntToString(routeStops[j].routeType) !in srt
    {
      if JsNum.IntToString(routeStops[i].routeType) in srt {
        found := true;
      }
      i := i + 1;
    }
  }

  /** The search of `stopFilter` for a route of a selected agency; it stops at the first one. */
  method FindAgency(routeStops: seq<RouteStop>, sg: seq<string>) returns (found: bool)
    ensures found == HasAgency(routeStops, sg)
  {
    found := false;
    var i := 0;
    while i < |routeStops| && !found
      invariant 0 <= i <= |routeStops|
      invariant found ==> HasAgency(routeStops, sg)
      invariant !found ==> forall j :: 0 <= j < i ==> routeStops[j].agencyName !in sg
    {
      if routeStops[i].agencyName in sg {
        found := true;
      }
      i := i + 1;
    }
  }

  /** The day check of `stopFilter`: the date loop with its `hasAny` / `hasAll` flags, then the mode. */
  method CheckDays(stopId: int, selectedDows: seq<string>, selectedDowMode: string, dateRange: seq<Calendar.Date>,
                   sdCache: DepartureCache.StopDepartureCache) returns (found: bool)
    ensures found == DaysPass(selectedDows, selectedDowMode, dateRange, ServiceOn(sdCache.cache, stopId))
  {
    ghost var service := ServiceOn(sdCache.cache, stopId);
    var hasAny := false;
    var hasAll := true;
    for i := 0 to |dateRange|
      invariant hasAny == AnyService(selectedDows, dateRange[..i], service)
      invariant hasAll == AllService(selectedDows, dateRange[..i], service)
    {
      assert dateRange[..i + 1][..i] == dateRange[..i];
      var sd := dateRange[i];
      var sdDow := Calendar.CapitalisedDayNames[Calendar.Weekday(sd)];
      if sdDow !in selectedDows {
        continue;
      }
      var hasService := sdCache.HasService(stopId, Calendar.FmtDate(sd));
      assert hasService == service(sd);
      if hasService {
        hasAny := true;
      } else {
        hasAll := false;
      }
    }
    assert dateRange[..|dateRange|] == dateRange;
    found := false;
    if selectedDowMode == "Any" {
      found := hasAny;
    } else if selectedDowMode == "All" {
      found := hasAll;
    }
  }

  /** `stopFilter`: the date loop with its `hasAny` / `hasAll` flags, then the route-type and agency searches. */
  method StopFilter(stopId: int, routeStops: seq<RouteStop>, selectedDows: seq<string>, selectedDowMode: string,
                    dateRange: seq<Calendar.Date>, srt: seq<string>, sg: seq<string>,
                    sdCache: DepartureCache.StopDepartureCache?) returns (pass: bool)
    ensures pass == StopPasses(stopId, routeStops, selectedDows, selectedDowMode, dateRange, srt, sg,
                               if sdCache == null then None else Some(sdCache.cache))
  {
    if |selectedDows| > 0 && sdCache != null {
      var found := CheckDays(stopId, selectedDows, selectedDowMode, dateRange, sdCache);
      if !found {
        return false;
      }
    }
    if |srt| > 0 {
      var found := FindRouteType(routeStops, srt);
      if !found {
        return false;
      }
    }
    if |sg| > 0 {
      var found := FindAgency(routeStops, sg);
      if !found {
        return false;
      }
    }
    return true;
  }

  /**
   * Unlike `routeFilter`, `stopFilter` applies both selections: a stop
   * with a single route passes the route checks exactly when the route
   * passes its type selection and its agency is selected too.
   */
  lemma StopFilterAppliesBoth(stopId: int, r: RouteStop, dates: seq<Calendar.Date>, srt: seq<string>, sg: seq<string>,
                              mode: string)
    requires |srt| > 0 && |sg| > 0
    ensures StopPasses(stopId, [r], [], mode, dates, srt, sg, None) <==>
            RouteFilter(r.routeType, r.agencyName, srt, sg) && r.agencyName in sg
  {
    assert [r][0] == r;
  }

  /**
   * Without a weekday selection there is no day check, even with a cache;
   * in 'All' mode a stop passes the day check when no date of the range
   * falls on a selected weekday, in 'Any' mode it then fails.
   */
  lemma NoSelectedDateInRange(stopId: int, routeStops: seq<RouteStop>, selectedDows: seq<string>,
                              dates: seq<Calendar.Date>, cache: DepartureCache.StopDates, mode: string)
    requires forall i :: 0 <= i < |dates| ==> !DateSelected(selectedDows, dates[i])
    ensures StopPasses(stopId, routeStops, [], mode, dates, [], [], Some(cache))
    ensures StopPasses(stopId, routeStops, selectedDows, "All", dates, [], [], Some(cache))
    ensures |selectedDows| > 0 ==> !StopPasses(stopId, routeStops, selectedDows, "Any", dates, [], [], Some(cache))
  {
    DaysPassMeaning(selectedDows, dates, ServiceOn(cache, stopId));
  }

  //////////////////////////////////////////////////////////////////////
  // The cache's route lookup
  //////////////////////////////////////////////////////////////////////

  /**
   * `routeHeadways` of `src/route.ts` over the cache of
   * `components/departure.ts`, whose `getRouteDate` logs its arguments and
   * returns a plain empty object. The caller iterates that object with
   * `.entries()`, which a plain object does not have, so the first date of
   * either direction raises a TypeError; without any date the fresh summary
   * comes back.
   */
  function StubRouteHeadways(routeId: int, dates: seq<Calendar.Date>, startTime: string, endTime: string)
    : (r: Result<LegacyRoute.HeadwaySummary, string>)
    ensures r.Ok? <==> dates == []
    ensures r.Ok? ==> |r.value.byDay| == 7
  {
    if dates == [] then Ok(LegacyRoute.NewRouteHeadwaySummary())
    else Err("dateStopDeps.entries is not a function")
  }

  /**
   * Without dates the stub cache is indistinguishable from a real route
   * index: both give the summary `routeHeadways` computes over no date.
   */
  lemma StubAgreesWithoutDates(routeId: int, startTime: string, endTime: string, index: RouteHeadway.RouteIndex)
    ensures StubRouteHeadways(routeId, [], startTime, endTime)
      == Ok(LegacyRoute.RouteHeadwaysOf(routeId, [], startTime, endTime, Some(index)))
  {
    var q := LegacyRoute.LegacyQuery(index, routeId,
      LegacyDatetime.ParseHMS(Some(startTime)), LegacyDatetime.ParseHMS(Some(endTime)));
    LegacyRoute.SummaryAfterNone(q, []);
  }

  /**
   * With the stub cache `routeSetDerived` either fails (some date selected)
   * or leaves all three frequencies null (no date selected).
   */
  lemma StubFrequencies(routeId: int, dates: seq<Calendar.Date>, startTime: string, endTime: string)
    ensures dates != [] ==> StubRouteHeadways(routeId, dates, startTime, endTime).Err?
    ensures dates == [] ==>
      var total := StubRouteHeadways(routeId, dates, startTime, endTime).value.total;
      LegacyRoute.FrequenciesOf(LegacyRoute.BusierHeadways(total)) == LegacyRoute.Frequencies(None, None, None)
  {
    if dates == [] {
      var total := StubRouteHeadways(routeId, dates, startTime, endTime).value.total;
      assert total.dir0.headways == [] && total.dir1.headways == [];
    }
  }
}
