/**
 * The data plumbing of src/scenario/scenario.ts (and its older copy
 * src/scenario/scenario-fetcher.ts): the selected date range, the
 * positional stop-departure tuple sent over the wire, the day-of-week
 * query variables, and the receiver that accumulates progress events
 * into scenario data.
 */
module Scenario {
  import opened Wrappers
  import Calendar
  import DepartureCache

  // ---------------------------------------------------------------------
  // getSelectedDateRange
  // ---------------------------------------------------------------------

  /**
   * `getSelectedDateRange(config)`: every day from the start date to the
   * end date inclusive, one day apart; a missing date is today's.
   */
  method SelectedDateRange(startDate: Option<Calendar.Date>, endDate: Option<Calendar.Date>, today: Calendar.Date)
    returns (dates: seq<Calendar.Date>)
    ensures var first, last := startDate.GetOr(today).dayNumber, endDate.GetOr(today).dayNumber;
      |dates| == (if first <= last then last - first + 1 else 0) &&
      forall i :: 0 <= i < |dates| ==> dates[i].dayNumber == first + i
    ensures forall i :: 0 <= i < |dates| - 1 ==> dates[i + 1] == Calendar.NextDay(dates[i])
  {
    var sd := startDate.GetOr(today);
    var ed := endDate.GetOr(today);
    ghost var first := sd.dayNumber;
    dates := [];
    while sd.dayNumber <= ed.dayNumber
      invariant sd.dayNumber == first + |dates|
      invariant first <= ed.dayNumber + 1 ==> sd.dayNumber <= ed.dayNumber + 1
      invariant first > ed.dayNumber ==> dates == []
      invariant forall i :: 0 <= i < |dates| ==> dates[i].dayNumber == first + i
      decreases ed.dayNumber - sd.dayNumber
    {
      dates := dates + [sd];
      sd := Calendar.NextDay(sd);
    }
  }

  // ---------------------------------------------------------------------
  // convertBbox
  // ---------------------------------------------------------------------

  datatype Point = Point(lon: real, lat: real)

  /** A bounding box: south-west and north-east corners. */
  datatype Bbox = Bbox(sw: Point, ne: Point, valid: bool)

  /** The bbox query variables; `None` is `null`. */
  datatype BboxVars = BboxVars(minLon: Option<real>, minLat: Option<real>, maxLon: Option<real>, maxLat: Option<real>)

  /** `convertBbox(bbox)` of src/scenario/scenario-fetcher.ts: all four bounds `null` without a box, else its corners. */
  function ConvertBbox(bbox: Option<Bbox>): (r: BboxVars)
    ensures bbox.None? <==> r.minLon.None? && r.minLat.None? && r.maxLon.None? && r.maxLat.None?
    ensures bbox.Some? ==> r == BboxVars(Some(bbox.value.sw.lon), Some(bbox.value.sw.lat), Some(bbox.value.ne.lon), Some(bbox.value.ne.lat))
  {
    BboxVars(if bbox.Some? then Some(bbox.value.sw.lon) else None,
             if bbox.Some? then Some(bbox.value.sw.lat) else None,
             if bbox.Some? then Some(bbox.value.ne.lon) else None,
             if bbox.Some? then Some(bbox.value.ne.lat) else None)
  }

  // ---------------------------------------------------------------------
  // StopDepartureTuple
  // ---------------------------------------------------------------------

  /** One slot of a JavaScript tuple: a number or a string. */
  datatype Cell = Num(num: int) | Text(text: string)

  /**
   * `[stop_id, departure_date, departure_time, trip_id, trip_direction_id,
   * trip_route_id, trip_trip_id]`; the older wire format has no seventh slot.
   */
  type StopDepartureTuple = seq<Cell>

  /** The slot types the tuple type declares, for the six- and the seven-slot form. */
  predicate WellTyped(t: StopDepartureTuple)
  {
    (|t| == 6 || |t| == 7) &&
    t[0].Num? && t[1].Text? && t[2].Text? && t[3].Num? && t[4].Num? && t[5].Num? &&
    (|t| == 7 ==> t[6].Text?)
  }

  function StopId(t: StopDepartureTuple): int requires WellTyped(t) { t[0].num }
  function DepartureDate(t: StopDepartureTuple): string requires WellTyped(t) { t[1].text }
  function DepartureTime(t: StopDepartureTuple): string requires WellTyped(t) { t[2].text }
  function TripId(t: StopDepartureTuple): int requires WellTyped(t) { t[3].num }
  function TripDirectionId(t: StopDepartureTuple): int requires WellTyped(t) { t[4].num }
  function TripRouteId(t: StopDepartureTuple): int requires WellTyped(t) { t[5].num }
  function TripTripId(t: StopDepartureTuple): string requires WellTyped(t) && |t| == 7 { t[6].text }

  /** `StopDepartureTuple.create` of src/scenario/scenario.ts: every accessor gives back its argument. */
  function Create(stopId: int, departureDate: string, departureTime: string, tripId: int,
                  tripDirectionId: int, tripRouteId: int, tripTripId: string): (t: StopDepartureTuple)
    ensures WellTyped(t) && |t| == 7
    ensures StopId(t) == stopId && DepartureDate(t) == departureDate && DepartureTime(t) == departureTime
    ensures TripId(t) == tripId && TripDirectionId(t) == tripDirectionId && TripRouteId(t) == tripRouteId
    ensures TripTripId(t) == tripTripId
  {
    [Num(stopId), Text(departureDate), Text(departureTime), Num(tripId), Num(tripDirectionId), Num(tripRouteId), Text(tripTripId)]
  }

  /** `StopDepartureTuple.create` of src/scenario/scenario-fetcher.ts, without `trip_trip_id`. */
  function CreateShort(stopId: int, departureDate: string, departureTime: string, tripId: int,
                       tripDirectionId: int, tripRouteId: int): (t: StopDepartureTuple)
    ensures WellTyped(t) && |t| == 6
    ensures StopId(t) == stopId && DepartureDate(t) == departureDate && DepartureTime(t) == departureTime
    ensures TripId(t) == tripId && TripDirectionId(t) == tripDirectionId && TripRouteId(t) == tripRouteId
  {
    [Num(stopId), Text(departureDate), Text(departureTime), Num(tripId), Num(tripDirectionId), Num(tripRouteId)]
  }

  /** A well-typed tuple is determined by its accessors: `create` of them rebuilds it. */
  lemma CreateOfAccessors(t: StopDepartureTuple)
    requires WellTyped(t)
    ensures |t| == 7 ==> t == Create(StopId(t), DepartureDate(t), DepartureTime(t), TripId(t), TripDirectionId(t), TripRouteId(t), TripTripId(t))
    ensures |t| == 6 ==> t == CreateShort(StopId(t), DepartureDate(t), DepartureTime(t), TripId(t), TripDirectionId(t), TripRouteId(t))
  {
    if |t| == 7 {
      var c := Create(StopId(t), DepartureDate(t), DepartureTime(t), TripId(t), TripDirectionId(t), TripRouteId(t), TripTripId(t));
      assert forall i :: 0 <= i < 7 ==> c[i] == t[i];
    } else {
      var c := CreateShort(StopId(t), DepartureDate(t), DepartureTime(t), TripId(t), TripDirectionId(t), TripRouteId(t));
      assert forall i :: 0 <= i < 6 ==> c[i] == t[i];
    }
  }

  /** The `StopTime` the receiver rebuilds from a tuple before caching it. */
  function StopTimeOf(t: StopDepartureTuple): DepartureCache.StopTime
    requires WellTyped(t)
  {
    DepartureCache.StopTime(DepartureTime(t), TripId(t), TripDirectionId(t), TripRouteId(t))
  }

  /**
   * `StopDepartureTuple.fromStopTime` of src/scenario/scenario.ts; `tripTripId`
   * is the `trip.trip_id` the sender reads off the departure.
   */
  function FromStopTime(stopId: int, departureDate: string, st: DepartureCache.StopTime, tripTripId: string): (t: StopDepartureTuple)
    ensures WellTyped(t) && |t| == 7
    ensures StopId(t) == stopId && DepartureDate(t) == departureDate && TripTripId(t) == tripTripId
    ensures StopTimeOf(t) == st
  {
    Create(stopId, departureDate, st.departureTime, st.tripId, st.directionId, st.routeId, tripTripId)
  }

  /** `StopDepartureTuple.fromStopTime` of src/scenario/scenario-fetcher.ts. */
  function FromStopTimeShort(stopId: int, departureDate: string, st: DepartureCache.StopTime): (t: StopDepartureTuple)
    ensures WellTyped(t) && |t| == 6
    ensures StopId(t) == stopId && DepartureDate(t) == departureDate
    ensures StopTimeOf(t) == st
  {
    CreateShort(stopId, departureDate, st.departureTime, st.tripId, st.directionId, st.routeId)
  }

  // ---------------------------------------------------------------------
  // StopDepartureQueryVars
  // ---------------------------------------------------------------------

  /** The GraphQL variables of the stop-departure query: one date and one include flag per weekday. */
  class StopDepartureQueryVars {
    var ids: seq<int>
    var monday: string
    var tuesday: string
    var wednesday: string
    var thursday: string
    var friday: string
    var saturday: string
    var sunday: string
    var includeMonday: bool
    var includeTuesday: bool
    var includeWednesday: bool
    var includeThursday: bool
    var includeFriday: bool
    var includeSaturday: bool
    var includeSunday: bool

    /** The date field of weekday `w` (0 = Sunday, as `getDay()` numbers them). */
    function DateOf(w: int): string
      reads this
      requires 0 <= w < 7
    {
      match w
      case 0 => sunday
      case 1 => monday
      case 2 => tuesday
      case 3 => wednesday
      case 4 => thursday
      case 5 => friday
      case _ => saturday
    }

    /** The include flag of weekday `w`. */
    predicate IncludeOf(w: int)
      reads this
      requires 0 <= w < 7
    {
      match w
      case 0 => includeSunday
      case 1 => includeMonday
      case 2 => includeTuesday
      case 3 => includeWednesday
      case 4 => includeThursday
      case 5 => includeFriday
      case _ => includeSaturday
    }

    constructor ()
      ensures ids == []
      ensures forall w :: 0 <= w < 7 ==> DateOf(w) == "" && !IncludeOf(w)
    {
      ids := [];
      monday, tuesday, wednesday, thursday, friday, saturday, sunday := "", "", "", "", "", "", "";
      includeMonday, includeTuesday, includeWednesday, includeThursday := false, false, false, false;
      includeFriday, includeSaturday, includeSunday := false, false, false;
    }

    /** `get(dow)`: the date of the named weekday, or `''` for any other name. */
    function Get(dow: string): (r: string)
      reads this
      ensures forall w :: 0 <= w < 7 && dow == Calendar.DayNames[w] ==> r == DateOf(w)
      ensures dow !in Calendar.DayNames ==> r == ""
    {
      if dow == "monday" then monday
      else if dow == "tuesday" then tuesday
      else if dow == "wednesday" then wednesday
      else if dow == "thursday" then thursday
      else if dow == "friday" then friday
      else if dow == "saturday" then saturday
      else if dow == "sunday" then sunday
      else ""
    }

    /**
     * `setDay(d)`: stores `d` as the date of its weekday and includes that
     * weekday; every other field keeps its value.
     */
    method SetDay(d: Calendar.Date)
      modifies this
      ensures DateOf(Calendar.Weekday(d)) == Calendar.FmtDate(d) && IncludeOf(Calendar.Weekday(d))
      ensures Get(Calendar.DayNames[Calendar.Weekday(d)]) == Calendar.FmtDate(d)
      ensures forall w :: 0 <= w < 7 && w != Calendar.Weekday(d) ==> DateOf(w) == old(DateOf(w)) && IncludeOf(w) == old(IncludeOf(w))
      ensures ids == old(ids)
    {
      SetWeekday(Calendar.Weekday(d), Calendar.FmtDate(d));
    }

    /** The `switch (d.getDay())` of `setDay`, given the weekday and the formatted date. */
    method SetWeekday(weekday: int, formatted: string)
      requires 0 <= weekday < 7
      modifies this
      ensures DateOf(weekday) == formatted && IncludeOf(weekday)
      ensures Get(Calendar.DayNames[weekday]) == formatted
      ensures forall w :: 0 <= w < 7 && w != weekday ==> DateOf(w) == old(DateOf(w)) && IncludeOf(w) == old(IncludeOf(w))
      ensures ids == old(ids)
    {
      match weekday {
      case 0 =>
        sunday := formatted;
        includeSunday := true;
      case 1 =>
        monday := formatted;
        includeMonday := true;
      case 2 =>
        tuesday := formatted;
        includeTuesday := true;
      case 3 =>
        wednesday := formatted;
        includeWednesday := true;
      case 4 =>
        thursday := formatted;
        includeThursday := true;
      case 5 =>
        friday := formatted;
        includeFriday := true;
      case 6 =>
        saturday := formatted;
        includeSaturday := true;
      }
      forall w | 0 <= w < 7 && w != weekday
        ensures DateOf(w) == old(DateOf(w)) && IncludeOf(w) == old(IncludeOf(w))
      {
      }
    }
  }

  // ---------------------------------------------------------------------
  // ScenarioDataReceiver
  // ---------------------------------------------------------------------

  /** A stop record as the GraphQL API returns it: its id and its other fields. */
  datatype StopGql = StopGql(id: int, fields: map<string, string>)
  /** A route record as the GraphQL API returns it: its id and its other fields. */
  datatype RouteGql = RouteGql(id: int, fields: map<string, string>)
  datatype FeedVersion = FeedVersion(id: string, sha1: string)

  /** The entities a progress event carries. */
  datatype PartialData = PartialData(stops: seq<StopGql>, routes: seq<RouteGql>, feedVersions: seq<FeedVersion>,
                                     stopDepartures: seq<StopDepartureTuple>)

  datatype ScenarioProgress = ScenarioProgress(isLoading: bool, currentStage: string, partialData: Option<PartialData>)
  {
    /** Every departure tuple the event carries has the declared slot types. */
    predicate TuplesWellTyped()
    {
      partialData.Some? ==> forall t :: t in partialData.value.stopDepartures ==> WellTyped(t)
    }
  }

  /** Which of the optional callbacks the receiver was given. */
  datatype Callbacks = Callbacks(hasOnProgress: bool, hasOnComplete: bool, hasOnError: bool)

  /** One invocation of a caller-supplied callback. */
  datatype CallbackCall = ProgressCall(progress: ScenarioProgress) | CompleteCall | ErrorCall(error: string)

  datatype ScenarioData = ScenarioData(stops: seq<StopGql>, routes: seq<RouteGql>, feedVersions: seq<FeedVersion>,
                                       stopDepartureCache: DepartureCache.StopDepartureCache)

  /** The cache contents after adding each tuple, in order, as a one-element list under its stop and date. */
  function Accumulated(m: DepartureCache.StopDates, events: seq<StopDepartureTuple>): DepartureCache.StopDates
    requires forall t :: t in events ==> WellTyped(t)
  {
    if events == [] then m
    else
      var e := events[|events| - 1];
      DepartureCache.Appended(Accumulated(m, events[..|events| - 1]), StopId(e), DepartureDate(e), [StopTimeOf(e)])
  }

  /** The departures the tuples carry for one stop and date, in order. */
  function DeparturesFor(events: seq<StopDepartureTuple>, id: int, date: string): (r: seq<DepartureCache.StopTime>)
    requires forall t :: t in events ==> WellTyped(t)
    ensures |r| <= |events|
  {
    if events == [] then []
    else
      var e := events[|events| - 1];
      DeparturesFor(events[..|events| - 1], id, date) +
        (if StopId(e) == id && DepartureDate(e) == date then [StopTimeOf(e)] else [])
  }

  /**
   * Accumulating tuples appends to each (stop, date) list exactly the
   * departures of the tuples for that stop and date, in tuple order.
   */
  lemma {:induction false} AccumulatedLookup(m: DepartureCache.StopDates, events: seq<StopDepartureTuple>, id: int, date: string)
    requires forall t :: t in events ==> WellTyped(t)
    ensures DepartureCache.Lookup(Accumulated(m, events), id, date) ==
      DepartureCache.Lookup(m, id, date) + DeparturesFor(events, id, date)
  {
    if events != [] {
      var e := events[|events| - 1];
      var init := events[..|events| - 1];
      assert forall t :: t in init ==> t in events;
      AccumulatedLookup(m, init, id, date);
      DepartureCache.AppendedLookup(Accumulated(m, init), StopId(e), DepartureDate(e), [StopTimeOf(e)], id, date);
    }
  }

  /** Every accumulated tuple ends up in the cache: its stop and date have service. */
  lemma {:induction false} AccumulatedHasService(m: DepartureCache.StopDates, events: seq<StopDepartureTuple>, k: nat)
    requires forall t :: t in events ==> WellTyped(t)
    requires k < |events|
    ensures StopTimeOf(events[k]) in DepartureCache.Lookup(Accumulated(m, events), StopId(events[k]), DepartureDate(events[k]))
  {
    var e := events[|events| - 1];
    var init := events[..|events| - 1];
    assert forall t :: t in init ==> t in events;
    if k == |events| - 1 {
      DepartureCache.AppendedLookup(Accumulated(m, init), StopId(e), DepartureDate(e), [StopTimeOf(e)], StopId(e), DepartureDate(e));
    } else {
      AccumulatedHasService(m, init, k);
      assert init[k] == events[k];
      DepartureCache.AppendedLookup(Accumulated(m, init), StopId(e), DepartureDate(e), [StopTimeOf(e)], StopId(events[k]), DepartureDate(events[k]));
    }
  }

  /**
   * The receiver of src/scenario/scenario.ts (and src/scenario/scenario-fetcher.ts):
   * appends the entities of each progress event and caches its departures.
   */
  class ScenarioDataReceiver {
    var stops: seq<StopGql>
    var routes: seq<RouteGql>
    var feedVersions: seq<FeedVersion>
    const stopDepartureCache: DepartureCache.StopDepartureCache
    const callbacks: Callbacks
    /** The callback invocations made so far, oldest first. */
    var calls: seq<CallbackCall>

    ghost predicate Valid()
      reads this, stopDepartureCache
    {
      stopDepartureCache.Valid()
    }

    constructor (callbacks: Callbacks)
      ensures Valid() && fresh(stopDepartureCache)
      ensures stops == [] && routes == [] && feedVersions == [] && stopDepartureCache.cache == map[]
      ensures this.callbacks == callbacks && calls == []
    {
      this.callbacks := callbacks;
      stops, routes, feedVersions := [], [], [];
      stopDepartureCache := new DepartureCache.StopDepartureCache();
      calls := [];
    }

    /**
     * `onProgress(progress)`: with partial data, appends its stops, routes
     * and feed versions and caches each departure tuple; then forwards the
     * event to the `onProgress` callback when there is one.
     */
    method OnProgress(progress: ScenarioProgress)
      requires Valid() && progress.TuplesWellTyped()
      modifies this, stopDepartureCache
      ensures Valid()
      ensures progress.partialData.Some? ==>
        var pd := progress.partialData.value;
        stops == old(stops) + pd.stops && routes == old(routes) + pd.routes &&
        feedVersions == old(feedVersions) + pd.feedVersions &&
        stopDepartureCache.cache == Accumulated(old(stopDepartureCache.cache), pd.stopDepartures)
      ensures progress.partialData.None? ==>
        stops == old(stops) && routes == old(routes) && feedVersions == old(feedVersions) &&
        stopDepartureCache.cache == old(stopDepartureCache.cache)
      ensures calls == old(calls) + if callbacks.hasOnProgress then [ProgressCall(progress)] else []
    {
      if progress.partialData.Some? {
        var pd := progress.partialData.value;
        stops := stops + pd.stops;
        routes := routes + pd.routes;
        feedVersions := feedVersions + pd.feedVersions;
        var i := 0;
        while i < |pd.stopDepartures|
          invariant 0 <= i <= |pd.stopDepartures|
          invariant stopDepartureCache.Valid()
          invariant stopDepartureCache.cache == Accumulated(old(stopDepartureCache.cache), pd.stopDepartures[..i])
          invariant stops == old(stops) + pd.stops && routes == old(routes) + pd.routes
          invariant feedVersions == old(feedVersions) + pd.feedVersions && calls == old(calls)
        {
          var event := pd.stopDepartures[i];
          var st := DepartureCache.StopTime(DepartureTime(event), TripId(event), TripDirectionId(event), TripRouteId(event));
          stopDepartureCache.Add(StopId(event), DepartureDate(event), [st]);
          assert pd.stopDepartures[..i + 1][..i] == pd.stopDepartures[..i];
          i := i + 1;
        }
        assert pd.stopDepartures[..i] == pd.stopDepartures;
      }
      if callbacks.hasOnProgress {
        calls := calls + [ProgressCall(progress)];
      }
    }

    /** `onComplete()`: forwards to the `onComplete` callback, with no argument. */
    method OnComplete()
      modifies this
      ensures calls == old(calls) + if callbacks.hasOnComplete then [CompleteCall] else []
      ensures stops == old(stops) && routes == old(routes) && feedVersions == old(feedVersions)
    {
      if callbacks.hasOnComplete {
        calls := calls + [CompleteCall];
      }
    }

    /** `onError(error)`: forwards the error to the `onError` callback. */
    method OnError(error: string)
      modifies this
      ensures calls == old(calls) + if callbacks.hasOnError then [ErrorCall(error)] else []
      ensures stops == old(stops) && routes == old(routes) && feedVersions == old(feedVersions)
    {
      if callbacks.hasOnError {
        calls := calls + [ErrorCall(error)];
      }
    }

    /** `getCurrentData()`: a new record holding the accumulated lists and the very same cache object. */
    function GetCurrentData(): (r: ScenarioData)
      reads this
      ensures r.stops == stops && r.routes == routes && r.feedVersions == feedVersions
      ensures r.stopDepartureCache == stopDepartureCache
    {
      ScenarioData(stops, routes, feedVersions, stopDepartureCache)
    }
  }
}
