/**
 * Turning the GTFS-Flex locations a GraphQL query returns into flex area
 * features (src/tl/flex.ts): agencies, routes and booking rules kept once
 * per id (first occurrence wins), pickup / drop-off availability from
 * `pickup_type` / `drop_off_type` 2 of GTFS `stop_times.txt`, the earliest
 * and latest pickup / drop-off window, and the distinct trips.
 */
module Flex {
  import opened Wrappers
  import opened FlexTypes
  import opened InsertionOrder
  import JsNum
  import CoreDatetime

  datatype AgencyGql = AgencyGql(
    agencyId: string, agencyName: string, agencyTimezone: Option<string>, agencyUrl: Option<string>)

  datatype RouteGql = RouteGql(
    routeId: string, routeShortName: Option<string>, routeLongName: Option<string>,
    routeType: int, routeUrl: Option<string>, agency: AgencyGql)

  datatype BookingRuleGql = BookingRuleGql(
    id: int, bookingRuleId: string, bookingType: int,
    priorNoticeDurationMin: Option<int>, priorNoticeDurationMax: Option<int>,
    priorNoticeLastDay: Option<int>, priorNoticeLastTime: Option<int>,
    message: Option<string>, pickupMessage: Option<string>, dropOffMessage: Option<string>,
    phoneNumber: Option<string>, infoUrl: Option<string>, bookingUrl: Option<string>)

  /** A stop time as queried; `trip` is flattened into its id and route. */
  datatype StopTimeGql = StopTimeGql(
    pickupType: int, dropOffType: int,
    startWindow: Option<int>, endWindow: Option<int>,
    pickupBookingRule: Option<BookingRuleGql>, dropOffBookingRule: Option<BookingRuleGql>,
    tripId: string, route: RouteGql)

  /** A location as queried; its polygon geometry is not part of this model. */
  datatype LocationGql = LocationGql(
    id: int, locationId: string, stopName: Option<string>, stopDesc: Option<string>,
    zoneId: Option<string>, feedOnestopId: string, stopTimes: seq<StopTimeGql>)

  /**
   * `formatSeconds`: `Math.floor(seconds / 3600)`, `Math.floor((seconds % 3600) / 60)`
   * and `seconds % 60` (JavaScript's remainder), each padded to two digits
   * and joined by ':'.  Hours are not reduced modulo 24.
   */
  function FormatSeconds(seconds: int): (r: string)
  {
    var h := seconds / 3600;
    var m := JsNum.JsRem(seconds, 3600) / 60;
    var s := JsNum.JsRem(seconds, 60);
    CoreDatetime.Join([JsNum.Pad2(h), JsNum.Pad2(m), JsNum.Pad2(s)], ':')
  }

  /** The three fields of a rendering of a non-negative number of seconds. */
  lemma FormatSecondsFields(seconds: nat)
    ensures CoreDatetime.Split(FormatSeconds(seconds), ':') ==
      [JsNum.Pad2(seconds / 3600), JsNum.Pad2((seconds % 3600) / 60), JsNum.Pad2(seconds % 60)]
  {
    var parts := [JsNum.Pad2(seconds / 3600), JsNum.Pad2((seconds % 3600) / 60), JsNum.Pad2(seconds % 60)];
    forall i | 0 <= i < 3
      ensures ':' !in parts[i]
    {
      JsNum.ParseIntOfPad2(if i == 0 then seconds / 3600 else if i == 1 then (seconds % 3600) / 60 else seconds % 60);
      CoreDatetime.DigitsHaveNoColon(parts[i]);
    }
    CoreDatetime.SplitJoin(parts, ':');
  }

  /**
   * For a non-negative number of seconds the rendering has three fields, the
   * minutes and seconds fields are two digits for values below 60, and
   * reading it back as `h:m:s` gives the number again, past 24 hours included.
   */
  lemma FormatSecondsRoundTrip(seconds: nat)
    ensures var parts := CoreDatetime.Split(FormatSeconds(seconds), ':');
      |parts| == 3 && |parts[1]| == 2 && |parts[2]| == 2 &&
      JsNum.ParseInt(parts[0]) == Some(seconds / 3600) &&
      JsNum.ParseInt(parts[1]) == Some((seconds % 3600) / 60) && (seconds % 3600) / 60 < 60 &&
      JsNum.ParseInt(parts[2]) == Some(seconds % 60)
    ensures CoreDatetime.ParseHMS(Some(FormatSeconds(seconds))) == seconds
  {
    FormatSecondsParts(seconds);
    var text := FormatSeconds(seconds);
    assert OrElse(Some(text), "") == text;
    HoursMinutesSeconds(seconds);
  }

  lemma FormatSecondsParts(seconds: nat)
    ensures var parts := CoreDatetime.Split(FormatSeconds(seconds), ':');
      |parts| == 3 && |parts[1]| == 2 && |parts[2]| == 2 &&
      JsNum.ParseInt(parts[0]) == Some(seconds / 3600) &&
      JsNum.ParseInt(parts[1]) == Some((seconds % 3600) / 60) && (seconds % 3600) / 60 < 60 &&
      JsNum.ParseInt(parts[2]) == Some(seconds % 60)
  {
    var h, m, s := seconds / 3600, (seconds % 3600) / 60, seconds % 60;
    FormatSecondsFields(seconds);
    JsNum.ParseIntOfPad2(h);
    JsNum.ParseIntOfPad2(m);
    JsNum.ParseIntOfPad2(s);
  }

  lemma HoursMinutesSeconds(seconds: nat)
    ensures (seconds / 3600) * 3600 + ((seconds % 3600) / 60) * 60 + seconds % 60 == seconds
    ensures (seconds % 3600) / 60 < 60
  {
  }

  /**
   * `transformBookingRule`: the fields the map shows, with the last booking
   * time also rendered as HH:MM:SS unless it is missing or 0 (JavaScript
   * falsiness).  The durations, the pickup / drop-off messages and the
   * booking URL are not copied, and no booking days are set.
   */
  function TransformBookingRule(rule: BookingRuleGql): (r: FlexBookingRule)
    ensures r.bookingRuleId == rule.bookingRuleId && r.bookingType == rule.bookingType
    ensures r.message == rule.message && r.phoneNumber == rule.phoneNumber && r.infoUrl == rule.infoUrl
    ensures r.priorNoticeLastDay == rule.priorNoticeLastDay && r.priorNoticeLastTime == rule.priorNoticeLastTime
    ensures r.priorNoticeLastTimeFormatted.Some? <==> rule.priorNoticeLastTime.Some? && rule.priorNoticeLastTime.value != 0
    ensures r.bookingDays.None?
  {
    FlexBookingRule(
      rule.bookingRuleId, rule.bookingType, rule.message, rule.phoneNumber, rule.infoUrl,
      rule.priorNoticeLastDay, rule.priorNoticeLastTime,
      if rule.priorNoticeLastTime.Some? && rule.priorNoticeLastTime.value != 0
      then Some(FormatSeconds(rule.priorNoticeLastTime.value)) else None,
      None)
  }

  /** A positive last booking time is rendered as a time that reads back as the same number of seconds. */
  lemma BookingRuleTimeRoundTrip(rule: BookingRuleGql)
    requires rule.priorNoticeLastTime.Some? && rule.priorNoticeLastTime.value > 0
    ensures var r := TransformBookingRule(rule);
      r.priorNoticeLastTimeFormatted.Some? &&
      CoreDatetime.ParseHMS(r.priorNoticeLastTimeFormatted) == rule.priorNoticeLastTime.value
  {
    FormatSecondsRoundTrip(rule.priorNoticeLastTime.value);
  }

  function AgencyOf(a: AgencyGql): FlexAgency
  {
    FlexAgency(a.agencyId, a.agencyName, a.agencyTimezone, a.agencyUrl)
  }

  function RouteOf(r: RouteGql): FlexRoute
  {
    FlexRoute(r.routeId, r.routeShortName, r.routeLongName, r.routeType, r.routeUrl)
  }

  /** Each stop time's agency keyed by its id, in stop-time order. */
  function AgencyEntries(sts: seq<StopTimeGql>): (r: seq<(string, FlexAgency)>)
    ensures |r| == |sts|
    ensures forall i :: 0 <= i < |sts| ==> r[i] == (sts[i].route.agency.agencyId, AgencyOf(sts[i].route.agency))
  {
    seq(|sts|, i requires 0 <= i < |sts| => (sts[i].route.agency.agencyId, AgencyOf(sts[i].route.agency)))
  }

  /** Each stop time's route keyed by its id, in stop-time order. */
  function RouteEntries(sts: seq<StopTimeGql>): (r: seq<(string, FlexRoute)>)
    ensures |r| == |sts|
    ensures forall i :: 0 <= i < |sts| ==> r[i] == (sts[i].route.routeId, RouteOf(sts[i].route))
  {
    seq(|sts|, i requires 0 <= i < |sts| => (sts[i].route.routeId, RouteOf(sts[i].route)))
  }

  /** The booking rules that are present, keyed by `booking_rule_id`, in stop-time order. */
  function RuleEntries(rules: seq<Option<BookingRuleGql>>): (r: seq<(string, FlexBookingRule)>)
    ensures |r| <= |rules|
  {
    if rules == [] then []
    else
      var last := rules[|rules| - 1];
      RuleEntries(rules[..|rules| - 1]) +
        (if last.Some? then [(last.value.bookingRuleId, TransformBookingRule(last.value))] else [])
  }

  /** A rule id gets an entry exactly when some stop time carries a rule with that id. */
  lemma {:induction false} RuleEntriesKeys(rules: seq<Option<BookingRuleGql>>, id: string)
    ensures id in Keys(RuleEntries(rules)) <==> exists i :: 0 <= i < |rules| && rules[i].Some? && rules[i].value.bookingRuleId == id
  {
    if rules != [] {
      var p := rules[..|rules| - 1];
      var last := rules[|rules| - 1];
      RuleEntriesKeys(p, id);
      var e := if last.Some? then [(last.value.bookingRuleId, TransformBookingRule(last.value))] else [];
      assert Keys(RuleEntries(rules)) == Keys(RuleEntries(p)) + Keys(e);
      if exists i :: 0 <= i < |p| && p[i].Some? && p[i].value.bookingRuleId == id {
        var i :| 0 <= i < |p| && p[i].Some? && p[i].value.bookingRuleId == id;
        assert rules[i] == p[i];
      }
      if exists i :: 0 <= i < |rules| && rules[i].Some? && rules[i].value.bookingRuleId == id {
        var i :| 0 <= i < |rules| && rules[i].Some? && rules[i].value.bookingRuleId == id;
        if i < |p| {
          assert p[i] == rules[i];
        } else {
          assert Keys(e) == [id];
        }
      }
    }
  }

  /** The entry of the first stop time that carries a rule with a given id is that rule, transformed. */
  lemma {:induction false} RuleEntriesFirst(rules: seq<Option<BookingRuleGql>>, i: nat)
    requires i < |rules| && rules[i].Some?
    requires forall j :: 0 <= j < i && rules[j].Some? ==> rules[j].value.bookingRuleId != rules[i].value.bookingRuleId
    ensures var m := FirstValues(RuleEntries(rules));
      rules[i].value.bookingRuleId in m && m[rules[i].value.bookingRuleId] == TransformBookingRule(rules[i].value)
  {
    var id := rules[i].value.bookingRuleId;
    var entries := RuleEntries(rules[..i + 1]);
    assert rules[..i + 1][..i] == rules[..i];
    assert entries == RuleEntries(rules[..i]) + [(id, TransformBookingRule(rules[i].value))];
    assert id !in Keys(RuleEntries(rules[..i])) by {
      RuleEntriesKeys(rules[..i], id);
    }
    forall j | 0 <= j < |entries| - 1
      ensures entries[j].0 != id
    {
      assert entries[j].0 == Keys(RuleEntries(rules[..i]))[j];
    }
    FirstValuesFirst(entries, |entries| - 1);
    RuleEntriesPrefix(rules, i + 1);
  }

  /** Later stop times never change the value kept for a rule id already seen. */
  lemma {:induction false} RuleEntriesPrefix(rules: seq<Option<BookingRuleGql>>, n: nat)
    requires n <= |rules|
    ensures forall id :: id in FirstValues(RuleEntries(rules[..n])) ==>
      id in FirstValues(RuleEntries(rules)) && FirstValues(RuleEntries(rules))[id] == FirstValues(RuleEntries(rules[..n]))[id]
  {
    if n < |rules| {
      var p := rules[..|rules| - 1];
      assert p[..n] == rules[..n];
      RuleEntriesPrefix(p, n);
      var last := rules[|rules| - 1];
      var e := if last.Some? then [(last.value.bookingRuleId, TransformBookingRule(last.value))] else [];
      forall id | id in FirstValues(RuleEntries(rules[..n]))
        ensures id in FirstValues(RuleEntries(rules)) &&
          FirstValues(RuleEntries(rules))[id] == FirstValues(RuleEntries(rules[..n]))[id]
      {
        FirstValuesAppend(RuleEntries(p), e, id);
      }
    } else {
      assert rules[..n] == rules;
    }
  }

  /** Appending entries keeps the value the map already holds for a key. */
  lemma FirstValuesAppend<K(!new), V>(entries: seq<(K, V)>, more: seq<(K, V)>, k: K)
    requires k in FirstValues(entries)
    ensures k in FirstValues(entries + more) && FirstValues(entries + more)[k] == FirstValues(entries)[k]
  {
    assert (entries + more)[..|entries|] == entries;
    FirstValuesPrefix(entries + more, |entries|, k);
  }

  /** The value a key has after a prefix of the entries is the one it keeps after all of them. */
  lemma {:induction false} FirstValuesPrefix<K(!new), V>(entries: seq<(K, V)>, n: nat, k: K)
    requires n <= |entries| && k in FirstValues(entries[..n])
    ensures k in FirstValues(entries) && FirstValues(entries)[k] == FirstValues(entries[..n])[k]
    decreases |entries|
  {
    if n == |entries| {
      assert entries[..n] == entries;
    } else {
      var init := entries[..|entries| - 1];
      assert init[..n] == entries[..n];
      FirstValuesPrefix(init, n, k);
      var m := FirstValues(init);
      var e := entries[|entries| - 1];
      assert FirstValues(entries) == if e.0 in m then m else m[e.0 := e.1];
    }
  }

  function PickupRules(sts: seq<StopTimeGql>): (r: seq<Option<BookingRuleGql>>)
    ensures |r| == |sts| && forall i :: 0 <= i < |sts| ==> r[i] == sts[i].pickupBookingRule
  {
    seq(|sts|, i requires 0 <= i < |sts| => sts[i].pickupBookingRule)
  }

  function DropOffRules(sts: seq<StopTimeGql>): (r: seq<Option<BookingRuleGql>>)
    ensures |r| == |sts| && forall i :: 0 <= i < |sts| ==> r[i] == sts[i].dropOffBookingRule
  {
    seq(|sts|, i requires 0 <= i < |sts| => sts[i].dropOffBookingRule)
  }

  function PickupTypes(sts: seq<StopTimeGql>): (r: seq<int>)
    ensures |r| == |sts| && forall i :: 0 <= i < |sts| ==> r[i] == sts[i].pickupType
  {
    seq(|sts|, i requires 0 <= i < |sts| => sts[i].pickupType)
  }

  function DropOffTypes(sts: seq<StopTimeGql>): (r: seq<int>)
    ensures |r| == |sts| && forall i :: 0 <= i < |sts| ==> r[i] == sts[i].dropOffType
  {
    seq(|sts|, i requires 0 <= i < |sts| => sts[i].dropOffType)
  }

  function TripIds(sts: seq<StopTimeGql>): (r: seq<string>)
    ensures |r| == |sts| && forall i :: 0 <= i < |sts| ==> r[i] == sts[i].tripId
  {
    seq(|sts|, i requires 0 <= i < |sts| => sts[i].tripId)
  }

  function RouteTypes(routes: seq<FlexRoute>): (r: seq<int>)
    ensures |r| == |routes| && forall i :: 0 <= i < |routes| ==> r[i] == routes[i].routeType
  {
    seq(|routes|, i requires 0 <= i < |routes| => routes[i].routeType)
  }

  /** The smaller of a running minimum and a window value, where undefined means "none yet". */
  function MinOf(acc: Option<int>, v: Option<int>): Option<int>
  {
    if v.Some? && (acc.None? || v.value < acc.value) then v else acc
  }

  function MaxOf(acc: Option<int>, v: Option<int>): Option<int>
  {
    if v.Some? && (acc.None? || v.value > acc.value) then v else acc
  }

  /** The running minimum of the defined window starts. */
  function EarliestStart(sts: seq<StopTimeGql>): Option<int>
  {
    if sts == [] then None else MinOf(EarliestStart(sts[..|sts| - 1]), sts[|sts| - 1].startWindow)
  }

  /** The running maximum of the defined window ends. */
  function LatestEnd(sts: seq<StopTimeGql>): Option<int>
  {
    if sts == [] then None else MaxOf(LatestEnd(sts[..|sts| - 1]), sts[|sts| - 1].endWindow)
  }

  /**
   * The earliest start is undefined exactly when no stop time defines a
   * start; otherwise it is one of the defined starts and no defined start
   * is smaller.
   */
  lemma {:induction false} EarliestStartIsMinimum(sts: seq<StopTimeGql>)
    ensures EarliestStart(sts).None? <==> forall i :: 0 <= i < |sts| ==> sts[i].startWindow.None?
    ensures EarliestStart(sts).Some? ==>
      (exists i :: 0 <= i < |sts| && sts[i].startWindow == EarliestStart(sts)) &&
      forall i :: 0 <= i < |sts| && sts[i].startWindow.Some? ==> EarliestStart(sts).value <= sts[i].startWindow.value
  {
    if sts != [] {
      var p := sts[..|sts| - 1];
      EarliestStartIsMinimum(p);
      assert forall i :: 0 <= i < |p| ==> sts[i] == p[i];
      if EarliestStart(sts) == EarliestStart(p) && EarliestStart(p).Some? {
        var i :| 0 <= i < |p| && p[i].startWindow == EarliestStart(p);
        assert sts[i].startWindow == EarliestStart(sts);
      }
    }
  }

  /** The latest end, symmetrically: undefined iff no end is defined, else the greatest defined end. */
  lemma {:induction false} LatestEndIsMaximum(sts: seq<StopTimeGql>)
    ensures LatestEnd(sts).None? <==> forall i :: 0 <= i < |sts| ==> sts[i].endWindow.None?
    ensures LatestEnd(sts).Some? ==>
      (exists i :: 0 <= i < |sts| && sts[i].endWindow == LatestEnd(sts)) &&
      forall i :: 0 <= i < |sts| && sts[i].endWindow.Some? ==> sts[i].endWindow.value <= LatestEnd(sts).value
  {
    if sts != [] {
      var p := sts[..|sts| - 1];
      LatestEndIsMaximum(p);
      assert forall i :: 0 <= i < |p| ==> sts[i] == p[i];
      if LatestEnd(sts) == LatestEnd(p) && LatestEnd(p).Some? {
        var i :| 0 <= i < |p| && p[i].endWindow == LatestEnd(p);
        assert sts[i].endWindow == LatestEnd(sts);
      }
    }
  }

  /** `agency_ids`: the agency ids in order of first appearance. */
  function AgencyIds(sts: seq<StopTimeGql>): seq<string>
  {
    Distinct(Keys(AgencyEntries(sts)))
  }

  /** `agencies`: for each agency id, the agency of its first stop time. */
  function Agencies(sts: seq<StopTimeGql>): seq<FlexAgency>
  {
    ValuesInOrder(AgencyIds(sts), FirstValues(AgencyEntries(sts)))
  }

  function RouteIds(sts: seq<StopTimeGql>): seq<string>
  {
    Distinct(Keys(RouteEntries(sts)))
  }

  function Routes(sts: seq<StopTimeGql>): seq<FlexRoute>
  {
    ValuesInOrder(RouteIds(sts), FirstValues(RouteEntries(sts)))
  }

  /** `route_types`: each listed route's type once. */
  function RouteTypeSet(sts: seq<StopTimeGql>): seq<int>
  {
    Distinct(RouteTypes(Routes(sts)))
  }

  function RuleIds(rules: seq<Option<BookingRuleGql>>): seq<string>
  {
    Distinct(Keys(RuleEntries(rules)))
  }

  function Rules(rules: seq<Option<BookingRuleGql>>): seq<FlexBookingRule>
  {
    ValuesInOrder(RuleIds(rules), FirstValues(RuleEntries(rules)))
  }

  function Formatted(t: Option<int>): Option<string>
  {
    if t.Some? then Some(FormatSeconds(t.value)) else None
  }

  /** The properties a location's stop times give it. */
  function PropertiesOf(location: LocationGql): FlexAreaProperties
  {
    var sts := location.stopTimes;
    var pickupTypes := Distinct(PickupTypes(sts));
    var dropOffTypes := Distinct(DropOffTypes(sts));
    var tripIds := Distinct(TripIds(sts));
    FlexAreaProperties(
      location.locationId, location.stopName,
      Agencies(sts), AgencyIds(sts),
      Routes(sts), RouteIds(sts), RouteTypeSet(sts),
      2 in pickupTypes, pickupTypes, RuleIds(PickupRules(sts)), Rules(PickupRules(sts)),
      2 in dropOffTypes, dropOffTypes, RuleIds(DropOffRules(sts)), Rules(DropOffRules(sts)),
      EarliestStart(sts), Formatted(EarliestStart(sts)), LatestEnd(sts), Formatted(LatestEnd(sts)),
      tripIds, |tripIds|, |sts|, None)
  }

  /** The flex area feature a location becomes. */
  function FlexAreaOf(location: LocationGql): FlexAreaFeature
  {
    FlexAreaFeature(location.feedOnestopId + ":" + location.locationId, PropertiesOf(location))
  }

  /**
   * `transformLocationToFlexArea`: the loops that fill the agency, route and
   * booking-rule maps and the pickup / drop-off type sets, the loop that
   * tracks the earliest start and latest end, and the trip-id set.
   */
  method TransformLocationToFlexArea(location: LocationGql) returns (feature: FlexAreaFeature)
    ensures feature == FlexAreaOf(location)
  {
    var stopTimes := location.stopTimes;
    var agencyIds, agencyMap := CollectFirst(AgencyEntries(stopTimes));
    var routeIds, routeMap := CollectFirst(RouteEntries(stopTimes));
    var pickupTypes := CollectDistinct(PickupTypes(stopTimes));
    var dropOffTypes := CollectDistinct(DropOffTypes(stopTimes));
    var pickupRuleIds, pickupRuleMap := CollectFirst(RuleEntries(PickupRules(stopTimes)));
    var dropOffRuleIds, dropOffRuleMap := CollectFirst(RuleEntries(DropOffRules(stopTimes)));
    var timeWindowStart, timeWindowEnd := TimeWindow(stopTimes);
    var tripIds := CollectDistinct(TripIds(stopTimes));
    var routes := ValuesInOrder(routeIds, routeMap);
    var routeTypes := CollectDistinct(RouteTypes(routes));
    var properties := FlexAreaProperties(
      location.locationId, location.stopName,
      ValuesInOrder(agencyIds, agencyMap), agencyIds,
      routes, routeIds, routeTypes,
      2 in pickupTypes, pickupTypes, pickupRuleIds, ValuesInOrder(pickupRuleIds, pickupRuleMap),
      2 in dropOffTypes, dropOffTypes, dropOffRuleIds, ValuesInOrder(dropOffRuleIds, dropOffRuleMap),
      timeWindowStart, Formatted(timeWindowStart), timeWindowEnd, Formatted(timeWindowEnd),
      tripIds, |tripIds|, |stopTimes|, None);
    feature := FlexAreaFeature(location.feedOnestopId + ":" + location.locationId, properties);
  }

  /** The loop that tracks the earliest defined start and the latest defined end. */
  method TimeWindow(stopTimes: seq<StopTimeGql>) returns (timeWindowStart: Option<int>, timeWindowEnd: Option<int>)
    ensures timeWindowStart == EarliestStart(stopTimes) && timeWindowEnd == LatestEnd(stopTimes)
  {
    timeWindowStart, timeWindowEnd := None, None;
    for i := 0 to |stopTimes|
      invariant timeWindowStart == EarliestStart(stopTimes[..i])
      invariant timeWindowEnd == LatestEnd(stopTimes[..i])
    {
      assert stopTimes[..i + 1][..i] == stopTimes[..i];
      var st := stopTimes[i];
      if st.startWindow.Some? {
        if timeWindowStart.None? || st.startWindow.value < timeWindowStart.value {
          timeWindowStart := st.startWindow;
        }
      }
      if st.endWindow.Some? {
        if timeWindowEnd.None? || st.endWindow.value > timeWindowEnd.value {
          timeWindowEnd := st.endWindow;
        }
      }
    }
    assert stopTimes[..|stopTimes|] == stopTimes;
  }

  /**
   * Agencies are listed once per id, in order of first appearance, each
   * with the fields of the first stop time that names it; `agency_ids`
   * lists exactly the agencies' ids.
   */
  lemma AgenciesFirstWins(location: LocationGql, i: nat)
    requires i < |location.stopTimes|
    requires forall j :: 0 <= j < i ==> location.stopTimes[j].route.agency.agencyId != location.stopTimes[i].route.agency.agencyId
    ensures var p := FlexAreaOf(location).properties;
      NoDuplicates(p.agencyIds) && |p.agencies| == |p.agencyIds| &&
      (forall k :: 0 <= k < |p.agencies| ==> p.agencies[k].agencyId == p.agencyIds[k]) &&
      exists k :: 0 <= k < |p.agencies| && p.agencies[k] == AgencyOf(location.stopTimes[i].route.agency)
  {
    var sts := location.stopTimes;
    var entries := AgencyEntries(sts);
    var p := FlexAreaOf(location).properties;
    FirstValuesFirst(entries, i);
    forall k | 0 <= k < |p.agencies|
      ensures p.agencies[k].agencyId == p.agencyIds[k]
    {
      AgencyKeyedById(entries, p.agencyIds[k]);
    }
    var id := sts[i].route.agency.agencyId;
    assert id in Keys(entries);
    var k :| 0 <= k < |p.agencyIds| && p.agencyIds[k] == id;
    assert p.agencies[k] == AgencyOf(sts[i].route.agency);
  }

  lemma AgencyKeyedById(entries: seq<(string, FlexAgency)>, id: string)
    requires forall i :: 0 <= i < |entries| ==> entries[i].1.agencyId == entries[i].0
    requires id in FirstValues(entries)
    ensures FirstValues(entries)[id].agencyId == id
  {
    var i := FirstIndex(entries, id);
    FirstValuesFirst(entries, i);
  }

  lemma RouteKeyedById(entries: seq<(string, FlexRoute)>, id: string)
    requires forall i :: 0 <= i < |entries| ==> entries[i].1.routeId == entries[i].0
    requires id in FirstValues(entries)
    ensures FirstValues(entries)[id].routeId == id
  {
    var i := FirstIndex(entries, id);
    FirstValuesFirst(entries, i);
  }

  /** The index where a key present in the entries first appears. */
  function FirstIndex<V>(entries: seq<(string, V)>, id: string): (i: nat)
    requires id in Keys(entries)
    ensures i < |entries| && entries[i].0 == id
    ensures forall j :: 0 <= j < i ==> entries[j].0 != id
  {
    if entries[0].0 == id then 0
    else
      assert Keys(entries[1..]) == Keys(entries)[1..];
      1 + FirstIndex(entries[1..], id)
  }

  /** Routes likewise: once per id, first occurrence wins, `route_ids` are their ids. */
  lemma RoutesFirstWins(location: LocationGql, i: nat)
    requires i < |location.stopTimes|
    requires forall j :: 0 <= j < i ==> location.stopTimes[j].route.routeId != location.stopTimes[i].route.routeId
    ensures var p := FlexAreaOf(location).properties;
      NoDuplicates(p.routeIds) && |p.routes| == |p.routeIds| &&
      (forall k :: 0 <= k < |p.routes| ==> p.routes[k].routeId == p.routeIds[k]) &&
      exists k :: 0 <= k < |p.routes| && p.routes[k] == RouteOf(location.stopTimes[i].route)
  {
    var sts := location.stopTimes;
    var entries := RouteEntries(sts);
    var p := FlexAreaOf(location).properties;
    FirstValuesFirst(entries, i);
    forall k | 0 <= k < |p.routes|
      ensures p.routes[k].routeId == p.routeIds[k]
    {
      RouteKeyedById(entries, p.routeIds[k]);
    }
    var id := sts[i].route.routeId;
    assert id in Keys(entries);
    var k :| 0 <= k < |p.routeIds| && p.routeIds[k] == id;
    assert p.routes[k] == RouteOf(sts[i].route);
  }

  /** `route_types` holds each type of a listed route once. */
  lemma RouteTypesOfRoutes(location: LocationGql)
    ensures var p := FlexAreaOf(location).properties;
      NoDuplicates(p.routeTypes) &&
      forall t :: t in p.routeTypes <==> exists k :: 0 <= k < |p.routes| && p.routes[k].routeType == t
  {
    var p := FlexAreaOf(location).properties;
    forall t | t in p.routeTypes
      ensures exists k :: 0 <= k < |p.routes| && p.routes[k].routeType == t
    {
      var k :| 0 <= k < |RouteTypes(p.routes)| && RouteTypes(p.routes)[k] == t;
      assert p.routes[k].routeType == t;
    }
    forall t, k | 0 <= k < |p.routes| && p.routes[k].routeType == t
      ensures t in p.routeTypes
    {
      assert RouteTypes(p.routes)[k] == t;
    }
  }

  /**
   * Pickup is available exactly when some stop time has `pickup_type` 2,
   * drop-off exactly when some stop time has `drop_off_type` 2.
   */
  lemma AvailabilityFromTypes(location: LocationGql)
    ensures var p := FlexAreaOf(location).properties;
      var sts := location.stopTimes;
      (p.pickupAvailable <==> exists i :: 0 <= i < |sts| && sts[i].pickupType == 2) &&
      (p.dropOffAvailable <==> exists i :: 0 <= i < |sts| && sts[i].dropOffType == 2)
  {
    var sts := location.stopTimes;
    var p := FlexAreaOf(location).properties;
    assert p.pickupAvailable == (2 in PickupTypes(sts));
    assert p.dropOffAvailable == (2 in DropOffTypes(sts));
    HasTwo(PickupTypes(sts));
    HasTwo(DropOffTypes(sts));
  }

  lemma HasTwo(types: seq<int>)
    ensures 2 in types <==> exists i :: 0 <= i < |types| && types[i] == 2
  {
  }

  /**
   * Pickup booking rules: one per `booking_rule_id`, listed with their ids,
   * and the rule kept for an id is the first stop time's rule with it.
   */
  lemma PickupRulesFirstWins(location: LocationGql, i: nat)
    requires i < |location.stopTimes| && location.stopTimes[i].pickupBookingRule.Some?
    requires forall j :: 0 <= j < i && location.stopTimes[j].pickupBookingRule.Some? ==>
      location.stopTimes[j].pickupBookingRule.value.bookingRuleId != location.stopTimes[i].pickupBookingRule.value.bookingRuleId
    ensures var p := FlexAreaOf(location).properties;
      NoDuplicates(p.pickupBookingRuleIds) && |p.pickupBookingRules| == |p.pickupBookingRuleIds| &&
      exists k :: 0 <= k < |p.pickupBookingRuleIds| &&
        p.pickupBookingRuleIds[k] == location.stopTimes[i].pickupBookingRule.value.bookingRuleId &&
        p.pickupBookingRules[k] == TransformBookingRule(location.stopTimes[i].pickupBookingRule.value)
  {
    var rules := PickupRules(location.stopTimes);
    RuleEntriesFirst(rules, i);
    var id := rules[i].value.bookingRuleId;
    var p := FlexAreaOf(location).properties;
    var k :| 0 <= k < |p.pickupBookingRuleIds| && p.pickupBookingRuleIds[k] == id;
  }

  /** Drop-off booking rules, likewise. */
  lemma DropOffRulesFirstWins(location: LocationGql, i: nat)
    requires i < |location.stopTimes| && location.stopTimes[i].dropOffBookingRule.Some?
    requires forall j :: 0 <= j < i && location.stopTimes[j].dropOffBookingRule.Some? ==>
      location.stopTimes[j].dropOffBookingRule.value.bookingRuleId != location.stopTimes[i].dropOffBookingRule.value.bookingRuleId
    ensures var p := FlexAreaOf(location).properties;
      NoDuplicates(p.dropOffBookingRuleIds) && |p.dropOffBookingRules| == |p.dropOffBookingRuleIds| &&
      exists k :: 0 <= k < |p.dropOffBookingRuleIds| &&
        p.dropOffBookingRuleIds[k] == location.stopTimes[i].dropOffBookingRule.value.bookingRuleId &&
        p.dropOffBookingRules[k] == TransformBookingRule(location.stopTimes[i].dropOffBookingRule.value)
  {
    var rules := DropOffRules(location.stopTimes);
    RuleEntriesFirst(rules, i);
    var id := rules[i].value.bookingRuleId;
    var p := FlexAreaOf(location).properties;
    var k :| 0 <= k < |p.dropOffBookingRuleIds| && p.dropOffBookingRuleIds[k] == id;
  }

  /**
   * The time window is the earliest defined start and the latest defined
   * end, each undefined (with no rendering) when no stop time defines one.
   */
  lemma TimeWindowBounds(location: LocationGql)
    ensures var p := FlexAreaOf(location).properties;
      var sts := location.stopTimes;
      (p.timeWindowStart.None? <==> forall i :: 0 <= i < |sts| ==> sts[i].startWindow.None?) &&
      (p.timeWindowStart.Some? ==>
        (exists i :: 0 <= i < |sts| && sts[i].startWindow == p.timeWindowStart) &&
        (forall i :: 0 <= i < |sts| && sts[i].startWindow.Some? ==> p.timeWindowStart.value <= sts[i].startWindow.value)) &&
      (p.timeWindowEnd.None? <==> forall i :: 0 <= i < |sts| ==> sts[i].endWindow.None?) &&
      (p.timeWindowEnd.Some? ==>
        (exists i :: 0 <= i < |sts| && sts[i].endWindow == p.timeWindowEnd) &&
        (forall i :: 0 <= i < |sts| && sts[i].endWindow.Some? ==> sts[i].endWindow.value <= p.timeWindowEnd.value)) &&
      (p.timeWindowStartFormatted.Some? <==> p.timeWindowStart.Some?) &&
      (p.timeWindowEndFormatted.Some? <==> p.timeWindowEnd.Some?)
  {
    WindowOfProperties(location);
    WindowBounds(FlexAreaOf(location).properties, location.stopTimes);
  }

  lemma WindowBounds(p: FlexAreaProperties, sts: seq<StopTimeGql>)
    requires p.timeWindowStart == EarliestStart(sts) && p.timeWindowEnd == LatestEnd(sts)
    ensures (p.timeWindowStart.None? <==> forall i :: 0 <= i < |sts| ==> sts[i].startWindow.None?) &&
      (p.timeWindowStart.Some? ==>
        (exists i :: 0 <= i < |sts| && sts[i].startWindow == p.timeWindowStart) &&
        (forall i :: 0 <= i < |sts| && sts[i].startWindow.Some? ==> p.timeWindowStart.value <= sts[i].startWindow.value)) &&
      (p.timeWindowEnd.None? <==> forall i :: 0 <= i < |sts| ==> sts[i].endWindow.None?) &&
      (p.timeWindowEnd.Some? ==>
        (exists i :: 0 <= i < |sts| && sts[i].endWindow == p.timeWindowEnd) &&
        (forall i :: 0 <= i < |sts| && sts[i].endWindow.Some? ==> sts[i].endWindow.value <= p.timeWindowEnd.value))
  {
    EarliestStartIsMinimum(sts);
    LatestEndIsMaximum(sts);
  }

  lemma WindowOfProperties(location: LocationGql)
    ensures var p := FlexAreaOf(location).properties;
      && p.timeWindowStart == EarliestStart(location.stopTimes) && p.timeWindowEnd == LatestEnd(location.stopTimes)
      && (p.timeWindowStartFormatted.Some? <==> p.timeWindowStart.Some?)
      && (p.timeWindowEndFormatted.Some? <==> p.timeWindowEnd.Some?)
  {
  }

  /**
   * Trip ids are each stop time's trip once, in first-seen order; the trip
   * count is their number and the stop-time count the number of stop times.
   * The feature's id is the feed's Onestop ID and the location id joined by ':'.
   */
  lemma TripsAndCounts(location: LocationGql)
    ensures var f := FlexAreaOf(location);
      var p := f.properties;
      var sts := location.stopTimes;
      NoDuplicates(p.tripIds) &&
      (forall t :: t in p.tripIds <==> exists i :: 0 <= i < |sts| && sts[i].tripId == t) &&
      p.tripCount == |p.tripIds| <= |sts| && p.stopTimeCount == |sts| &&
      f.id == location.feedOnestopId + ":" + location.locationId &&
      p.locationId == location.locationId && p.locationName == location.stopName
  {
    var sts := location.stopTimes;
    var p := FlexAreaOf(location).properties;
    forall t | t in p.tripIds
      ensures exists i :: 0 <= i < |sts| && sts[i].tripId == t
    {
      var i :| 0 <= i < |sts| && TripIds(sts)[i] == t;
    }
    forall t, i | 0 <= i < |sts| && sts[i].tripId == t
      ensures t in p.tripIds
    {
      assert TripIds(sts)[i] == t;
    }
  }

  /**
   * `transformLocationsToFlexAreas`: the locations with stop times (those
   * with service on the queried date), in order, each transformed; no other
   * feature appears.
   */
  function TransformLocationsToFlexAreas(locations: seq<LocationGql>): (r: seq<FlexAreaFeature>)
    ensures forall f :: f in r <==> exists l :: l in locations && |l.stopTimes| > 0 && f == FlexAreaOf(l)
  {
    if locations == [] then []
    else
      var rest := TransformLocationsToFlexAreas(locations[1..]);
      var r := if |locations[0].stopTimes| > 0 then [FlexAreaOf(locations[0])] + rest else rest;
      LocationsStep(locations, rest, r);
      r
  }

  lemma LocationsStep(locations: seq<LocationGql>, rest: seq<FlexAreaFeature>, r: seq<FlexAreaFeature>)
    requires locations != []
    requires forall f :: f in rest <==> exists l :: l in locations[1..] && |l.stopTimes| > 0 && f == FlexAreaOf(l)
    requires r == if |locations[0].stopTimes| > 0 then [FlexAreaOf(locations[0])] + rest else rest
    ensures forall f :: f in r <==> exists l :: l in locations && |l.stopTimes| > 0 && f == FlexAreaOf(l)
  {
    assert forall l :: l in locations <==> l == locations[0] || l in locations[1..];
  }

  /** Order is kept: the features of two runs of locations are those of the first run followed by those of the second. */
  lemma {:induction false} TransformLocationsInOrder(a: seq<LocationGql>, b: seq<LocationGql>)
    ensures TransformLocationsToFlexAreas(a + b) == TransformLocationsToFlexAreas(a) + TransformLocationsToFlexAreas(b)
  {
    if a == [] {
      assert a + b == b;
    } else {
      var l, t := a[0], a[1..];
      ConsSplit(a, b);
      TransformCons(l, t + b);
      TransformCons(l, t);
      TransformLocationsInOrder(t, b);
      ConcatAssoc(if |l.stopTimes| > 0 then [FlexAreaOf(l)] else [],
        TransformLocationsToFlexAreas(t), TransformLocationsToFlexAreas(b));
    }
  }

  lemma ConsSplit<T>(a: seq<T>, b: seq<T>)
    requires a != []
    ensures a == [a[0]] + a[1..] && a + b == [a[0]] + (a[1..] + b)
  {
  }

  lemma ConcatAssoc<T>(x: seq<T>, y: seq<T>, z: seq<T>)
    ensures (x + y) + z == x + (y + z)
  {
  }

  /** One location in front contributes its feature, if it has stop times, in front. */
  lemma TransformCons(l: LocationGql, ls: seq<LocationGql>)
    ensures TransformLocationsToFlexAreas([l] + ls)
      == (if |l.stopTimes| > 0 then [FlexAreaOf(l)] else []) + TransformLocationsToFlexAreas(ls)
  {
    assert ([l] + ls)[0] == l;
    assert ([l] + ls)[1..] == ls;
  }
}
