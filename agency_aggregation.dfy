/**
 * The agency list the scenario filter derives from its stop and route
 * features: every route stop of every stop is grouped under its agency's
 * GTFS `agency_id` (route stops without one are skipped), each group
 * counting its distinct routes and stops and listing its route modes, and
 * an agency is marked when a marked stop or a marked route belongs to it.
 * The same loop appears in `applyScenarioResultFilter` and in the older
 * scenario code's `buildAgencyFeatures`.
 */
module AgencyAggregation {
  import opened Wrappers
  import opened InsertionOrder
  import FlexTypes

  /** A route's agency as a route or a route stop carries it: database id, GTFS `agency_id` and name. */
  datatype AgencyRef = AgencyRef(id: int, agencyId: string, agencyName: string)

  /** A stop's route: its id, its GTFS `route_type` and its agency, if any. */
  datatype RouteStop = RouteStop(routeId: int, routeType: int, agency: Option<AgencyRef>)

  /** What the aggregation reads of a stop feature. */
  datatype StopRow = StopRow(id: int, routeStops: seq<RouteStop>, marked: bool)

  /** What the aggregation reads of a route feature. */
  datatype RouteRow = RouteRow(agency: Option<AgencyRef>, marked: bool)

  /** One entry of the agency list. */
  datatype AgencyFeature = AgencyFeature(marked: bool, routesCount: nat, routesModes: string, stopsCount: nat,
                                         id: int, agencyId: string, agencyName: string)

  /** `routeTypeNames.get(t) || 'Unknown'`. */
  function RouteTypeName(t: int): string
  {
    if t == 0 then "Light rail"
    else if t == 1 then "Subway"
    else if t == 2 then "Intercity rail"
    else if t == 3 then "Bus"
    else if t == 4 then "Ferry"
    else "Unknown"
  }

  /** `rstop.route.agency?.agency_id` when it is truthy (present and not empty). */
  function AgencyIdOf(rs: RouteStop): Option<string>
  {
    if rs.agency.Some? && rs.agency.value.agencyId != "" then Some(rs.agency.value.agencyId) else None
  }

  //////////////////////////////////////////////////////////////////////
  // The route stops the loop visits
  //////////////////////////////////////////////////////////////////////

  /** A route stop seen at a stop. */
  datatype Sighting = Sighting(stopId: int, rstop: RouteStop)

  function SightingsAt(s: StopRow): (r: seq<Sighting>)
    ensures |r| == |s.routeStops| && forall j :: 0 <= j < |r| ==> r[j] == Sighting(s.id, s.routeStops[j])
  {
    seq(|s.routeStops|, j requires 0 <= j < |s.routeStops| => Sighting(s.id, s.routeStops[j]))
  }

  /** The route stops of all stops, in the order of the nested loops. */
  function Sightings(stops: seq<StopRow>): seq<Sighting>
  {
    if stops == [] then [] else Sightings(stops[..|stops| - 1]) + SightingsAt(stops[|stops| - 1])
  }

  /** A sighting whose agency has a truthy `agency_id`, with what the group keeps of it. */
  datatype Keyed = Keyed(aid: string, agency: AgencyRef, stopId: int, routeId: int, routeType: int)

  function KeyOf(x: Sighting): (r: Option<Keyed>)
    ensures r.Some? <==> AgencyIdOf(x.rstop).Some?
  {
    if AgencyIdOf(x.rstop).Some?
    then Some(Keyed(x.rstop.agency.value.agencyId, x.rstop.agency.value, x.stopId, x.rstop.routeId, x.rstop.routeType))
    else None
  }

  function KeyList(x: Sighting): seq<Keyed>
  {
    if KeyOf(x).Some? then [KeyOf(x).value] else []
  }

  /** The sightings that are not skipped, in order. */
  function KeyedOf(v: seq<Sighting>): seq<Keyed>
  {
    if v == [] then [] else KeyedOf(v[..|v| - 1]) + KeyList(v[|v| - 1])
  }

  lemma SightingsSnoc(stops: seq<StopRow>, i: nat)
    requires i < |stops|
    ensures Sightings(stops[..i + 1]) == Sightings(stops[..i]) + SightingsAt(stops[i])
  {
    assert stops[..i + 1][..i] == stops[..i];
  }

  lemma SightingsAtSnoc(done: seq<Sighting>, stop: StopRow, j: nat)
    requires j < |stop.routeStops|
    ensures done + SightingsAt(stop)[..j + 1] == (done + SightingsAt(stop)[..j]) + [Sighting(stop.id, stop.routeStops[j])]
  {
  }

  lemma KeyedSnoc(v: seq<Sighting>, x: Sighting)
    ensures KeyedOf(v + [x]) == KeyedOf(v) + KeyList(x)
  {
    assert (v + [x])[..|v|] == v;
  }

  //////////////////////////////////////////////////////////////////////
  // The groups, defined directly
  //////////////////////////////////////////////////////////////////////

  function AgencyPairs(ks: seq<Keyed>): (r: seq<(string, AgencyRef)>)
    ensures |r| == |ks| && forall i :: 0 <= i < |ks| ==> r[i] == (ks[i].aid, ks[i].agency)
  {
    seq(|ks|, i requires 0 <= i < |ks| => (ks[i].aid, ks[i].agency))
  }

  /** The route ids seen under agency `k`. */
  function RoutesOf(ks: seq<Keyed>, k: string): set<int>
  {
    set i | 0 <= i < |ks| && ks[i].aid == k :: ks[i].routeId
  }

  /** The stop ids seen under agency `k`. */
  function StopsOf(ks: seq<Keyed>, k: string): set<int>
  {
    set i | 0 <= i < |ks| && ks[i].aid == k :: ks[i].stopId
  }

  /** The route types seen under agency `k`, in order, repeats included. */
  function TypesOf(ks: seq<Keyed>, k: string): seq<int>
  {
    if ks == [] then []
    else TypesOf(ks[..|ks| - 1], k) + (if ks[|ks| - 1].aid == k then [ks[|ks| - 1].routeType] else [])
  }

  /** The `agencyData` entry of a group. */
  datatype AgencyData = AgencyData(id: string, routes: set<int>, routesModes: seq<int>, stops: set<int>, agency: AgencyRef)

  /** The loop body: the group of `e` created if new, then its sets extended. */
  function Record(m: map<string, AgencyData>, e: Keyed): (r: map<string, AgencyData>)
    ensures forall k :: k in r <==> k in m || k == e.aid
  {
    var a := if e.aid in m then m[e.aid] else AgencyData(e.aid, {}, [], {}, e.agency);
    m[e.aid := a.(routes := a.routes + {e.routeId},
                  routesModes := if e.routeType in a.routesModes then a.routesModes else a.routesModes + [e.routeType],
                  stops := a.stops + {e.stopId})]
  }

  /** `agencyData` after the loop body has run on each sighting in turn. */
  function DataMap(ks: seq<Keyed>): (m: map<string, AgencyData>)
    ensures forall k :: k in m <==> k in Keys(AgencyPairs(ks))
  {
    if ks == [] then map[]
    else
      assert Keys(AgencyPairs(ks)) == Keys(AgencyPairs(ks[..|ks| - 1])) + [ks[|ks| - 1].aid];
      Record(DataMap(ks[..|ks| - 1]), ks[|ks| - 1])
  }

  /** The order of the groups: the `Map`'s insertion order, each agency id where it was first seen. */
  function AgencyOrder(ks: seq<Keyed>): (r: seq<string>)
    ensures NoDuplicates(r) && forall k :: k in r <==> k in DataMap(ks)
  {
    Distinct(Keys(AgencyPairs(ks)))
  }

  lemma NoneBefore(ks: seq<Keyed>, k: string)
    requires k !in Keys(AgencyPairs(ks))
    ensures RoutesOf(ks, k) == {} && StopsOf(ks, k) == {} && TypesOf(ks, k) == []
  {
    if ks != [] {
      var p := ks[..|ks| - 1];
      assert Keys(AgencyPairs(ks))[|ks| - 1] == ks[|ks| - 1].aid;
      assert forall i :: 0 <= i < |p| ==> Keys(AgencyPairs(p))[i] == Keys(AgencyPairs(ks))[i];
      NoneBefore(p, k);
    }
  }

  lemma RoutesLast(ks: seq<Keyed>, k: string)
    requires ks != []
    ensures var e := ks[|ks| - 1];
      RoutesOf(ks, k) == RoutesOf(ks[..|ks| - 1], k) + (if e.aid == k then {e.routeId} else {})
  {
    var p := ks[..|ks| - 1];
    forall x | x in RoutesOf(ks, k)
      ensures x in RoutesOf(p, k) || (ks[|ks| - 1].aid == k && x == ks[|ks| - 1].routeId)
    {
      var i :| 0 <= i < |ks| && ks[i].aid == k && ks[i].routeId == x;
      if i < |p| {
        assert p[i] == ks[i];
      }
    }
    forall x | x in RoutesOf(p, k)
      ensures x in RoutesOf(ks, k)
    {
      var i :| 0 <= i < |p| && p[i].aid == k && p[i].routeId == x;
      assert ks[i] == p[i];
    }
  }

  lemma StopsLast(ks: seq<Keyed>, k: string)
    requires ks != []
    ensures var e := ks[|ks| - 1];
      StopsOf(ks, k) == StopsOf(ks[..|ks| - 1], k) + (if e.aid == k then {e.stopId} else {})
  {
    var p := ks[..|ks| - 1];
    forall x | x in StopsOf(ks, k)
      ensures x in StopsOf(p, k) || (ks[|ks| - 1].aid == k && x == ks[|ks| - 1].stopId)
    {
      var i :| 0 <= i < |ks| && ks[i].aid == k && ks[i].stopId == x;
      if i < |p| {
        assert p[i] == ks[i];
      }
    }
    forall x | x in StopsOf(p, k)
      ensures x in StopsOf(ks, k)
    {
      var i :| 0 <= i < |p| && p[i].aid == k && p[i].stopId == x;
      assert ks[i] == p[i];
    }
  }

  lemma DistinctAppend(t: seq<int>, x: int)
    ensures Distinct(t + [x]) == if x in Distinct(t) then Distinct(t) else Distinct(t) + [x]
  {
    assert (t + [x])[..|t|] == t;
    assert (t + [x])[..|t| + 1] == t + [x];
    DistinctSnoc(t + [x], |t|);
  }

  lemma FirstSnoc(ks: seq<Keyed>, e: Keyed)
    ensures var f := FirstValues(AgencyPairs(ks));
      FirstValues(AgencyPairs(ks + [e])) == if e.aid in f then f else f[e.aid := e.agency]
  {
    var pairs' := AgencyPairs(ks + [e]);
    assert pairs'[..|ks|] == AgencyPairs(ks);
    assert pairs'[..|ks| + 1] == pairs';
    FirstValuesSnoc(pairs', |ks|);
  }

  lemma DataMapSnoc(ks: seq<Keyed>, e: Keyed)
    ensures DataMap(ks + [e]) == Record(DataMap(ks), e)
  {
    assert (ks + [e])[..|ks|] == ks;
  }

  lemma OrderSnoc(ks: seq<Keyed>, e: Keyed)
    ensures AgencyOrder(ks + [e]) == if e.aid in AgencyOrder(ks) then AgencyOrder(ks) else AgencyOrder(ks) + [e.aid]
  {
    var keys := Keys(AgencyPairs(ks + [e]));
    assert keys[..|ks|] == Keys(AgencyPairs(ks));
    assert keys[..|ks| + 1] == keys;
    DistinctSnoc(keys, |ks|);
  }

  /** A group's route set is the set of route ids seen under its agency id. */
  lemma {:induction false} GroupRoutes(ks: seq<Keyed>, k: string)
    requires k in DataMap(ks)
    ensures DataMap(ks)[k].routes == RoutesOf(ks, k)
  {
    var p := ks[..|ks| - 1];
    RoutesLast(ks, k);
    if k in DataMap(p) {
      GroupRoutes(p, k);
    } else {
      NoneBefore(p, k);
    }
  }

  /** A group's stop set is the set of stop ids seen under its agency id. */
  lemma {:induction false} GroupStops(ks: seq<Keyed>, k: string)
    requires k in DataMap(ks)
    ensures DataMap(ks)[k].stops == StopsOf(ks, k)
  {
    var p := ks[..|ks| - 1];
    StopsLast(ks, k);
    if k in DataMap(p) {
      GroupStops(p, k);
    } else {
      NoneBefore(p, k);
    }
  }

  /** A group's modes are the route types seen under its agency id, once each, in first-seen order. */
  lemma {:induction false} GroupModes(ks: seq<Keyed>, k: string)
    requires k in DataMap(ks)
    ensures DataMap(ks)[k].routesModes == Distinct(TypesOf(ks, k))
  {
    var p := ks[..|ks| - 1];
    var e := ks[|ks| - 1];
    assert TypesOf(ks, k) == TypesOf(p, k) + (if e.aid == k then [e.routeType] else []);
    if k in DataMap(p) {
      GroupModes(p, k);
      if k == e.aid {
        DistinctAppend(TypesOf(p, k), e.routeType);
      } else {
        assert TypesOf(ks, k) == TypesOf(p, k);
      }
    } else {
      NoneBefore(p, k);
      DistinctAppend([], e.routeType);
      assert [] + [e.routeType] == [e.routeType];
    }
  }

  /** A group keeps its agency id and the first agency seen under it. */
  lemma {:induction false} GroupAgency(ks: seq<Keyed>, k: string)
    requires k in DataMap(ks)
    ensures DataMap(ks)[k].id == k && DataMap(ks)[k].agency == FirstValues(AgencyPairs(ks))[k]
  {
    var p := ks[..|ks| - 1];
    FirstLast(ks);
    if k in DataMap(p) {
      GroupAgency(p, k);
    }
  }

  lemma FirstLast(ks: seq<Keyed>)
    requires ks != []
    ensures var f := FirstValues(AgencyPairs(ks[..|ks| - 1]));
      var e := ks[|ks| - 1];
      FirstValues(AgencyPairs(ks)) == if e.aid in f then f else f[e.aid := e.agency]
  {
    assert ks == ks[..|ks| - 1] + [ks[|ks| - 1]];
    FirstSnoc(ks[..|ks| - 1], ks[|ks| - 1]);
  }

  /** The loop body on one route stop of a stop: skipped without a truthy agency id, otherwise recorded. */
  method RecordRouteStop(order: seq<string>, agencyData: map<string, AgencyData>, ghost ks: seq<Keyed>,
                         stopId: int, rstop: RouteStop)
    returns (order': seq<string>, agencyData': map<string, AgencyData>)
    requires order == AgencyOrder(ks) && agencyData == DataMap(ks)
    ensures order' == AgencyOrder(ks + KeyList(Sighting(stopId, rstop)))
    ensures agencyData' == DataMap(ks + KeyList(Sighting(stopId, rstop)))
  {
    order', agencyData' := order, agencyData;
    var agency := rstop.agency;
    if agency.None? || agency.value.agencyId == "" {
      assert ks + [] == ks;
      return;
    }
    var aid := agency.value.agencyId;
    ghost var e := Keyed(aid, agency.value, stopId, rstop.routeId, rstop.routeType);
    assert KeyList(Sighting(stopId, rstop)) == [e];
    DataMapSnoc(ks, e);
    OrderSnoc(ks, e);
    var adata := if aid in agencyData then agencyData[aid] else AgencyData(aid, {}, [], {}, agency.value);
    adata := adata.(routes := adata.routes + {rstop.routeId});
    if rstop.routeType !in adata.routesModes {
      adata := adata.(routesModes := adata.routesModes + [rstop.routeType]);
    }
    adata := adata.(stops := adata.stops + {stopId});
    if aid !in agencyData {
      order' := order + [aid];
    }
    agencyData' := agencyData[aid := adata];
    assert agencyData' == Record(agencyData, e);
  }

  /** The nested loop over stops and their route stops. */
  method CollectAgencyData(stops: seq<StopRow>) returns (order: seq<string>, agencyData: map<string, AgencyData>)
    ensures order == AgencyOrder(KeyedOf(Sightings(stops)))
    ensures agencyData == DataMap(KeyedOf(Sightings(stops)))
  {
    order := [];
    agencyData := map[];
    for i := 0 to |stops|
      invariant order == AgencyOrder(KeyedOf(Sightings(stops[..i])))
      invariant agencyData == DataMap(KeyedOf(Sightings(stops[..i])))
    {
      var stop := stops[i];
      SightingsSnoc(stops, i);
      ghost var done := Sightings(stops[..i]);
      assert done + SightingsAt(stop)[..0] == done;
      for j := 0 to |stop.routeStops|
        invariant order == AgencyOrder(KeyedOf(done + SightingsAt(stop)[..j]))
        invariant agencyData == DataMap(KeyedOf(done + SightingsAt(stop)[..j]))
      {
        ghost var before := done + SightingsAt(stop)[..j];
        SightingsAtSnoc(done, stop, j);
        KeyedSnoc(before, Sighting(stop.id, stop.routeStops[j]));
        order, agencyData := RecordRouteStop(order, agencyData, KeyedOf(before), stop.id, stop.routeStops[j]);
      }
      assert SightingsAt(stop)[..|stop.routeStops|] == SightingsAt(stop);
    }
    assert stops[..|stops|] == stops;
  }

  //////////////////////////////////////////////////////////////////////
  // Marked agencies
  //////////////////////////////////////////////////////////////////////

  /** The database ids of the agencies of some route stops. */
  function AgencyIds(rss: seq<RouteStop>): set<int>
  {
    if rss == [] then {}
    else AgencyIds(rss[..|rss| - 1]) + (if rss[|rss| - 1].agency.Some? then {rss[|rss| - 1].agency.value.id} else {})
  }

  /** `markedAgencies`: the agencies of the route stops of marked stops, then those of marked routes. */
  function MarkedAgencies(stops: seq<StopRow>, routes: seq<RouteRow>): set<int>
  {
    if routes != [] then
      var r := routes[|routes| - 1];
      MarkedAgencies(stops, routes[..|routes| - 1]) + (if r.marked && r.agency.Some? then {r.agency.value.id} else {})
    else if stops != [] then
      var s := stops[|stops| - 1];
      MarkedAgencies(stops[..|stops| - 1], []) + (if s.marked then AgencyIds(s.routeStops) else {})
    else {}
  }

  lemma {:induction false} AgencyIdsMembers(rss: seq<RouteStop>, id: int)
    ensures id in AgencyIds(rss) <==> exists j :: 0 <= j < |rss| && rss[j].agency.Some? && rss[j].agency.value.id == id
  {
    if rss != [] {
      var p := rss[..|rss| - 1];
      AgencyIdsMembers(p, id);
      assert forall j :: 0 <= j < |p| ==> p[j] == rss[j];
    }
  }

  /**
   * An agency id is in `markedAgencies` exactly when a marked stop has a
   * route stop of that agency or a marked route belongs to it.
   */
  lemma {:induction false} MarkedAgenciesMembers(stops: seq<StopRow>, routes: seq<RouteRow>, id: int)
    ensures id in MarkedAgencies(stops, routes) <==>
      (exists i, j :: 0 <= i < |stops| && stops[i].marked && 0 <= j < |stops[i].routeStops| &&
        stops[i].routeStops[j].agency.Some? && stops[i].routeStops[j].agency.value.id == id) ||
      (exists i :: 0 <= i < |routes| && routes[i].marked && routes[i].agency.Some? && routes[i].agency.value.id == id)
  {
    if routes != [] {
      var p := routes[..|routes| - 1];
      MarkedAgenciesMembers(stops, p, id);
      assert forall i :: 0 <= i < |p| ==> p[i] == routes[i];
    } else if stops != [] {
      var p := stops[..|stops| - 1];
      var s := stops[|stops| - 1];
      MarkedAgenciesMembers(p, [], id);
      AgencyIdsMembers(s.routeStops, id);
      assert forall i :: 0 <= i < |p| ==> p[i] == stops[i];
    }
  }

  /** The two loops that fill `markedAgencies`. */
  method CollectMarkedAgencies(stops: seq<StopRow>, routes: seq<RouteRow>) returns (markedAgencies: set<int>)
    ensures markedAgencies == MarkedAgencies(stops, routes)
  {
    markedAgencies := {};
    for i := 0 to |stops|
      invariant markedAgencies == MarkedAgencies(stops[..i], [])
    {
      assert stops[..i + 1][..i] == stops[..i];
      var s := stops[i];
      if s.marked {
        for j := 0 to |s.routeStops|
          invariant markedAgencies == MarkedAgencies(stops[..i], []) + AgencyIds(s.routeStops[..j])
        {
          assert s.routeStops[..j + 1][..j] == s.routeStops[..j];
          var agency := s.routeStops[j].agency;
          if agency.Some? {
            markedAgencies := markedAgencies + {agency.value.id};
          }
        }
        assert s.routeStops[..|s.routeStops|] == s.routeStops;
      }
    }
    assert stops[..|stops|] == stops;
    for i := 0 to |routes|
      invariant markedAgencies == MarkedAgencies(stops, routes[..i])
    {
      assert routes[..i + 1][..i] == routes[..i];
      var r := routes[i];
      if r.marked && r.agency.Some? {
        markedAgencies := markedAgencies + {r.agency.value.id};
      }
    }
    assert routes[..|routes|] == routes;
  }

  //////////////////////////////////////////////////////////////////////
  // The agency list
  //////////////////////////////////////////////////////////////////////

  /** `[...modes].map(...).join(', ')`. */
  function ModeNames(modes: seq<int>): string
  {
    FlexTypes.JoinComma(seq(|modes|, i requires 0 <= i < |modes| => RouteTypeName(modes[i])))
  }

  /** The list entry of a group: the fields of its first agency, its set sizes and its mark. */
  function FeatureOf(a: AgencyData, markedAgencies: set<int>): AgencyFeature
  {
    AgencyFeature(a.agency.id in markedAgencies, |a.routes|, ModeNames(a.routesModes), |a.stops|,
                  a.agency.id, a.agency.agencyId, a.agency.agencyName)
  }

  /** The agency list: one entry per group, in the order the groups were created. */
  function AgenciesOf(stops: seq<StopRow>, routes: seq<RouteRow>): seq<AgencyFeature>
  {
    var ks := KeyedOf(Sightings(stops));
    var order := AgencyOrder(ks);
    var data := DataMap(ks);
    var marked := MarkedAgencies(stops, routes);
    seq(|order|, i requires 0 <= i < |order| => FeatureOf(data[order[i]], marked))
  }

  /** The agency aggregation of the scenario filter. */
  method AggregateAgencies(stops: seq<StopRow>, routes: seq<RouteRow>) returns (agencies: seq<AgencyFeature>)
    ensures agencies == AgenciesOf(stops, routes)
  {
    var order, agencyData := CollectAgencyData(stops);
    var markedAgencies := CollectMarkedAgencies(stops, routes);
    agencies := seq(|order|, i requires 0 <= i < |order| => FeatureOf(agencyData[order[i]], markedAgencies));
  }

  //////////////////////////////////////////////////////////////////////
  // What the agency list states about the stops and routes
  //////////////////////////////////////////////////////////////////////

  lemma {:induction false} SightingsMembers(stops: seq<StopRow>, x: Sighting)
    ensures x in Sightings(stops) <==>
      exists i, j :: 0 <= i < |stops| && 0 <= j < |stops[i].routeStops| && x == Sighting(stops[i].id, stops[i].routeStops[j])
  {
    if stops != [] {
      var p := stops[..|stops| - 1];
      SightingsMembers(p, x);
      assert forall i :: 0 <= i < |p| ==> p[i] == stops[i];
    }
  }

  lemma {:induction false} KeyedMembers(v: seq<Sighting>, e: Keyed)
    ensures e in KeyedOf(v) <==> exists x :: x in v && KeyOf(x) == Some(e)
  {
    if v != [] {
      var p := v[..|v| - 1];
      KeyedMembers(p, e);
      assert v == p + [v[|v| - 1]];
    }
  }

  lemma {:induction false} KeyedWellFormed(v: seq<Sighting>)
    ensures forall e :: e in KeyedOf(v) ==> e.aid == e.agency.agencyId && e.aid != ""
  {
    if v != [] {
      KeyedWellFormed(v[..|v| - 1]);
    }
  }

  /** A keyed entry comes from a route stop of some stop, and every route stop with a truthy agency id gives one. */
  lemma KeyedFromStops(stops: seq<StopRow>, e: Keyed)
    ensures e in KeyedOf(Sightings(stops)) <==>
      exists i, j :: 0 <= i < |stops| && 0 <= j < |stops[i].routeStops| && KeyOf(Sighting(stops[i].id, stops[i].routeStops[j])) == Some(e)
  {
    KeyedMembers(Sightings(stops), e);
    forall x | KeyOf(x) == Some(e)
      ensures x in Sightings(stops) <==>
        exists i, j :: 0 <= i < |stops| && 0 <= j < |stops[i].routeStops| && x == Sighting(stops[i].id, stops[i].routeStops[j])
    {
      SightingsMembers(stops, x);
    }
  }

  lemma {:induction false} FirstOccurrence(ks: seq<Keyed>, k: string) returns (n: nat)
    requires k in Keys(AgencyPairs(ks))
    ensures n < |ks| && ks[n].aid == k && forall m :: 0 <= m < n ==> ks[m].aid != k
  {
    var p := ks[..|ks| - 1];
    assert Keys(AgencyPairs(ks)) == Keys(AgencyPairs(p)) + [ks[|ks| - 1].aid];
    if k in Keys(AgencyPairs(p)) {
      n := FirstOccurrence(p, k);
      assert ks[n] == p[n];
      assert forall m :: 0 <= m < n ==> ks[m] == p[m];
    } else {
      n := |ks| - 1;
      forall m | 0 <= m < n
        ensures ks[m].aid != k
      {
        assert Keys(AgencyPairs(p))[m] == p[m].aid;
      }
    }
  }

  /** The route ids of the route stops whose agency has id `k`, over all stops. */
  function RouteIdsUnder(stops: seq<StopRow>, k: string): set<int>
  {
    set i, j | 0 <= i < |stops| && 0 <= j < |stops[i].routeStops| && AgencyIdOf(stops[i].routeStops[j]) == Some(k)
      :: stops[i].routeStops[j].routeId
  }

  /** The ids of the stops with a route stop whose agency has id `k`. */
  function StopIdsUnder(stops: seq<StopRow>, k: string): set<int>
  {
    set i, j | 0 <= i < |stops| && 0 <= j < |stops[i].routeStops| && AgencyIdOf(stops[i].routeStops[j]) == Some(k)
      :: stops[i].id
  }

  lemma RoutesOfStops(stops: seq<StopRow>, k: string)
    ensures RoutesOf(KeyedOf(Sightings(stops)), k) == RouteIdsUnder(stops, k)
  {
    var ks := KeyedOf(Sightings(stops));
    forall y | y in RoutesOf(ks, k)
      ensures y in RouteIdsUnder(stops, k)
    {
      var n :| 0 <= n < |ks| && ks[n].aid == k && ks[n].routeId == y;
      KeyedFromStops(stops, ks[n]);
    }
    forall y | y in RouteIdsUnder(stops, k)
      ensures y in RoutesOf(ks, k)
    {
      var i, j :| 0 <= i < |stops| && 0 <= j < |stops[i].routeStops| && AgencyIdOf(stops[i].routeStops[j]) == Some(k)
        && stops[i].routeStops[j].routeId == y;
      var e := KeyOf(Sighting(stops[i].id, stops[i].routeStops[j])).value;
      KeyedFromStops(stops, e);
      var n :| 0 <= n < |ks| && ks[n] == e;
    }
  }

  lemma StopsOfStops(stops: seq<StopRow>, k: string)
    ensures StopsOf(KeyedOf(Sightings(stops)), k) == StopIdsUnder(stops, k)
  {
    var ks := KeyedOf(Sightings(stops));
    forall y | y in StopsOf(ks, k)
      ensures y in StopIdsUnder(stops, k)
    {
      var n :| 0 <= n < |ks| && ks[n].aid == k && ks[n].stopId == y;
      KeyedFromStops(stops, ks[n]);
    }
    forall y | y in StopIdsUnder(stops, k)
      ensures y in StopsOf(ks, k)
    {
      var i, j :| 0 <= i < |stops| && 0 <= j < |stops[i].routeStops| && AgencyIdOf(stops[i].routeStops[j]) == Some(k)
        && stops[i].id == y;
      var e := KeyOf(Sighting(stops[i].id, stops[i].routeStops[j])).value;
      KeyedFromStops(stops, e);
      var n :| 0 <= n < |ks| && ks[n] == e;
    }
  }

  lemma AgencyIdsInOrder(stops: seq<StopRow>, routes: seq<RouteRow>)
    ensures var a := AgenciesOf(stops, routes); var order := AgencyOrder(KeyedOf(Sightings(stops)));
      |a| == |order| && forall n :: 0 <= n < |a| ==> a[n].agencyId == order[n]
  {
    var ks := KeyedOf(Sightings(stops));
    var order := AgencyOrder(ks);
    KeyedWellFormed(Sightings(stops));
    forall n | 0 <= n < |order|
      ensures AgenciesOf(stops, routes)[n].agencyId == order[n]
    {
      AgencyEntryId(ks, order[n]);
    }
  }

  lemma ListedIdIsSeen(stops: seq<StopRow>, routes: seq<RouteRow>, n: nat)
    requires n < |AgenciesOf(stops, routes)|
    ensures var k := AgenciesOf(stops, routes)[n].agencyId;
      exists i, j :: 0 <= i < |stops| && 0 <= j < |stops[i].routeStops| && AgencyIdOf(stops[i].routeStops[j]) == Some(k)
  {
    var ks := KeyedOf(Sightings(stops));
    AgencyIdsInOrder(stops, routes);
    var k := AgencyOrder(ks)[n];
    var m := FirstOccurrence(ks, k);
    KeyedWellFormed(Sightings(stops));
    assert ks[m] in ks;
    KeyedFromStops(stops, ks[m]);
  }

  lemma SeenIdIsListed(stops: seq<StopRow>, routes: seq<RouteRow>, i: nat, j: nat)
    requires i < |stops| && j < |stops[i].routeStops| && AgencyIdOf(stops[i].routeStops[j]).Some?
    ensures var a := AgenciesOf(stops, routes);
      exists n :: 0 <= n < |a| && a[n].agencyId == AgencyIdOf(stops[i].routeStops[j]).value
  {
    var ks := KeyedOf(Sightings(stops));
    var order := AgencyOrder(ks);
    var k := AgencyIdOf(stops[i].routeStops[j]).value;
    AgencyIdsInOrder(stops, routes);
    var e := KeyOf(Sighting(stops[i].id, stops[i].routeStops[j])).value;
    KeyedFromStops(stops, e);
    var n :| 0 <= n < |ks| && ks[n] == e;
    assert Keys(AgencyPairs(ks))[n] == k;
    assert k in Keys(AgencyPairs(ks));
    assert k in DataMap(ks);
    assert k in order;
    var o :| 0 <= o < |order| && order[o] == k;
    assert AgenciesOf(stops, routes)[o].agencyId == k;
  }

  /**
   * The agency list has an entry for an `agency_id` exactly when that id is
   * found, truthy, on some route stop of some stop.
   */
  lemma AgencyListKeys(stops: seq<StopRow>, routes: seq<RouteRow>, k: string)
    ensures var a := AgenciesOf(stops, routes);
      (exists n :: 0 <= n < |a| && a[n].agencyId == k) <==>
      exists i, j :: 0 <= i < |stops| && 0 <= j < |stops[i].routeStops| && AgencyIdOf(stops[i].routeStops[j]) == Some(k)
  {
    var a := AgenciesOf(stops, routes);
    if n :| 0 <= n < |a| && a[n].agencyId == k {
      ListedIdIsSeen(stops, routes, n);
    }
    if i, j :| 0 <= i < |stops| && 0 <= j < |stops[i].routeStops| && AgencyIdOf(stops[i].routeStops[j]) == Some(k) {
      SeenIdIsListed(stops, routes, i, j);
    }
  }

  /** No agency id has two entries. */
  lemma AgencyListDistinct(stops: seq<StopRow>, routes: seq<RouteRow>)
    ensures var a := AgenciesOf(stops, routes);
      forall n, m :: 0 <= n < m < |a| ==> a[n].agencyId != a[m].agencyId
  {
    AgencyIdsInOrder(stops, routes);
  }

  /** The entry of agency id `k` carries the first agency seen under `k`, whose `agency_id` is `k`. */
  lemma AgencyEntryId(ks: seq<Keyed>, k: string)
    requires forall e :: e in ks ==> e.aid == e.agency.agencyId
    requires k in DataMap(ks)
    ensures DataMap(ks)[k].agency.agencyId == k
  {
    GroupAgency(ks, k);
    var n := FirstOccurrence(ks, k);
    FirstValuesFirst(AgencyPairs(ks), n);
  }

  /**
   * Each entry counts the distinct routes and the distinct stops of its
   * agency id, lists its route types once each, and carries the fields of
   * the first agency seen under that id.
   */
  lemma AgencyListEntry(stops: seq<StopRow>, routes: seq<RouteRow>, n: nat)
    requires n < |AgenciesOf(stops, routes)|
    ensures var a := AgenciesOf(stops, routes)[n];
      a.routesCount == |RouteIdsUnder(stops, a.agencyId)| && a.stopsCount == |StopIdsUnder(stops, a.agencyId)|
    ensures var ks := KeyedOf(Sightings(stops)); var a := AgenciesOf(stops, routes)[n];
      a.routesModes == ModeNames(Distinct(TypesOf(ks, a.agencyId))) &&
      exists m :: 0 <= m < |ks| && ks[m].aid == a.agencyId && (forall m' :: 0 <= m' < m ==> ks[m'].aid != a.agencyId) &&
        a.id == ks[m].agency.id && a.agencyName == ks[m].agency.agencyName
  {
    AgencyListCounts(stops, routes, n);
    AgencyListFields(stops, routes, n);
  }

  lemma AgencyListCounts(stops: seq<StopRow>, routes: seq<RouteRow>, n: nat)
    requires n < |AgenciesOf(stops, routes)|
    ensures var a := AgenciesOf(stops, routes)[n];
      a.routesCount == |RouteIdsUnder(stops, a.agencyId)| && a.stopsCount == |StopIdsUnder(stops, a.agencyId)|
  {
    var ks := KeyedOf(Sightings(stops));
    var k := AgencyOrder(ks)[n];
    KeyedWellFormed(Sightings(stops));
    AgencyEntryId(ks, k);
    GroupRoutes(ks, k);
    GroupStops(ks, k);
    RoutesOfStops(stops, k);
    StopsOfStops(stops, k);
  }

  lemma AgencyListFields(stops: seq<StopRow>, routes: seq<RouteRow>, n: nat)
    requires n < |AgenciesOf(stops, routes)|
    ensures var ks := KeyedOf(Sightings(stops)); var a := AgenciesOf(stops, routes)[n];
      a.routesModes == ModeNames(Distinct(TypesOf(ks, a.agencyId))) &&
      exists m :: 0 <= m < |ks| && ks[m].aid == a.agencyId && (forall m' :: 0 <= m' < m ==> ks[m'].aid != a.agencyId) &&
        a.id == ks[m].agency.id && a.agencyName == ks[m].agency.agencyName
  {
    var ks := KeyedOf(Sightings(stops));
    var k := AgencyOrder(ks)[n];
    KeyedWellFormed(Sightings(stops));
    AgencyEntryId(ks, k);
    GroupModes(ks, k);
    GroupAgency(ks, k);
    var m := FirstOccurrence(ks, k);
    FirstValuesFirst(AgencyPairs(ks), m);
  }

  /**
   * An entry is marked exactly when its agency's database id is on a route
   * stop of a marked stop or is the agency of a marked route.
   */
  lemma AgencyListMarked(stops: seq<StopRow>, routes: seq<RouteRow>, n: nat)
    requires n < |AgenciesOf(stops, routes)|
    ensures var a := AgenciesOf(stops, routes)[n];
      a.marked <==>
        (exists i, j :: 0 <= i < |stops| && stops[i].marked && 0 <= j < |stops[i].routeStops| &&
          stops[i].routeStops[j].agency.Some? && stops[i].routeStops[j].agency.value.id == a.id) ||
        (exists i :: 0 <= i < |routes| && routes[i].marked && routes[i].agency.Some? && routes[i].agency.value.id == a.id)
  {
    MarkedAgenciesMembers(stops, routes, AgenciesOf(stops, routes)[n].id);
  }
}
