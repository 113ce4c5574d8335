/**
 * The stop exports shared by `src/stop.ts` and `src/tl/stop.ts`: one CSV
 * row per stop (`stopToStopCsv`) and one row per census geography of a
 * layer, aggregating the stops inside it (`stopGeoAggregateCsv`), with
 * averages rounded to two decimals by `roundOr`.
 */
module StopCsv {
  import opened Wrappers
  import opened InsertionOrder
  import ScenarioFilter
  import AgencyAggregation

  /** What a stop row reads of one of its routes: `route.id`, `route.route_type`, `route.agency.id`. */
  datatype RouteRef = RouteRef(routeId: int, routeType: int, agencyId: int)

  /** One census geography a stop lies in. */
  datatype Geography = Geography(id: int, name: string, geoid: string, layerName: string)

  /** The GTFS fields of a stop. */
  datatype StopGtfs = StopGtfs(locationType: int, stopId: string, stopName: Option<string>, stopCode: Option<string>,
                               stopDesc: Option<string>, stopTimezone: Option<string>, stopUrl: Option<string>,
                               zoneId: Option<string>, wheelchairBoarding: Option<int>, platformCode: Option<string>,
                               ttsStopName: Option<string>)

  /** A stop as the exports read it, with its derived visits and mark. */
  datatype StopFeature = StopFeature(id: int, gtfs: StopGtfs, geographies: Option<seq<Geography>>,
                                     routeStops: seq<RouteRef>, visits: Option<ScenarioFilter.StopVisitSummary>,
                                     marked: bool)

  //////////////////////////////////////////////////////////////////////
  // Rounding
  //////////////////////////////////////////////////////////////////////

  /** `Math.round(x)`: the nearest integer, halves rounded up. */
  function Round(x: real): (r: int)
    ensures x - 0.5 < r as real <= x + 0.5
  {
    (x + 0.5).Floor
  }

  /** `roundOr(value)`: null and undefined give null, a number is rounded to two decimals. */
  function RoundOr(value: Option<real>): (r: Option<real>)
    ensures r.None? <==> value.None?
  {
    if value.None? then None else Some(Round(value.value * 100.0) as real / 100.0)
  }

  /** A rounded value lies within half a hundredth of the value, and rounding it again keeps it. */
  lemma RoundOrBounds(value: Option<real>)
    requires value.Some?
    ensures value.value - 0.005 < RoundOr(value).value <= value.value + 0.005
    ensures RoundOr(RoundOr(value)) == RoundOr(value)
  {
    var k := Round(value.value * 100.0);
    var r := k as real / 100.0;
    assert r * 100.0 == k as real;
    assert Round(r * 100.0) == k;
  }

  //////////////////////////////////////////////////////////////////////
  // Sets of a stop's routes
  //////////////////////////////////////////////////////////////////////

  /** The `route.id` values of route stops, as added to a `Set`. */
  function RouteIds(rs: seq<RouteRef>): set<int>
  {
    if rs == [] then {} else RouteIds(rs[..|rs| - 1]) + {rs[|rs| - 1].routeId}
  }

  /** The `route.agency.id` values of route stops, as added to a `Set`. */
  function AgencyIds(rs: seq<RouteRef>): set<int>
  {
    if rs == [] then {} else AgencyIds(rs[..|rs| - 1]) + {rs[|rs| - 1].agencyId}
  }

  /** The route types of route stops, in order. */
  function RouteTypes(rs: seq<RouteRef>): (r: seq<int>)
    ensures |r| == |rs| && forall j :: 0 <= j < |rs| ==> r[j] == rs[j].routeType
  {
    seq(|rs|, j requires 0 <= j < |rs| => rs[j].routeType)
  }

  lemma {:induction false} RouteIdsMember(rs: seq<RouteRef>, id: int)
    ensures id in RouteIds(rs) <==> exists j :: 0 <= j < |rs| && rs[j].routeId == id
  {
    if rs != [] {
      var p := rs[..|rs| - 1];
      RouteIdsMember(p, id);
      assert forall j :: 0 <= j < |p| ==> p[j] == rs[j];
    }
  }

  lemma {:induction false} AgencyIdsMember(rs: seq<RouteRef>, id: int)
    ensures id in AgencyIds(rs) <==> exists j :: 0 <= j < |rs| && rs[j].agencyId == id
  {
    if rs != [] {
      var p := rs[..|rs| - 1];
      AgencyIdsMember(p, id);
      assert forall j :: 0 <= j < |p| ==> p[j] == rs[j];
    }
  }

  /** A stop has at most as many agencies as route stops. */
  lemma {:induction false} AgencyIdsBound(rs: seq<RouteRef>)
    ensures |AgencyIds(rs)| <= |rs|
  {
    if rs != [] {
      AgencyIdsBound(rs[..|rs| - 1]);
    }
  }

  //////////////////////////////////////////////////////////////////////
  // One row per stop
  //////////////////////////////////////////////////////////////////////

  /**
   * A row of the stop CSV: the GTFS fields (without `stop_code`), the
   * mark, the counts, the mode names and the rounded averages, over all
   * dates and per weekday (`dayAverages[getDay()]`).
   */
  datatype StopCsvRow = StopCsvRow(id: int, gtfs: StopGtfs, marked: bool, routesCount: nat, routesModes: string,
                                   agenciesCount: nat, dailyAverage: Option<real>, dayAverages: seq<Option<real>>)

  /** `routeTypes.get(t)`: the name of a known route type, nothing otherwise. */
  function ModeName(t: int): (r: Option<string>)
    ensures r.Some? <==> 0 <= t <= 4
    ensures r.Some? ==> r.value == AgencyAggregation.RouteTypeName(t)
  {
    if 0 <= t <= 4 then Some(AgencyAggregation.RouteTypeName(t)) else None
  }

  /** The names of the known route types of route stops, in order, repeats kept. */
  function KnownModeNames(rs: seq<RouteRef>): seq<string>
  {
    if rs == [] then []
    else
      var m := ModeName(rs[|rs| - 1].routeType);
      KnownModeNames(rs[..|rs| - 1]) + if m.Some? then [m.value] else []
  }

  lemma {:induction false} KnownModeNamesMember(rs: seq<RouteRef>, name: string)
    ensures name in KnownModeNames(rs) <==> exists j :: 0 <= j < |rs| && ModeName(rs[j].routeType) == Some(name)
  {
    if rs != [] {
      var p := rs[..|rs| - 1];
      KnownModeNamesMember(p, name);
      assert forall j :: 0 <= j < |p| ==> p[j] == rs[j];
    }
  }

  /** `parts.join(sep)`. */
  function JoinWith(parts: seq<string>, sep: string): (r: string)
    ensures parts == [] ==> r == ""
    ensures |parts| == 1 ==> r == parts[0]
  {
    if parts == [] then ""
    else if |parts| == 1 then parts[0]
    else parts[0] + sep + JoinWith(parts[1..], sep)
  }

  /** `visits?.<day>?.visit_average`: null without visits. */
  function DayAverage(visits: Option<ScenarioFilter.StopVisitSummary>, w: int): (r: Option<real>)
    ensures visits.None? ==> r.None?
  {
    if visits.Some? && 0 <= w < |visits.value.byDay| then visits.value.byDay[w].visitAverage else None
  }

  /** `visits?.total?.visit_average`. */
  function TotalAverage(visits: Option<ScenarioFilter.StopVisitSummary>): (r: Option<real>)
    ensures visits.None? ==> r.None?
  {
    if visits.Some? then visits.value.total.visitAverage else None
  }

  /**
   * `stopToStopCsv`: the loop collects the stop's agencies and the names of
   * its known route types into sets; the row counts every route stop, the
   * distinct agencies and lists the distinct names joined by ','.
   */
  method StopToStopCsv(stop: StopFeature) returns (row: StopCsvRow)
    ensures row.id == stop.id && row.marked == stop.marked
    ensures row.gtfs == stop.gtfs.(stopCode := None)
    ensures row.routesCount == |stop.routeStops|
    ensures row.agenciesCount == |AgencyIds(stop.routeStops)|
    ensures row.routesModes == JoinWith(Distinct(KnownModeNames(stop.routeStops)), ",")
    ensures row.dailyAverage == RoundOr(TotalAverage(stop.visits))
    ensures |row.dayAverages| == 7 && forall w :: 0 <= w < 7 ==> row.dayAverages[w] == RoundOr(DayAverage(stop.visits, w))
  {
    var routeStops := stop.routeStops;
    var modes: seq<string> := [];
    var agencies: set<int> := {};
    for i := 0 to |routeStops|
      invariant modes == Distinct(KnownModeNames(routeStops[..i]))
      invariant agencies == AgencyIds(routeStops[..i])
    {
      assert routeStops[..i + 1][..i] == routeStops[..i];
      agencies := agencies + {routeStops[i].agencyId};
      var mode := ModeName(routeStops[i].routeType);
      if mode.Some? {
        ghost var before := KnownModeNames(routeStops[..i]);
        assert KnownModeNames(routeStops[..i + 1]) == before + [mode.value];
        assert (before + [mode.value])[..|before|] == before;
        if mode.value !in modes {
          modes := modes + [mode.value];
        }
      } else {
        assert KnownModeNames(routeStops[..i + 1]) == KnownModeNames(routeStops[..i]);
      }
    }
    assert routeStops[..|routeStops|] == routeStops;
    var g := stop.gtfs;
    var gtfs := StopGtfs(g.locationType, g.stopId, g.stopName, None, g.stopDesc, g.stopTimezone, g.stopUrl,
                         g.zoneId, g.wheelchairBoarding, g.platformCode, g.ttsStopName);
    var days := seq(7, w requires 0 <= w < 7 => RoundOr(DayAverage(stop.visits, w)));
    row := StopCsvRow(stop.id, gtfs, stop.marked, |routeStops|, JoinWith(modes, ","), |agencies|,
                      RoundOr(TotalAverage(stop.visits)), days);
  }

  /**
   * The mode names of a stop row are distinct and are exactly the names of
   * its known route types; there are at most five of them.
   */
  lemma StopModes(rs: seq<RouteRef>, name: string)
    ensures NoDuplicates(Distinct(KnownModeNames(rs)))
    ensures name in Distinct(KnownModeNames(rs)) <==> exists j :: 0 <= j < |rs| && 0 <= rs[j].routeType <= 4 &&
                                                                  AgencyAggregation.RouteTypeName(rs[j].routeType) == name
    ensures |Distinct(KnownModeNames(rs))| <= 5
  {
    KnownModeNamesMember(rs, name);
    var names := Distinct(KnownModeNames(rs));
    forall n | n in names
      ensures n in {"Light rail", "Subway", "Intercity rail", "Bus", "Ferry"}
    {
      KnownModeNamesMember(rs, n);
    }
    DistinctWithin(names, {"Light rail", "Subway", "Intercity rail", "Bus", "Ferry"});
  }

  /** A sequence without repeats whose elements lie in `s` is no longer than `s` is large. */
  lemma {:induction false} DistinctWithin<T(!new)>(xs: seq<T>, s: set<T>)
    requires NoDuplicates(xs)
    requires forall x :: x in xs ==> x in s
    ensures |xs| <= |s|
  {
    if xs != [] {
      var x := xs[0];
      assert forall y :: y in xs[1..] ==> y in s - {x};
      DistinctWithin(xs[1..], s - {x});
    }
  }

  //////////////////////////////////////////////////////////////////////
  // One row per geography
  //////////////////////////////////////////////////////////////////////

  /** One pass of the inner loop: a geography of the layer and the stop inside it. */
  datatype Hit = Hit(geog: Geography, stop: StopFeature)

  /** `(stop.census_geographies || [])`. */
  function GeographiesOf(stop: StopFeature): seq<Geography>
  {
    if stop.geographies.Some? then stop.geographies.value else []
  }

  /** `.filter(g => g.layer_name === aggregationKey)`. */
  function LayerGeographies(gs: seq<Geography>, key: string): (r: seq<Geography>)
    ensures forall g :: g in r <==> g in gs && g.layerName == key
  {
    if gs == [] then []
    else LayerGeographies(gs[..|gs| - 1], key) + if gs[|gs| - 1].layerName == key then [gs[|gs| - 1]] else []
  }

  /** The geographies of the layer a stop lies in, each with the stop. */
  function StopHits(stop: StopFeature, key: string): (r: seq<Hit>)
  {
    var geogs := LayerGeographies(GeographiesOf(stop), key);
    seq(|geogs|, k requires 0 <= k < |geogs| => Hit(geogs[k], stop))
  }

  lemma StopHitsSnoc(stop: StopFeature, key: string, k: nat)
    requires k < |LayerGeographies(GeographiesOf(stop), key)|
    ensures StopHits(stop, key)[..k + 1] == StopHits(stop, key)[..k] + [Hit(LayerGeographies(GeographiesOf(stop), key)[k], stop)]
  {
  }

  /** Every pass of the nested loops over the stops, in order. */
  function Hits(stops: seq<StopFeature>, key: string): seq<Hit>
  {
    if stops == [] then [] else Hits(stops[..|stops| - 1], key) + StopHits(stops[|stops| - 1], key)
  }

  lemma {:induction false} HitsMember(stops: seq<StopFeature>, key: string, h: Hit)
    ensures h in Hits(stops, key) <==>
      exists i :: 0 <= i < |stops| && h.stop == stops[i] && h.geog in GeographiesOf(stops[i]) && h.geog.layerName == key
  {
    if stops != [] {
      var p := stops[..|stops| - 1];
      HitsMember(p, key, h);
      assert forall i :: 0 <= i < |p| ==> p[i] == stops[i];
      var last := stops[|stops| - 1];
      var geogs := LayerGeographies(GeographiesOf(last), key);
      if h in StopHits(last, key) {
        var k :| 0 <= k < |geogs| && StopHits(last, key)[k] == h;
        assert geogs[k] in geogs;
      }
      if h.stop == last && h.geog in GeographiesOf(last) && h.geog.layerName == key {
        var k :| 0 <= k < |geogs| && geogs[k] == h.geog;
        assert StopHits(last, key)[k] == h;
      }
    }
  }

  /** The geoid of each pass, in order. */
  function GeoIds(hits: seq<Hit>): (r: seq<string>)
    ensures |r| == |hits| && forall i :: 0 <= i < |hits| ==> r[i] == hits[i].geog.geoid
  {
    if hits == [] then [] else GeoIds(hits[..|hits| - 1]) + [hits[|hits| - 1].geog.geoid]
  }

  /** The accumulator of one geoid: the geography seen first, the visit sum and the sets. */
  datatype Agg = Agg(geoid: string, layerName: string, name: string, visits: nat, stops: set<int>,
                     routes: set<int>, modes: seq<int>, agencies: set<int>)

  function NewAgg(g: Geography): Agg
  {
    Agg(g.geoid, g.layerName, g.name, 0, {}, {}, [], {})
  }

  /** `stop.visits?.total?.visit_count || 0`. */
  function VisitCount(stop: StopFeature): nat
  {
    if stop.visits.Some? then stop.visits.value.total.visitCount else 0
  }

  /** The loop over the route stops: agency, route and route type added to their sets. */
  function AbsorbRoutes(a: Agg, rs: seq<RouteRef>): (r: Agg)
    ensures r.geoid == a.geoid && r.layerName == a.layerName && r.name == a.name
    ensures r.visits == a.visits && r.stops == a.stops
    ensures r.routes == a.routes + RouteIds(rs) && r.agencies == a.agencies + AgencyIds(rs)
  {
    if rs == [] then a
    else
      var p := AbsorbRoutes(a, rs[..|rs| - 1]);
      var x := rs[|rs| - 1];
      p.(agencies := p.agencies + {x.agencyId}, routes := p.routes + {x.routeId},
         modes := if x.routeType in p.modes then p.modes else p.modes + [x.routeType])
  }

  /** A stop counted into the accumulator of one of its geographies. */
  function Absorb(a: Agg, stop: StopFeature): Agg
  {
    AbsorbRoutes(a.(stops := a.stops + {stop.id}, visits := a.visits + VisitCount(stop)), stop.routeStops)
  }

  /** The accumulator of `g` after the passes, none when no pass had that geoid. */
  function AggOf(hits: seq<Hit>, g: string): (r: Option<Agg>)
    ensures r.Some? <==> g in GeoIds(hits)
    ensures r.Some? ==> r.value.geoid == g
  {
    if hits == [] then None
    else
      var p := AggOf(hits[..|hits| - 1], g);
      var h := hits[|hits| - 1];
      if h.geog.geoid != g then p
      else Some(Absorb(if p.Some? then p.value else NewAgg(h.geog), h.stop))
  }

  /** A row of the geography CSV. */
  datatype GeoRow = GeoRow(geoid: string, layerName: string, name: string, routesCount: nat, routesModes: string,
                           stopsCount: nat, agenciesCount: nat, dailyAverage: Option<real>)

  /** `stops[0]?.visits?.total?.date_count || 0`: every row divides by the first stop's date count. */
  function DateCount(stops: seq<StopFeature>): nat
  {
    if stops != [] && stops[0].visits.Some? then stops[0].visits.value.total.dateCount else 0
  }

  function RowOf(a: Agg, dateCount: nat): GeoRow
  {
    GeoRow(a.geoid, a.layerName, a.name, |a.routes|, AgencyAggregation.ModeNames(a.modes), |a.stops|, |a.agencies|,
           RoundOr(Some(ScenarioFilter.CheckDiv(a.visits, dateCount))))
  }

  /** The rows of `stopGeoAggregateCsv`, one per geoid in order of first sight. */
  function GeoAggregate(stops: seq<StopFeature>, key: string): (rows: seq<GeoRow>)
    ensures var order := Distinct(GeoIds(Hits(stops, key)));
            |rows| == |order| && forall i :: 0 <= i < |rows| ==> rows[i].geoid == order[i]
  {
    var hits := Hits(stops, key);
    var order := Distinct(GeoIds(hits));
    seq(|order|, i requires 0 <= i < |order| => RowOf(AggOf(hits, order[i]).value, DateCount(stops)))
  }

  /** The `Map` of the loop after some passes: its keys in insertion order and its values. */
  ghost predicate AggState(hits: seq<Hit>, order: seq<string>, agg: map<string, Agg>)
  {
    && order == Distinct(GeoIds(hits))
    && (forall g :: g in agg <==> g in GeoIds(hits))
    && (forall g :: g in agg ==> AggOf(hits, g) == Some(agg[g]))
  }

  /** The body of the inner loop: the geoid's accumulator fetched or created, updated and stored. */
  method AddHit(ghost hits: seq<Hit>, order: seq<string>, agg: map<string, Agg>, geog: Geography, stop: StopFeature)
    returns (order': seq<string>, agg': map<string, Agg>)
    requires AggState(hits, order, agg)
    ensures AggState(hits + [Hit(geog, stop)], order', agg')
  {
    var a := if geog.geoid in agg then agg[geog.geoid] else NewAgg(geog);
    a := AbsorbStop(a, stop);
    AggStateSnoc(hits, order, agg, Hit(geog, stop));
    order' := if geog.geoid in agg then order else order + [geog.geoid];
    agg' := agg[geog.geoid := a];
  }

  /** The stop counted into one accumulator: its id, its visits, then each of its route stops. */
  method AbsorbStop(a: Agg, stop: StopFeature) returns (r: Agg)
    ensures r == Absorb(a, stop)
  {
    var a0 := a.(stops := a.stops + {stop.id}, visits := a.visits + VisitCount(stop));
    r := a0;
    var routeStops := stop.routeStops;
    for j := 0 to |routeStops|
      invariant r == AbsorbRoutes(a0, routeStops[..j])
    {
      assert routeStops[..j + 1][..j] == routeStops[..j];
      var rstop := routeStops[j];
      r := r.(agencies := r.agencies + {rstop.agencyId}, routes := r.routes + {rstop.routeId});
      if rstop.routeType !in r.modes {
        r := r.(modes := r.modes + [rstop.routeType]);
      }
    }
    assert routeStops[..|routeStops|] == routeStops;
  }

  lemma GeoIdsSnoc(hits: seq<Hit>, h: Hit)
    ensures GeoIds(hits + [h]) == GeoIds(hits) + [h.geog.geoid]
  {
    assert (hits + [h])[..|hits|] == hits;
  }

  /** One more pass changes only the accumulator of its own geoid. */
  lemma AggOfSnoc(hits: seq<Hit>, h: Hit, k: string)
    ensures AggOf(hits + [h], k) ==
      if k != h.geog.geoid then AggOf(hits, k)
      else Some(Absorb(if AggOf(hits, k).Some? then AggOf(hits, k).value else NewAgg(h.geog), h.stop))
  {
    assert (hits + [h])[..|hits|] == hits;
  }

  /** One more pass keeps the map in step: its geoid appended when new, its accumulator absorbing the stop. */
  lemma AggStateSnoc(hits: seq<Hit>, order: seq<string>, agg: map<string, Agg>, h: Hit)
    requires AggState(hits, order, agg)
    ensures var g := h.geog.geoid;
            AggState(hits + [h], if g in agg then order else order + [g],
                     agg[g := Absorb(if g in agg then agg[g] else NewAgg(h.geog), h.stop)])
  {
    var g := h.geog.geoid;
    GeoIdsSnoc(hits, h);
    DistinctIdsSnoc(GeoIds(hits), g);
    AggValuesSnoc(hits, agg, h);
  }

  lemma DistinctIdsSnoc(ids: seq<string>, g: string)
    ensures Distinct(ids + [g]) == if g in ids then Distinct(ids) else Distinct(ids) + [g]
  {
    assert (ids + [g])[..|ids|] == ids;
  }

  /** The accumulators after one more pass: only its geoid's changes. */
  lemma AggValuesSnoc(hits: seq<Hit>, agg: map<string, Agg>, h: Hit)
    requires forall g :: g in agg ==> AggOf(hits, g) == Some(agg[g])
    requires forall g :: g in agg <==> g in GeoIds(hits)
    ensures var g := h.geog.geoid;
            var agg' := agg[g := Absorb(if g in agg then agg[g] else NewAgg(h.geog), h.stop)];
            forall k :: k in agg' ==> AggOf(hits + [h], k) == Some(agg'[k])
  {
    var g := h.geog.geoid;
    var agg' := agg[g := Absorb(if g in agg then agg[g] else NewAgg(h.geog), h.stop)];
    forall k | k in agg'
      ensures AggOf(hits + [h], k) == Some(agg'[k])
    {
      AggOfSnoc(hits, h, k);
    }
  }

  /** The inner loop: each geography of the layer the stop lies in. */
  method AddStop(ghost hits: seq<Hit>, order: seq<string>, agg: map<string, Agg>, stop: StopFeature, key: string)
    returns (order': seq<string>, agg': map<string, Agg>)
    requires AggState(hits, order, agg)
    ensures AggState(hits + StopHits(stop, key), order', agg')
  {
    order', agg' := order, agg;
    var geogs := LayerGeographies(GeographiesOf(stop), key);
    ghost var done := hits;
    for k := 0 to |geogs|
      invariant done == hits + StopHits(stop, key)[..k]
      invariant AggState(done, order', agg')
    {
      StopHitsSnoc(stop, key, k);
      order', agg' := AddHit(done, order', agg', geogs[k], stop);
      done := done + [Hit(geogs[k], stop)];
    }
    assert StopHits(stop, key)[..|geogs|] == StopHits(stop, key);
    assert done == hits + StopHits(stop, key);
  }

  /** The rows read off a map that holds the accumulators of all passes. */
  lemma RowsOfState(stops: seq<StopFeature>, key: string, order: seq<string>, agg: map<string, Agg>, dateCount: nat)
    requires AggState(Hits(stops, key), order, agg)
    requires dateCount == DateCount(stops)
    ensures seq(|order|, i requires 0 <= i < |order| && order[i] in agg => RowOf(agg[order[i]], dateCount)) == GeoAggregate(stops, key)
  {
  }

  /** `stopGeoAggregateCsv`: the nested loops fill the map, then one row per entry in insertion order. */
  method StopGeoAggregateCsv(stops: seq<StopFeature>, key: string) returns (rows: seq<GeoRow>)
    ensures rows == GeoAggregate(stops, key)
  {
    var order: seq<string> := [];
    var agg: map<string, Agg> := map[];
    var dateCount := if |stops| > 0 && stops[0].visits.Some? then stops[0].visits.value.total.dateCount else 0;
    for i := 0 to |stops|
      invariant AggState(Hits(stops[..i], key), order, agg)
    {
      assert stops[..i + 1][..i] == stops[..i];
      order, agg := AddStop(Hits(stops[..i], key), order, agg, stops[i], key);
    }
    assert stops[..|stops|] == stops;
    RowsOfState(stops, key, order, agg, dateCount);
    rows := seq(|order|, i requires 0 <= i < |order| && order[i] in agg => RowOf(agg[order[i]], dateCount));
  }

  //////////////////////////////////////////////////////////////////////
  // What a geography row holds
  //////////////////////////////////////////////////////////////////////

  /** The rows have distinct geoids. */
  lemma GeoRowsDistinct(stops: seq<StopFeature>, key: string)
    ensures forall i, j :: 0 <= i < j < |GeoAggregate(stops, key)| ==>
              GeoAggregate(stops, key)[i].geoid != GeoAggregate(stops, key)[j].geoid
  {
    var order := Distinct(GeoIds(Hits(stops, key)));
    assert NoDuplicates(order);
  }

  /** There is a row for a geoid exactly when a stop lies in a geography of the layer with that geoid. */
  lemma GeoRowsCover(stops: seq<StopFeature>, key: string, g: string)
    ensures (exists i :: 0 <= i < |GeoAggregate(stops, key)| && GeoAggregate(stops, key)[i].geoid == g) <==>
            exists i, geog :: 0 <= i < |stops| && geog in GeographiesOf(stops[i]) && geog.layerName == key && geog.geoid == g
  {
    GeoRowsOrder(stops, key, g);
    GeoIdsCover(stops, key, g);
  }

  /** The geoids of the rows are those of the first-seen order. */
  lemma GeoRowsOrder(stops: seq<StopFeature>, key: string, g: string)
    ensures (exists i :: 0 <= i < |GeoAggregate(stops, key)| && GeoAggregate(stops, key)[i].geoid == g) <==>
            g in GeoIds(Hits(stops, key))
  {
    var order := Distinct(GeoIds(Hits(stops, key)));
    var rows := GeoAggregate(stops, key);
    if g in order {
      var m :| 0 <= m < |order| && order[m] == g;
      assert rows[m].geoid == g;
    }
  }

  /** A geoid is among the passes exactly when some stop lies in a geography of the layer with that geoid. */
  lemma GeoIdsCover(stops: seq<StopFeature>, key: string, g: string)
    ensures g in GeoIds(Hits(stops, key)) <==>
            exists i, geog :: 0 <= i < |stops| && geog in GeographiesOf(stops[i]) && geog.layerName == key && geog.geoid == g
  {
    var hits := Hits(stops, key);
    var ids := GeoIds(hits);
    if g in ids {
      var n :| 0 <= n < |hits| && ids[n] == g;
      HitsMember(stops, key, hits[n]);
    }
    if exists i, geog :: 0 <= i < |stops| && geog in GeographiesOf(stops[i]) && geog.layerName == key && geog.geoid == g {
      var i, geog :| 0 <= i < |stops| && geog in GeographiesOf(stops[i]) && geog.layerName == key && geog.geoid == g;
      HitsMember(stops, key, Hit(geog, stops[i]));
      var n :| 0 <= n < |hits| && hits[n] == Hit(geog, stops[i]);
      assert ids[n] == g;
    }
  }

  /** A geoid's layer name and name are those of its first geography. */
  lemma {:induction false} AggFirst(hits: seq<Hit>, g: string)
    requires AggOf(hits, g).Some?
    ensures exists i :: 0 <= i < |hits| && hits[i].geog.geoid == g && (forall j :: 0 <= j < i ==> hits[j].geog.geoid != g) &&
                        AggOf(hits, g).value.layerName == hits[i].geog.layerName && AggOf(hits, g).value.name == hits[i].geog.name
  {
    var p := hits[..|hits| - 1];
    var n := |hits| - 1;
    assert forall j :: 0 <= j < |p| ==> p[j] == hits[j];
    if AggOf(p, g).Some? {
      AggFirst(p, g);
      var i :| 0 <= i < |p| && p[i].geog.geoid == g && (forall j :: 0 <= j < i ==> p[j].geog.geoid != g) &&
               AggOf(p, g).value.layerName == p[i].geog.layerName && AggOf(p, g).value.name == p[i].geog.name;
      assert hits[i] == p[i];
    } else {
      assert forall j :: 0 <= j < |p| ==> GeoIds(p)[j] != g;
      assert hits[n].geog.geoid == g;
    }
  }

  /** The stops counted for a geoid are exactly the stops of its passes. */
  lemma {:induction false} AggStops(hits: seq<Hit>, g: string, s: int)
    requires AggOf(hits, g).Some?
    ensures s in AggOf(hits, g).value.stops <==> exists i :: 0 <= i < |hits| && hits[i].geog.geoid == g && hits[i].stop.id == s
  {
    var p := hits[..|hits| - 1];
    var h := hits[|hits| - 1];
    assert forall j :: 0 <= j < |p| ==> p[j] == hits[j];
    if AggOf(p, g).Some? {
      AggStops(p, g, s);
    } else {
      assert forall j :: 0 <= j < |p| ==> GeoIds(p)[j] != g;
    }
  }

  /** The routes counted for a geoid are exactly the routes of the stops of its passes. */
  lemma {:induction false} AggRoutes(hits: seq<Hit>, g: string, r: int)
    requires AggOf(hits, g).Some?
    ensures r in AggOf(hits, g).value.routes <==>
      exists i, j :: 0 <= i < |hits| && hits[i].geog.geoid == g && 0 <= j < |hits[i].stop.routeStops| &&
                     hits[i].stop.routeStops[j].routeId == r
  {
    var p := hits[..|hits| - 1];
    var h := hits[|hits| - 1];
    assert forall j :: 0 <= j < |p| ==> p[j] == hits[j];
    RouteIdsMember(h.stop.routeStops, r);
    if AggOf(p, g).Some? {
      AggRoutes(p, g, r);
    } else {
      assert forall j :: 0 <= j < |p| ==> GeoIds(p)[j] != g;
    }
  }

  /** The agencies counted for a geoid are exactly the agencies of the routes of the stops of its passes. */
  lemma {:induction false} AggAgencies(hits: seq<Hit>, g: string, a: int)
    requires AggOf(hits, g).Some?
    ensures a in AggOf(hits, g).value.agencies <==>
      exists i, j :: 0 <= i < |hits| && hits[i].geog.geoid == g && 0 <= j < |hits[i].stop.routeStops| &&
                     hits[i].stop.routeStops[j].agencyId == a
  {
    var p := hits[..|hits| - 1];
    var h := hits[|hits| - 1];
    assert forall j :: 0 <= j < |p| ==> p[j] == hits[j];
    AgencyIdsMember(h.stop.routeStops, a);
    if AggOf(p, g).Some? {
      AggAgencies(p, g, a);
    } else {
      assert forall j :: 0 <= j < |p| ==> GeoIds(p)[j] != g;
    }
  }

  /** The route types of the stops of the passes with geoid `g`, in order, repeats kept. */
  function TypesAt(hits: seq<Hit>, g: string): seq<int>
  {
    if hits == [] then []
    else
      var h := hits[|hits| - 1];
      TypesAt(hits[..|hits| - 1], g) + if h.geog.geoid == g then RouteTypes(h.stop.routeStops) else []
  }

  lemma RouteTypesSnoc(rs: seq<RouteRef>)
    requires rs != []
    ensures RouteTypes(rs) == RouteTypes(rs[..|rs| - 1]) + [rs[|rs| - 1].routeType]
  {
  }

  lemma {:induction false} AbsorbModes(a: Agg, rs: seq<RouteRef>, prev: seq<int>)
    requires a.modes == Distinct(prev)
    ensures AbsorbRoutes(a, rs).modes == Distinct(prev + RouteTypes(rs))
  {
    if rs == [] {
      assert prev + RouteTypes(rs) == prev;
    } else {
      var q := rs[..|rs| - 1];
      var x := rs[|rs| - 1].routeType;
      AbsorbModes(a, q, prev);
      RouteTypesSnoc(rs);
      assert prev + RouteTypes(rs) == (prev + RouteTypes(q)) + [x];
      AgencyAggregation.DistinctAppend(prev + RouteTypes(q), x);
    }
  }

  /** The modes of a geoid are its route types, each once, in order of first sight. */
  lemma {:induction false} AggModes(hits: seq<Hit>, g: string)
    requires AggOf(hits, g).Some?
    ensures AggOf(hits, g).value.modes == Distinct(TypesAt(hits, g))
  {
    var p := hits[..|hits| - 1];
    var h := hits[|hits| - 1];
    if h.geog.geoid != g {
      assert AggOf(hits, g) == AggOf(p, g);
      assert TypesAt(p, g) + [] == TypesAt(p, g);
      assert TypesAt(hits, g) == TypesAt(p, g);
      AggModes(p, g);
    } else if AggOf(p, g).Some? {
      AggModes(p, g);
      AbsorbModes(AggOf(p, g).value.(stops := AggOf(p, g).value.stops + {h.stop.id},
                                      visits := AggOf(p, g).value.visits + VisitCount(h.stop)),
                  h.stop.routeStops, TypesAt(p, g));
    } else {
      AggModesFirst(hits, g);
    }
  }

  /** `AggModes` at the first pass with geoid `g`. */
  lemma AggModesFirst(hits: seq<Hit>, g: string)
    requires hits != [] && hits[|hits| - 1].geog.geoid == g && AggOf(hits[..|hits| - 1], g).None?
    ensures AggOf(hits, g).value.modes == Distinct(TypesAt(hits, g))
  {
    var p := hits[..|hits| - 1];
    var h := hits[|hits| - 1];
    TypesAtAbsent(p, g);
    var a := NewAgg(h.geog);
    var a0 := a.(stops := a.stops + {h.stop.id}, visits := a.visits + VisitCount(h.stop));
    assert AggOf(hits, g) == Some(AbsorbRoutes(a0, h.stop.routeStops));
    AbsorbModes(a0, h.stop.routeStops, []);
    assert [] + RouteTypes(h.stop.routeStops) == TypesAt(hits, g);
  }

  lemma {:induction false} TypesAtAbsent(hits: seq<Hit>, g: string)
    requires g !in GeoIds(hits)
    ensures TypesAt(hits, g) == []
  {
    if hits != [] {
      var p := hits[..|hits| - 1];
      assert forall j :: 0 <= j < |p| ==> GeoIds(p)[j] == GeoIds(hits)[j];
      TypesAtAbsent(p, g);
    }
  }
}
