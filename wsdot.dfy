/**
 * The WSDOT service-frequency tier classifier of src/analysis/wsdot/index.ts.
 *
 * Departures of one service day are bucketed by hour per stop and per
 * route+direction (`extractFrequencyData`); each service level then keeps
 * the stops that pass its hour-window rules, night segments, route-level
 * rule and weekend rule (`processServiceLevel`), and the report has one row
 * per stop with one flag per level.
 */
module Wsdot {
  import opened Wrappers
  import JsNum
  import Calendar
  import DC = DepartureCache

  // ---------------------------------------------------------------------
  // Hours

  /** An hour bucket key: `parseHour` gives an integer, or `NaN` when the time has no leading number. */
  datatype Hour = H(h: int) | NaNHour

  /** The text before the first ':' (`timeString.split(':')[0]`). */
  function FirstField(s: string): (f: string)
    ensures |f| <= |s| && f == s[..|f|]
    ensures ':' !in f
    ensures |f| < |s| ==> s[|f|] == ':'
  {
    if s == [] || s[0] == ':' then [] else [s[0]] + FirstField(s[1..])
  }

  /** `parseHour`: the leading hour of a GTFS time, with 24 subtracted once from hours of 24 or more. */
  function ParseHour(time: string): Hour
  {
    match JsNum.ParseInt10(FirstField(time))
    case None => NaNHour
    case Some(n) => H(if n >= 24 then n - 24 else n)
  }

  /**
   * For a time written `HH:...` with a run of decimal digits before the
   * first ':' (zero-padded or not), the bucket is the hour, less 24 once
   * when it is 24 or more; so the GTFS after-midnight hours 24..47 land in
   * 0..23 and 48 lands in 24.
   */
  lemma ParseHourOfTime(d: string, rest: string)
    requires d != [] && JsNum.AllDigits(d)
    ensures var v := JsNum.DigitsValue(d, 10);
      ParseHour(d + ":" + rest) == H(if v >= 24 then v - 24 else v)
    ensures JsNum.DigitsValue(d, 10) < 48 ==> 0 <= ParseHour(d + ":" + rest).h < 24
  {
    var t := d + ":" + rest;
    assert t == d + (":" + rest);
    FirstFieldOfDigits(d, ":" + rest);
    ParseIntOfRun(d);
    ParseHourOfField(t, d);
  }

  lemma ParseIntOfRun(d: string)
    requires d != [] && JsNum.AllDigits(d)
    ensures JsNum.ParseInt10(d) == Some(JsNum.DigitsValue(d, 10))
  {
    JsNum.ParseIntOfDigits(d, []);
    assert d + [] == d;
  }

  lemma ParseHourOfField(t: string, d: string)
    requires FirstField(t) == d && d != [] && JsNum.AllDigits(d)
    requires JsNum.ParseInt10(d) == Some(JsNum.DigitsValue(d, 10))
    ensures var v := JsNum.DigitsValue(d, 10);
      ParseHour(t) == H(if v >= 24 then v - 24 else v)
  {
  }

  lemma {:induction false} FirstFieldOfDigits(d: string, rest: string)
    requires JsNum.AllDigits(d)
    requires rest == [] || rest[0] == ':'
    ensures FirstField(d + rest) == d
  {
    if d == [] {
      assert d + rest == rest;
    } else {
      assert (d + rest)[1..] == d[1..] + rest;
      FirstFieldOfDigits(d[1..], rest);
    }
  }

  // ---------------------------------------------------------------------
  // Hour histograms

  type Buckets = map<Hour, nat>

  /** `buckets[hour] || 0`. */
  function Get(m: Buckets, k: Hour): nat
  {
    if k in m then m[k] else 0
  }

  /** `hourlyTrips[hour] = (hourlyTrips[hour] || 0) + 1`. */
  function Inc(m: Buckets, k: Hour): Buckets
  {
    m[k := Get(m, k) + 1]
  }

  /** How many times `k` occurs in `xs`. */
  function Count(xs: seq<Hour>, k: Hour): nat
  {
    if xs == [] then 0 else Count(xs[..|xs| - 1], k) + (if xs[|xs| - 1] == k then 1 else 0)
  }

  /** The hour histogram of a list of departure hours: each key maps to how often it occurs. */
  function Histogram(xs: seq<Hour>): (m: Buckets)
    ensures forall k :: k in m <==> k in xs
  {
    map k | k in xs :: Count(xs, k)
  }

  lemma CountPositive(xs: seq<Hour>, k: Hour)
    ensures k in xs <==> Count(xs, k) > 0
  {
    if xs != [] {
      CountPositive(xs[..|xs| - 1], k);
      assert xs == xs[..|xs| - 1] + [xs[|xs| - 1]];
    }
  }

  /** Counting one more departure adds 1 to exactly its own bucket. */
  lemma {:induction false} HistogramSnoc(xs: seq<Hour>, x: Hour)
    ensures Histogram(xs + [x]) == Inc(Histogram(xs), x)
  {
    var ys := xs + [x];
    assert ys[..|ys| - 1] == xs;
    var a, b := Histogram(ys), Inc(Histogram(xs), x);
    forall k
      ensures k in a <==> k in b
      ensures k in a ==> a[k] == b[k]
    {
      CountPositive(xs, k);
      assert Count(ys, k) == Count(xs, k) + (if x == k then 1 else 0);
    }
    assert a == b;
  }

  /** The sum of the buckets named by `ks`. */
  function Total(m: Buckets, ks: seq<Hour>): nat
  {
    if ks == [] then 0 else Total(m, ks[..|ks| - 1]) + Get(m, ks[|ks| - 1])
  }

  predicate Distinct<T(==)>(s: seq<T>)
  {
    forall i, j :: 0 <= i < j < |s| ==> s[i] != s[j]
  }

  lemma {:induction false} TotalInc(m: Buckets, x: Hour, ks: seq<Hour>)
    requires Distinct(ks)
    ensures Total(Inc(m, x), ks) == Total(m, ks) + (if x in ks then 1 else 0)
  {
    if ks != [] {
      var p := ks[..|ks| - 1];
      TotalInc(m, x, p);
      assert x in ks <==> x in p || x == ks[|ks| - 1];
      assert x == ks[|ks| - 1] ==> x !in p;
    }
  }

  /**
   * Each departure adds 1 to exactly one bucket: over distinct keys the
   * buckets sum to at most the number of departures, and to exactly that
   * number when the keys cover every departure's hour.
   */
  lemma {:induction false} HistogramTotal(xs: seq<Hour>, ks: seq<Hour>)
    requires Distinct(ks)
    ensures Total(Histogram(xs), ks) <= |xs|
    ensures (forall i :: 0 <= i < |xs| ==> xs[i] in ks) ==> Total(Histogram(xs), ks) == |xs|
  {
    if xs == [] {
      TotalEmpty(ks);
    } else {
      var p := xs[..|xs| - 1];
      var x := xs[|xs| - 1];
      assert xs == p + [x];
      HistogramTotal(p, ks);
      HistogramSnoc(p, x);
      TotalInc(Histogram(p), x, ks);
    }
  }

  lemma {:induction false} TotalEmpty(ks: seq<Hour>)
    ensures Total(map[], ks) == 0
  {
    if ks != [] {
      TotalEmpty(ks[..|ks| - 1]);
    }
  }

  // ---------------------------------------------------------------------
  // Window rules

  /** A per-hour floor and an aggregate minimum over a list of hours (`TimeConfig`). */
  datatype TimeConfig = TimeConfig(hours: seq<int>, minTph: int, minTotal: int)

  /** One night segment: an aggregate minimum over a list of hours. */
  datatype NightSegment = NightSegment(hours: seq<int>, minTotal: int)

  /** `hourlyTrips[hour] || 0` for a configured hour. */
  function Trips(m: Buckets, hour: int): nat
  {
    Get(m, H(hour))
  }

  /** The configured hours as bucket keys. */
  function AsHours(hours: seq<int>): (ks: seq<Hour>)
    ensures |ks| == |hours|
    ensures forall i :: 0 <= i < |hours| ==> ks[i] == H(hours[i])
  {
    if hours == [] then [] else AsHours(hours[..|hours| - 1]) + [H(hours[|hours| - 1])]
  }

  /** The trips summed over the listed hours (an hour listed twice counts twice). */
  function SumTrips(m: Buckets, hours: seq<int>): nat
  {
    Total(m, AsHours(hours))
  }

  /** The number of listed hours whose count reaches the floor. */
  function CountValid(m: Buckets, hours: seq<int>, minTph: int): (n: nat)
    ensures n <= |hours|
  {
    if hours == [] then 0
    else CountValid(m, hours[..|hours| - 1], minTph) + (if Trips(m, hours[|hours| - 1]) >= minTph then 1 else 0)
  }

  /** The window rule: every listed hour reaches the floor and the listed hours together reach the minimum. */
  predicate MeetsRule(m: Buckets, c: TimeConfig)
  {
    (forall i :: 0 <= i < |c.hours| ==> Trips(m, c.hours[i]) >= c.minTph)
    && SumTrips(m, c.hours) >= c.minTotal
  }

  /** The counter test of the source is the rule: all hours valid iff the count of valid hours is the number of hours. */
  lemma {:induction false} CountValidAll(m: Buckets, hours: seq<int>, minTph: int)
    ensures CountValid(m, hours, minTph) == |hours| <==> forall i :: 0 <= i < |hours| ==> Trips(m, hours[i]) >= minTph
  {
    if hours != [] {
      var p := hours[..|hours| - 1];
      CountValidAll(m, p, minTph);
      assert forall i :: 0 <= i < |p| ==> p[i] == hours[i];
    }
  }

  /** Both tests are inclusive: buckets exactly at the floor, summing exactly to the minimum, pass. */
  lemma RuleAtThreshold(m: Buckets, c: TimeConfig)
    requires forall i :: 0 <= i < |c.hours| ==> Trips(m, c.hours[i]) == c.minTph
    requires SumTrips(m, c.hours) == c.minTotal
    ensures MeetsRule(m, c)
  {
  }

  /** One trip fewer than the floor in any listed hour fails the rule. */
  lemma RuleBelowFloor(m: Buckets, c: TimeConfig, i: nat)
    requires i < |c.hours| && Trips(m, c.hours[i]) == c.minTph - 1
    ensures !MeetsRule(m, c)
  {
  }

  /** A rule with a higher floor and minimum over the same hours is stricter. */
  lemma RuleMonotone(m: Buckets, strict: TimeConfig, loose: TimeConfig)
    requires strict.hours == loose.hours
    requires strict.minTph >= loose.minTph && strict.minTotal >= loose.minTotal
    requires MeetsRule(m, strict)
    ensures MeetsRule(m, loose)
  {
  }

  /** The inner hour loop shared by `analyzeStopFrequency` and `analyzeRouteFrequency`. */
  method CheckHours(hourly: Buckets, c: TimeConfig) returns (passes: bool)
    ensures passes <==> MeetsRule(hourly, c)
  {
    var totalTrips := 0;
    var validHours := 0;
    var i := 0;
    while i < |c.hours|
      invariant 0 <= i <= |c.hours|
      invariant validHours == CountValid(hourly, c.hours[..i], c.minTph)
      invariant totalTrips == SumTrips(hourly, c.hours[..i])
    {
      var hour := c.hours[i];
      var trips := if H(hour) in hourly then hourly[H(hour)] else 0;
      HoursStep(hourly, c.hours, i, c.minTph);
      if trips >= c.minTph {
        validHours := validHours + 1;
      }
      totalTrips := totalTrips + trips;
      i := i + 1;
    }
    assert c.hours[..i] == c.hours;
    CountValidAll(hourly, c.hours, c.minTph);
    passes := validHours == |c.hours| && totalTrips >= c.minTotal;
  }

  /** One more hour adds its count to the sum, and one to the valid hours when it reaches the floor. */
  lemma HoursStep(m: Buckets, hours: seq<int>, i: nat, minTph: int)
    requires i < |hours|
    ensures var trips := Trips(m, hours[i]);
      && CountValid(m, hours[..i + 1], minTph) == CountValid(m, hours[..i], minTph) + (if trips >= minTph then 1 else 0)
      && SumTrips(m, hours[..i + 1]) == SumTrips(m, hours[..i]) + trips
  {
    var p, q := hours[..i], hours[..i + 1];
    assert q[..i] == p;
    var ks, ks' := AsHours(p), AsHours(q);
    assert ks'[..i] == ks;
  }

  // ---------------------------------------------------------------------
  // Frequency data (`extractFrequencyData`)

  /** A point geometry: `coordinates[0]` is the longitude, `coordinates[1]` the latitude. */
  datatype Point = Point(lon: real, lat: real)

  /** The fields of a scenario stop the report reads. */
  datatype ScenarioStop = ScenarioStop(id: int, stopId: string, stopName: Option<string>, geometry: Option<Point>)

  /** `StopFrequencyData`. */
  datatype StopFrequency = StopFrequency(stopId: int, hourlyTrips: Buckets, totalTrips: nat, routeIds: set<int>)

  /** The route key `${route.id}_${direction_id}`, kept as the pair it is built from. */
  datatype RouteKey = RouteKey(routeId: int, directionId: int)

  /** `RouteFrequencyData`. */
  datatype RouteFrequency = RouteFrequency(routeId: int, directionId: int, hourlyTrips: Buckets, totalTrips: nat, stopIds: set<int>)

  /**
   * The result of `extractFrequencyData`; `stopOrder` is the insertion order
   * of the stops map, which the final report iterates in.
   */
  datatype FrequencyData = FrequencyData(stops: map<int, StopFrequency>, routes: map<RouteKey, RouteFrequency>, stopOrder: seq<int>)

  function KeyOf(st: DC.StopTime): RouteKey
  {
    RouteKey(st.routeId, st.directionId)
  }

  function DepartureHours(ds: seq<DC.StopTime>): (hs: seq<Hour>)
    ensures |hs| == |ds|
  {
    seq(|ds|, j requires 0 <= j < |ds| => ParseHour(ds[j].departureTime))
  }

  function RouteIdsOf(ds: seq<DC.StopTime>): set<int>
  {
    set j | 0 <= j < |ds| :: ds[j].routeId
  }

  /** The entry of one stop: buckets of its departures, their number, and their routes. */
  function StopEntry(id: int, ds: seq<DC.StopTime>): StopFrequency
  {
    StopFrequency(id, Histogram(DepartureHours(ds)), |ds|, RouteIdsOf(ds))
  }

  function Ids(stops: seq<ScenarioStop>): set<int>
  {
    set i | 0 <= i < |stops| :: stops[i].id
  }

  /** The stops map: every listed stop id with the entry of its departures on `date`. */
  function StopsOf(stops: seq<ScenarioStop>, cache: DC.StopDates, date: string): map<int, StopFrequency>
  {
    map id | id in Ids(stops) :: StopEntry(id, DC.Lookup(cache, id, date))
  }

  /** The ids of `stops` in first-occurrence order (the key order of a `Map` filled by `set`). */
  function DistinctIds(stops: seq<ScenarioStop>): (ids: seq<int>)
    ensures Distinct(ids)
    ensures forall id :: id in ids <==> id in Ids(stops)
  {
    if stops == [] then []
    else
      var p := DistinctIds(stops[..|stops| - 1]);
      var id := stops[|stops| - 1].id;
      assert forall i :: 0 <= i < |stops| - 1 ==> stops[..|stops| - 1][i] == stops[i];
      if id in p then p else p + [id]
  }

  /** One departure seen at one stop. */
  datatype Visit = Visit(stopId: int, departure: DC.StopTime)

  function Visits(id: int, ds: seq<DC.StopTime>): (vs: seq<Visit>)
    ensures |vs| == |ds|
  {
    seq(|ds|, j requires 0 <= j < |ds| => Visit(id, ds[j]))
  }

  /** Every departure of the day, stop by stop, in the order the stops are listed. */
  function DayVisits(stops: seq<ScenarioStop>, cache: DC.StopDates, date: string): seq<Visit>
  {
    if stops == [] then []
    else
      var s := stops[|stops| - 1];
      DayVisits(stops[..|stops| - 1], cache, date) + Visits(s.id, DC.Lookup(cache, s.id, date))
  }

  /** The hours of the visits on route key `k`. */
  function KeyHours(vs: seq<Visit>, k: RouteKey): seq<Hour>
  {
    if vs == [] then []
    else
      var v := vs[|vs| - 1];
      KeyHours(vs[..|vs| - 1], k) + (if KeyOf(v.departure) == k then [ParseHour(v.departure.departureTime)] else [])
  }

  function KeyStops(vs: seq<Visit>, k: RouteKey): set<int>
  {
    set i | 0 <= i < |vs| && KeyOf(vs[i].departure) == k :: vs[i].stopId
  }

  function Keys(vs: seq<Visit>): set<RouteKey>
  {
    set i | 0 <= i < |vs| :: KeyOf(vs[i].departure)
  }

  /** The entry of one route key: buckets of its visits, their number, and the stops they were seen at. */
  function RouteEntry(vs: seq<Visit>, k: RouteKey): RouteFrequency
  {
    var hs := KeyHours(vs, k);
    RouteFrequency(k.routeId, k.directionId, Histogram(hs), |hs|, KeyStops(vs, k))
  }

  function RoutesOf(vs: seq<Visit>): map<RouteKey, RouteFrequency>
  {
    map k | k in Keys(vs) :: RouteEntry(vs, k)
  }

  /** What `extractFrequencyData(data, date)` computes, stated over the whole day. */
  function FrequencyOf(stops: seq<ScenarioStop>, cache: DC.StopDates, date: string): FrequencyData
  {
    FrequencyData(StopsOf(stops, cache, date), RoutesOf(DayVisits(stops, cache, date)), DistinctIds(stops))
  }

  lemma {:induction false} KeyHoursAbsent(vs: seq<Visit>, k: RouteKey)
    requires k !in Keys(vs)
    ensures KeyHours(vs, k) == []
  {
    if vs != [] {
      var p := vs[..|vs| - 1];
      assert Keys(p) <= Keys(vs) by {
        forall kk | kk in Keys(p) ensures kk in Keys(vs) {
          var i :| 0 <= i < |p| && KeyOf(p[i].departure) == kk;
          assert vs[i] == p[i];
        }
      }
      KeyHoursAbsent(p, k);
      assert KeyOf(vs[|vs| - 1].departure) in Keys(vs);
    }
  }

  lemma KeysSnoc(vs: seq<Visit>, v: Visit)
    ensures Keys(vs + [v]) == Keys(vs) + {KeyOf(v.departure)}
  {
    var ws := vs + [v];
    assert forall i :: 0 <= i < |vs| ==> ws[i] == vs[i];
    assert KeyOf(ws[|vs|].departure) == KeyOf(v.departure);
  }

  lemma KeyStopsSnoc(vs: seq<Visit>, v: Visit, k: RouteKey)
    ensures KeyStops(vs + [v], k) == KeyStops(vs, k) + (if KeyOf(v.departure) == k then {v.stopId} else {})
  {
    var ws := vs + [v];
    assert forall i :: 0 <= i < |vs| ==> ws[i] == vs[i];
    assert ws[|vs|] == v;
  }

  lemma KeyHoursSnoc(vs: seq<Visit>, v: Visit, k: RouteKey)
    ensures KeyHours(vs + [v], k) == KeyHours(vs, k) + (if KeyOf(v.departure) == k then [ParseHour(v.departure.departureTime)] else [])
  {
    assert (vs + [v])[..|vs|] == vs;
  }

  /**
   * The route-map update of one departure seen at one stop: the key's entry
   * is created empty if absent, then gets one more trip in the departure's
   * hour bucket and in its total, and the stop in its stop ids.
   */
  function Updated(routes: map<RouteKey, RouteFrequency>, v: Visit): map<RouteKey, RouteFrequency>
  {
    var k := KeyOf(v.departure);
    var withKey := if k in routes then routes else routes[k := RouteFrequency(k.routeId, k.directionId, map[], 0, {})];
    var r := withKey[k];
    withKey[k := r.(hourlyTrips := Inc(r.hourlyTrips, ParseHour(v.departure.departureTime)),
                    totalTrips := r.totalTrips + 1,
                    stopIds := r.stopIds + {v.stopId})]
  }

  /** The entry of key `k` after one more visit, in terms of the entry before it. */
  lemma EntrySnoc(vs: seq<Visit>, v: Visit, k: RouteKey)
    ensures var e := RouteEntry(vs, k);
            RouteEntry(vs + [v], k)
            == if KeyOf(v.departure) == k
               then e.(hourlyTrips := Inc(e.hourlyTrips, ParseHour(v.departure.departureTime)),
                       totalTrips := e.totalTrips + 1,
                       stopIds := e.stopIds + {v.stopId})
               else e
  {
    KeyStopsSnoc(vs, v, k);
    KeyHoursSnoc(vs, v, k);
    if KeyOf(v.departure) == k {
      HistogramSnoc(KeyHours(vs, k), ParseHour(v.departure.departureTime));
    } else {
      assert KeyHours(vs, k) + [] == KeyHours(vs, k);
    }
  }

  /**
   * One more departure at a stop updates exactly its own route key's entry:
   * one more trip in its hour bucket and in the total, and the stop added.
   */
  lemma RoutesSnoc(vs: seq<Visit>, v: Visit)
    ensures RoutesOf(vs + [v]) == Updated(RoutesOf(vs), v)
  {
    var k := KeyOf(v.departure);
    var ws := vs + [v];
    var a, b := RoutesOf(ws), Updated(RoutesOf(vs), v);
    UpdatedKeys(vs, v);
    forall k' | k' in a.Keys ensures a[k'] == b[k'] {
      UpdatedEntry(vs, v, k');
    }
    assert a == b;
  }

  lemma UpdatedKeys(vs: seq<Visit>, v: Visit)
    ensures RoutesOf(vs + [v]).Keys == Updated(RoutesOf(vs), v).Keys
  {
    KeysSnoc(vs, v);
  }

  lemma UpdatedEntry(vs: seq<Visit>, v: Visit, k: RouteKey)
    requires k in Keys(vs + [v])
    ensures k in Updated(RoutesOf(vs), v)
    ensures RoutesOf(vs + [v])[k] == Updated(RoutesOf(vs), v)[k]
  {
    KeysSnoc(vs, v);
    EntrySnoc(vs, v, k);
    if k == KeyOf(v.departure) && k !in RoutesOf(vs) {
      KeyHoursAbsent(vs, k);
      assert KeyStops(vs, k) == {};
    }
  }

  lemma StopsOfSnoc(stops: seq<ScenarioStop>, s: ScenarioStop, cache: DC.StopDates, date: string)
    ensures StopsOf(stops + [s], cache, date) == StopsOf(stops, cache, date)[s.id := StopEntry(s.id, DC.Lookup(cache, s.id, date))]
  {
    var ss := stops + [s];
    assert forall i :: 0 <= i < |stops| ==> ss[i] == stops[i];
    assert ss[|stops|] == s;
    assert Ids(ss) == Ids(stops) + {s.id};
  }

  lemma DaySnoc(stops: seq<ScenarioStop>, i: nat, cache: DC.StopDates, date: string)
    requires i < |stops|
    ensures stops[..i + 1] == stops[..i] + [stops[i]]
    ensures DayVisits(stops[..i + 1], cache, date) == DayVisits(stops[..i], cache, date) + Visits(stops[i].id, DC.Lookup(cache, stops[i].id, date))
    ensures DistinctIds(stops[..i + 1]) == if stops[i].id in DistinctIds(stops[..i]) then DistinctIds(stops[..i]) else DistinctIds(stops[..i]) + [stops[i].id]
  {
    assert stops[..i + 1][..i] == stops[..i];
  }

  /** One departure of the inner loop, on the stop's own entry. */
  lemma DepartureStep(ds: seq<DC.StopTime>, j: nat)
    requires j < |ds|
    ensures Histogram(DepartureHours(ds[..j + 1])) == Inc(Histogram(DepartureHours(ds[..j])), ParseHour(ds[j].departureTime))
    ensures RouteIdsOf(ds[..j + 1]) == RouteIdsOf(ds[..j]) + {ds[j].routeId}
  {
    assert DepartureHours(ds[..j + 1]) == DepartureHours(ds[..j]) + [ParseHour(ds[j].departureTime)];
    HistogramSnoc(DepartureHours(ds[..j]), ParseHour(ds[j].departureTime));
    PrefixRouteIds(ds, j);
  }

  lemma PrefixRouteIds(ds: seq<DC.StopTime>, j: nat)
    requires j < |ds|
    ensures RouteIdsOf(ds[..j + 1]) == RouteIdsOf(ds[..j]) + {ds[j].routeId}
  {
    assert forall k :: 0 <= k < j ==> ds[..j + 1][k] == ds[..j][k];
    assert ds[..j + 1][j] == ds[j];
  }

  /** One departure of the inner loop, on the visit sequence. */
  lemma VisitStep(before: seq<Visit>, id: int, ds: seq<DC.StopTime>, j: nat)
    requires j < |ds|
    ensures before + Visits(id, ds[..j + 1]) == (before + Visits(id, ds[..j])) + [Visit(id, ds[j])]
  {
    assert Visits(id, ds[..j + 1]) == Visits(id, ds[..j]) + [Visit(id, ds[j])];
  }

  /** The "track route frequency" step of `extractFrequencyData` for one departure at one stop. */
  method TrackRoute(routes: map<RouteKey, RouteFrequency>, stopId: int, departure: DC.StopTime) returns (routes': map<RouteKey, RouteFrequency>)
    ensures routes' == Updated(routes, Visit(stopId, departure))
  {
    routes' := routes;
    var hour := ParseHour(departure.departureTime);
    var key := RouteKey(departure.routeId, departure.directionId);
    if key !in routes' {
      routes' := routes'[key := RouteFrequency(departure.routeId, departure.directionId, map[], 0, {})];
    }
    var r := routes'[key];
    routes' := routes'[key := r.(hourlyTrips := Inc(r.hourlyTrips, hour), totalTrips := r.totalTrips + 1, stopIds := r.stopIds + {stopId})];
  }

  /**
   * The inner loop of `extractFrequencyData` for one stop: its hour buckets
   * and routes, and every departure recorded on its route+direction entry.
   */
  method CountStop(stopId: int, departures: seq<DC.StopTime>, routes: map<RouteKey, RouteFrequency>, ghost before: seq<Visit>)
    returns (entry: StopFrequency, routes': map<RouteKey, RouteFrequency>)
    requires routes == RoutesOf(before)
    ensures entry == StopEntry(stopId, departures)
    ensures routes' == RoutesOf(before + Visits(stopId, departures))
  {
    var hourly: Buckets := map[];
    var routeIds: set<int> := {};
    routes' := routes;
    assert before + Visits(stopId, departures[..0]) == before;
    var j := 0;
    while j < |departures|
      invariant 0 <= j <= |departures|
      invariant hourly == Histogram(DepartureHours(departures[..j]))
      invariant routeIds == RouteIdsOf(departures[..j])
      invariant routes' == RoutesOf(before + Visits(stopId, departures[..j]))
    {
      var departure := departures[j];
      var hour := ParseHour(departure.departureTime);
      hourly := Inc(hourly, hour);
      routeIds := routeIds + {departure.routeId};
      routes' := TrackRoute(routes', stopId, departure);
      assert hourly == Histogram(DepartureHours(departures[..j + 1])) && routeIds == RouteIdsOf(departures[..j + 1]) by {
        DepartureStep(departures, j);
      }
      assert routes' == RoutesOf(before + Visits(stopId, departures[..j + 1])) by {
        VisitStep(before, stopId, departures, j);
        RoutesSnoc(before + Visits(stopId, departures[..j]), Visit(stopId, departure));
      }
      j := j + 1;
    }
    assert departures[..j] == departures;
    entry := StopFrequency(stopId, hourly, |departures|, routeIds);
  }

  /**
   * `extractFrequencyData`: one entry per listed stop with the hour buckets,
   * number and routes of its departures on `fmtDate(date)`, and one entry per
   * route+direction key with the buckets, number and stops of its departures
   * over all listed stops (a stop listed twice counts twice on its routes).
   */
  method ExtractFrequencyData(stops: seq<ScenarioStop>, cache: DC.StopDates, date: Calendar.Date) returns (f: FrequencyData)
    ensures f == FrequencyOf(stops, cache, Calendar.FmtDate(date))
  {
    var day := Calendar.FmtDate(date);
    var stopMap: map<int, StopFrequency> := map[];
    var order: seq<int> := [];
    var routes: map<RouteKey, RouteFrequency> := map[];
    var i := 0;
    assert stops[..0] == [];
    while i < |stops|
      invariant 0 <= i <= |stops|
      invariant stopMap == StopsOf(stops[..i], cache, day)
      invariant order == DistinctIds(stops[..i])
      invariant routes == RoutesOf(DayVisits(stops[..i], cache, day))
    {
      var stop := stops[i];
      var entry;
      entry, routes := CountStop(stop.id, DC.Lookup(cache, stop.id, day), routes, DayVisits(stops[..i], cache, day));
      stopMap := stopMap[stop.id := entry];
      if stop.id !in order {
        order := order + [stop.id];
      }
      assert stopMap == StopsOf(stops[..i + 1], cache, day) by {
        DaySnoc(stops, i, cache, day);
        StopsOfSnoc(stops[..i], stop, cache, day);
      }
      assert order == DistinctIds(stops[..i + 1]) && routes == RoutesOf(DayVisits(stops[..i + 1], cache, day)) by {
        DaySnoc(stops, i, cache, day);
      }
      i := i + 1;
    }
    assert stops[..i] == stops;
    f := FrequencyData(stopMap, routes, order);
  }

  // ---------------------------------------------------------------------
  // Properties of the frequency data

  /** Whether `id` is one of the listed stops. */
  predicate Listed(stops: seq<ScenarioStop>, id: int)
  {
    exists i :: 0 <= i < |stops| && stops[i].id == id
  }

  lemma {:induction false} DayVisitsMember(stops: seq<ScenarioStop>, cache: DC.StopDates, date: string, v: Visit)
    ensures v in DayVisits(stops, cache, date) <==> Listed(stops, v.stopId) && v.departure in DC.Lookup(cache, v.stopId, date)
  {
    if stops != [] {
      var p := stops[..|stops| - 1];
      var s := stops[|stops| - 1];
      DayVisitsMember(p, cache, date, v);
      var ds := DC.Lookup(cache, s.id, date);
      assert v in Visits(s.id, ds) <==> v.stopId == s.id && v.departure in ds by {
        if v.stopId == s.id && v.departure in ds {
          var j :| 0 <= j < |ds| && ds[j] == v.departure;
          assert Visits(s.id, ds)[j] == v;
        }
      }
      assert Listed(stops, v.stopId) <==> Listed(p, v.stopId) || v.stopId == s.id by {
        if Listed(p, v.stopId) {
          var i :| 0 <= i < |p| && p[i].id == v.stopId;
          assert stops[i] == p[i];
        }
        if Listed(stops, v.stopId) && v.stopId != s.id {
          var i :| 0 <= i < |stops| && stops[i].id == v.stopId;
          assert p[i] == stops[i];
        }
      }
    }
  }

  /** Whether a listed stop `id` has a departure on route+direction `k` that day. */
  predicate DepartsOn(stops: seq<ScenarioStop>, cache: DC.StopDates, date: string, id: int, k: RouteKey)
  {
    Listed(stops, id) && exists d :: d in DC.Lookup(cache, id, date) && KeyOf(d) == k
  }

  /**
   * The routes map has an entry for a route+direction key iff some listed
   * stop has a departure on it, and the entry's stop ids are exactly those
   * stops.
   */
  lemma RouteStopsExact(stops: seq<ScenarioStop>, cache: DC.StopDates, date: string, k: RouteKey, id: int)
    ensures var f := FrequencyOf(stops, cache, date);
            (k in f.routes <==> exists id' :: DepartsOn(stops, cache, date, id', k))
            && (k in f.routes ==> (id in f.routes[k].stopIds <==> DepartsOn(stops, cache, date, id, k)))
  {
    var vs := DayVisits(stops, cache, date);
    if DepartsOn(stops, cache, date, id, k) {
      var d :| d in DC.Lookup(cache, id, date) && KeyOf(d) == k;
      DayVisitsMember(stops, cache, date, Visit(id, d));
      var i :| 0 <= i < |vs| && vs[i] == Visit(id, d);
      assert id in KeyStops(vs, k);
    }
    if id in KeyStops(vs, k) {
      var i :| 0 <= i < |vs| && KeyOf(vs[i].departure) == k && vs[i].stopId == id;
      DayVisitsMember(stops, cache, date, vs[i]);
    }
    if k in Keys(vs) {
      var i :| 0 <= i < |vs| && KeyOf(vs[i].departure) == k;
      DayVisitsMember(stops, cache, date, vs[i]);
      assert DepartsOn(stops, cache, date, vs[i].stopId, k);
    }
    if exists id' :: DepartsOn(stops, cache, date, id', k) {
      var id' :| DepartsOn(stops, cache, date, id', k);
      var d :| d in DC.Lookup(cache, id', date) && KeyOf(d) == k;
      DayVisitsMember(stops, cache, date, Visit(id', d));
      var i :| 0 <= i < |vs| && vs[i] == Visit(id', d);
    }
  }

  /**
   * A stop's buckets sum to its `totalTrips`: over any distinct list of
   * hours naming every bucket, the sum is the number of its departures.
   */
  lemma StopBucketsSum(stops: seq<ScenarioStop>, cache: DC.StopDates, date: string, id: int, ks: seq<Hour>)
    requires id in FrequencyOf(stops, cache, date).stops
    requires Distinct(ks)
    requires forall k :: k in FrequencyOf(stops, cache, date).stops[id].hourlyTrips ==> k in ks
    ensures var e := FrequencyOf(stops, cache, date).stops[id];
            Total(e.hourlyTrips, ks) == e.totalTrips
  {
    var hs := DepartureHours(DC.Lookup(cache, id, date));
    HistogramTotal(hs, ks);
  }

  /** Likewise a route+direction entry's buckets sum to its `totalTrips`. */
  lemma RouteBucketsSum(stops: seq<ScenarioStop>, cache: DC.StopDates, date: string, k: RouteKey, ks: seq<Hour>)
    requires k in FrequencyOf(stops, cache, date).routes
    requires Distinct(ks)
    requires forall h :: h in FrequencyOf(stops, cache, date).routes[k].hourlyTrips ==> h in ks
    ensures var e := FrequencyOf(stops, cache, date).routes[k];
            Total(e.hourlyTrips, ks) == e.totalTrips
  {
    var hs := KeyHours(DayVisits(stops, cache, date), k);
    HistogramTotal(hs, ks);
  }

  lemma AsHoursDistinct(hours: seq<int>)
    requires Distinct(hours)
    ensures Distinct(AsHours(hours))
  {
  }

  /** Over distinct configured hours, a route+direction entry's trips never exceed its total. */
  lemma RouteHoursWithinTotal(stops: seq<ScenarioStop>, cache: DC.StopDates, date: string, k: RouteKey, hours: seq<int>)
    requires k in FrequencyOf(stops, cache, date).routes
    requires Distinct(hours)
    ensures var e := FrequencyOf(stops, cache, date).routes[k];
            SumTrips(e.hourlyTrips, hours) <= e.totalTrips
  {
    AsHoursDistinct(hours);
    HistogramTotal(KeyHours(DayVisits(stops, cache, date), k), AsHours(hours));
  }

  // ---------------------------------------------------------------------
  // Stop-level and route-level analysis

  /** The stops whose buckets meet rule `c`. */
  function StopsMeeting(stops: map<int, StopFrequency>, c: TimeConfig): set<int>
  {
    set id | id in stops && MeetsRule(stops[id].hourlyTrips, c)
  }

  /** The stop ids recorded on the route+direction entries that meet rule `c`. */
  function RouteStopsMeeting(routes: map<RouteKey, RouteFrequency>, c: TimeConfig): set<int>
  {
    set k, id | k in routes && id in routes[k].stopIds && MeetsRule(routes[k].hourlyTrips, c) :: id
  }

  /** The stop ids recorded on the route+direction entries with at least `threshold` trips. */
  function RouteStopsByTotal(routes: map<RouteKey, RouteFrequency>, threshold: int): set<int>
  {
    set k, id | k in routes && id in routes[k].stopIds && routes[k].totalTrips >= threshold :: id
  }

  /** `analyzeStopFrequency`: the stops that pass the window rule. */
  method AnalyzeStopFrequency(stops: map<int, StopFrequency>, c: TimeConfig) returns (result: set<int>)
    ensures result == StopsMeeting(stops, c)
  {
    result := {};
    var todo := stops.Keys;
    while todo != {}
      invariant todo <= stops.Keys
      invariant result == set id | id in stops && id !in todo && MeetsRule(stops[id].hourlyTrips, c)
      decreases |todo|
    {
      assert (forall x :: x !in todo) ==> todo == {};
      var stopId :| stopId in todo;
      var passes := CheckHours(stops[stopId].hourlyTrips, c);
      if passes {
        result := result + {stopId};
      }
      todo := todo - {stopId};
    }
  }

  /** The stop ids recorded on the entries of `done` that meet rule `c`. */
  function RouteStopsOver(routes: map<RouteKey, RouteFrequency>, done: set<RouteKey>, c: TimeConfig): set<int>
  {
    set k, id | k in done && k in routes && id in routes[k].stopIds && MeetsRule(routes[k].hourlyTrips, c) :: id
  }

  lemma RouteStopsOverAdd(routes: map<RouteKey, RouteFrequency>, done: set<RouteKey>, key: RouteKey, c: TimeConfig)
    requires key in routes
    ensures RouteStopsOver(routes, done + {key}, c)
            == RouteStopsOver(routes, done, c) + (if MeetsRule(routes[key].hourlyTrips, c) then routes[key].stopIds else {})
  {
    var a := RouteStopsOver(routes, done + {key}, c);
    var b := RouteStopsOver(routes, done, c) + (if MeetsRule(routes[key].hourlyTrips, c) then routes[key].stopIds else {});
    forall id | id in a ensures id in b {
      var k :| k in done + {key} && k in routes && id in routes[k].stopIds && MeetsRule(routes[k].hourlyTrips, c);
    }
    forall id | id in b ensures id in a {
      if id !in RouteStopsOver(routes, done, c) {
        assert id in routes[key].stopIds;
      }
    }
  }

  /** The stop ids recorded on the entries of `done` with at least `threshold` trips. */
  function RouteStopsByTotalOver(routes: map<RouteKey, RouteFrequency>, done: set<RouteKey>, threshold: int): set<int>
  {
    set k, id | k in done && k in routes && id in routes[k].stopIds && routes[k].totalTrips >= threshold :: id
  }

  lemma RouteStopsByTotalOverAdd(routes: map<RouteKey, RouteFrequency>, done: set<RouteKey>, key: RouteKey, threshold: int)
    requires key in routes
    ensures RouteStopsByTotalOver(routes, done + {key}, threshold)
            == RouteStopsByTotalOver(routes, done, threshold) + (if routes[key].totalTrips >= threshold then routes[key].stopIds else {})
  {
    var a := RouteStopsByTotalOver(routes, done + {key}, threshold);
    var b := RouteStopsByTotalOver(routes, done, threshold) + (if routes[key].totalTrips >= threshold then routes[key].stopIds else {});
    forall id | id in a ensures id in b {
      var k :| k in done + {key} && k in routes && id in routes[k].stopIds && routes[k].totalTrips >= threshold;
    }
    forall id | id in b ensures id in a {
      if id !in RouteStopsByTotalOver(routes, done, threshold) {
        assert id in routes[key].stopIds;
      }
    }
  }

  /** `analyzeRouteFrequency`: every stop recorded on a route+direction entry that passes the window rule. */
  method AnalyzeRouteFrequency(routes: map<RouteKey, RouteFrequency>, c: TimeConfig) returns (qualifying: set<int>)
    ensures qualifying == RouteStopsMeeting(routes, c)
  {
    qualifying := {};
    var todo := routes.Keys;
    while todo != {}
      invariant todo <= routes.Keys
      invariant qualifying == RouteStopsOver(routes, routes.Keys - todo, c)
      decreases |todo|
    {
      var key :| key in todo;
      var passes := CheckHours(routes[key].hourlyTrips, c);
      if passes {
        qualifying := qualifying + routes[key].stopIds;
      }
      RouteStopsOverAdd(routes, routes.Keys - todo, key, c);
      assert routes.Keys - (todo - {key}) == (routes.Keys - todo) + {key};
      todo := todo - {key};
    }
    assert routes.Keys - todo == routes.Keys;
  }

  /** `analyzeRouteFrequencyByTotalTrips`: every stop recorded on a route+direction entry with at least `threshold` trips. */
  method AnalyzeRouteFrequencyByTotalTrips(routes: map<RouteKey, RouteFrequency>, threshold: int) returns (qualifying: set<int>)
    ensures qualifying == RouteStopsByTotal(routes, threshold)
  {
    qualifying := {};
    var todo := routes.Keys;
    while todo != {}
      invariant todo <= routes.Keys
      invariant qualifying == RouteStopsByTotalOver(routes, routes.Keys - todo, threshold)
      decreases |todo|
    {
      var key :| key in todo;
      if routes[key].totalTrips >= threshold {
        qualifying := qualifying + routes[key].stopIds;
      }
      RouteStopsByTotalOverAdd(routes, routes.Keys - todo, key, threshold);
      assert routes.Keys - (todo - {key}) == (routes.Keys - todo) + {key};
      todo := todo - {key};
    }
    assert routes.Keys - todo == routes.Keys;
  }

  /** The set that `intersection(set1, set2)` builds element by element. */
  method Intersection(set1: set<int>, set2: set<int>) returns (result: set<int>)
    ensures result == set1 * set2
  {
    result := {};
    var todo := set1;
    while todo != {}
      invariant todo <= set1
      invariant result == (set1 - todo) * set2
      decreases |todo|
    {
      assert (forall x :: x !in todo) ==> todo == {};
      var item :| item in todo;
      if item in set2 {
        result := result + {item};
      }
      todo := todo - {item};
    }
  }

  // ---------------------------------------------------------------------
  // Night segments

  predicate PassesSegment(m: Buckets, seg: NightSegment)
  {
    SumTrips(m, seg.hours) >= seg.minTotal
  }

  /** The stops that pass one segment: the sum over its hours reaches its minimum, with no per-hour floor. */
  function SegmentStops(stops: map<int, StopFrequency>, seg: NightSegment): set<int>
  {
    set id | id in stops && PassesSegment(stops[id].hourlyTrips, seg)
  }

  /** The stops that pass every segment; none when there are no segments. */
  function NightStops(stops: map<int, StopFrequency>, segs: seq<NightSegment>): set<int>
  {
    if segs == [] then {}
    else set id | id in stops && forall i :: 0 <= i < |segs| ==> PassesSegment(stops[id].hourlyTrips, segs[i])
  }

  /** The inner hour loop of `processNightSegments`. */
  method SumHours(hourly: Buckets, hours: seq<int>) returns (totalTrips: nat)
    ensures totalTrips == SumTrips(hourly, hours)
  {
    totalTrips := 0;
    var i := 0;
    while i < |hours|
      invariant 0 <= i <= |hours|
      invariant totalTrips == SumTrips(hourly, hours[..i])
    {
      assert hours[..i + 1][..i] == hours[..i];
      totalTrips := totalTrips + (if H(hours[i]) in hourly then hourly[H(hours[i])] else 0);
      i := i + 1;
    }
    assert hours[..i] == hours;
  }

  /** The per-segment pass of `processNightSegments`. */
  method SegmentPass(stops: map<int, StopFrequency>, seg: NightSegment) returns (segmentStops: set<int>)
    ensures segmentStops == SegmentStops(stops, seg)
  {
    segmentStops := {};
    var todo := stops.Keys;
    while todo != {}
      invariant todo <= stops.Keys
      invariant segmentStops == set id | id in stops && id !in todo && PassesSegment(stops[id].hourlyTrips, seg)
      decreases |todo|
    {
      assert (forall x :: x !in todo) ==> todo == {};
      var stopId :| stopId in todo;
      var totalTrips := SumHours(stops[stopId].hourlyTrips, seg.hours);
      if totalTrips >= seg.minTotal {
        segmentStops := segmentStops + {stopId};
      }
      todo := todo - {stopId};
    }
  }

  /**
   * `processNightSegments`: the intersection of the per-segment results.
   * Overlapping segments are each evaluated on their own hours, and an empty
   * segment list gives the empty set.
   */
  method ProcessNightSegments(stops: map<int, StopFrequency>, segs: seq<NightSegment>) returns (result: set<int>)
    ensures result == NightStops(stops, segs)
  {
    var segmentResults: seq<set<int>> := [];
    var s := 0;
    while s < |segs|
      invariant 0 <= s <= |segs|
      invariant |segmentResults| == s
      invariant forall i :: 0 <= i < s ==> segmentResults[i] == SegmentStops(stops, segs[i])
    {
      var segmentStops := SegmentPass(stops, segs[s]);
      segmentResults := segmentResults + [segmentStops];
      s := s + 1;
    }
    result := if |segmentResults| > 0 then segmentResults[0] else {};
    var i := 1;
    while i < |segmentResults|
      invariant 1 <= i
      invariant segs == [] ==> result == {}
      invariant segs != [] ==> i <= |segs|
      invariant segs != [] ==> result == set id | id in stops && forall j :: 0 <= j < i ==> PassesSegment(stops[id].hourlyTrips, segs[j])
    {
      result := Intersection(result, segmentResults[i]);
      i := i + 1;
    }
  }

  // ---------------------------------------------------------------------
  // Service levels

  /** `ServiceLevelConfig`: optional rules; `totalTripsThreshold` switches to the total-trips test. */
  datatype ServiceLevelConfig = ServiceLevelConfig(
    name: string,
    peak: Option<TimeConfig>,
    extended: Option<TimeConfig>,
    weekend: Option<TimeConfig>,
    nightSegments: Option<seq<NightSegment>>,
    totalTripsThreshold: Option<int>,
    weekendRequired: bool)

  /** Whether the level has a stop-level rule (peak, extended or night segments). */
  predicate HasStopRule(c: ServiceLevelConfig)
  {
    c.peak.Some? || c.extended.Some? || c.nightSegments.Some?
  }

  /** The route-level rule: `config.peak || config.extended`. */
  function RouteRule(c: ServiceLevelConfig): Option<TimeConfig>
  {
    if c.peak.Some? then c.peak else c.extended
  }

  /** Whether the weekend stage runs: `weekend_required && weekend`. */
  predicate WeekendChecked(c: ServiceLevelConfig)
  {
    c.weekendRequired && c.weekend.Some?
  }

  /**
   * Whether stop `id` qualifies for a level without a total-trips threshold:
   * the level has some stop-level rule, the stop passes each rule the level
   * has on weekdays, it is recorded on a weekday route+direction entry that
   * passes the route rule, and, when the weekend stage runs, it passes the
   * weekend rule and is on a weekend route+direction entry that passes it.
   */
  predicate Qualifies(c: ServiceLevelConfig, weekday: FrequencyData, weekend: FrequencyData, id: int)
  {
    && HasStopRule(c)
    && (c.peak.Some? ==> id in StopsMeeting(weekday.stops, c.peak.value))
    && (c.extended.Some? ==> id in StopsMeeting(weekday.stops, c.extended.value))
    && (c.nightSegments.Some? ==> id in NightStops(weekday.stops, c.nightSegments.value))
    && (RouteRule(c).Some? ==> id in RouteStopsMeeting(weekday.routes, RouteRule(c).value))
    && (WeekendChecked(c) ==>
          id in StopsMeeting(weekend.stops, c.weekend.value) && id in RouteStopsMeeting(weekend.routes, c.weekend.value))
  }

  /** The stops of a level: the weekday total-trips result for a threshold level, else the qualifying stops. */
  function LevelStops(c: ServiceLevelConfig, weekday: FrequencyData, weekend: FrequencyData): set<int>
  {
    if c.totalTripsThreshold.Some? then RouteStopsByTotal(weekday.routes, c.totalTripsThreshold.value)
    else set id | id in weekday.stops && Qualifies(c, weekday, weekend, id)
  }

  lemma NightStopsWithin(stops: map<int, StopFrequency>, segs: seq<NightSegment>)
    ensures NightStops(stops, segs) <= stops.Keys
  {
  }

  /** Whether stop `id` passes each stop-level rule the level has. */
  predicate PassesStopRules(c: ServiceLevelConfig, stops: map<int, StopFrequency>, id: int)
  {
    && (c.peak.Some? ==> id in StopsMeeting(stops, c.peak.value))
    && (c.extended.Some? ==> id in StopsMeeting(stops, c.extended.value))
    && (c.nightSegments.Some? ==> id in NightStops(stops, c.nightSegments.value))
  }

  /** The stop-level sets in the order `processServiceLevel` pushes them. */
  function StopLevelSets(c: ServiceLevelConfig, stops: map<int, StopFrequency>): seq<set<int>>
  {
    (if c.peak.Some? then [StopsMeeting(stops, c.peak.value)] else [])
    + (if c.extended.Some? then [StopsMeeting(stops, c.extended.value)] else [])
    + (if c.nightSegments.Some? then [NightStops(stops, c.nightSegments.value)] else [])
  }

  lemma StopLevelSetsMember(c: ServiceLevelConfig, stops: map<int, StopFrequency>)
    ensures |StopLevelSets(c, stops)| > 0 <==> HasStopRule(c)
    ensures HasStopRule(c) ==> forall id ::
              (forall j :: 0 <= j < |StopLevelSets(c, stops)| ==> id in StopLevelSets(c, stops)[j])
              <==> id in stops && PassesStopRules(c, stops, id)
  {
    var ss := StopLevelSets(c, stops);
    var p := if c.peak.Some? then [StopsMeeting(stops, c.peak.value)] else [];
    var e := if c.extended.Some? then [StopsMeeting(stops, c.extended.value)] else [];
    var n := if c.nightSegments.Some? then [NightStops(stops, c.nightSegments.value)] else [];
    assert ss == p + e + n;
    if c.nightSegments.Some? {
      NightStopsWithin(stops, c.nightSegments.value);
    }
    forall id | HasStopRule(c)
      ensures (forall j :: 0 <= j < |ss| ==> id in ss[j]) <==> id in stops && PassesStopRules(c, stops, id)
    {
      if forall j :: 0 <= j < |ss| ==> id in ss[j] {
        if c.peak.Some? { assert id in ss[0]; }
        if c.extended.Some? { assert id in ss[|p|]; }
        if c.nightSegments.Some? { assert id in ss[|p| + |e|]; }
      }
    }
  }

  /** The "merge stop-level results" loop of `processServiceLevel`: the intersection of all the sets, or none. */
  method IntersectAll(sets: seq<set<int>>) returns (merged: set<int>)
    ensures sets == [] ==> merged == {}
    ensures forall id :: id in merged <==> sets != [] && forall j :: 0 <= j < |sets| ==> id in sets[j]
  {
    merged := if |sets| > 0 then sets[0] else {};
    var i := 1;
    while i < |sets|
      invariant 1 <= i
      invariant sets == [] ==> merged == {}
      invariant sets != [] ==> i <= |sets|
      invariant sets != [] ==> forall id :: id in merged <==> forall j :: 0 <= j < i ==> id in sets[j]
    {
      merged := Intersection(merged, sets[i]);
      i := i + 1;
    }
  }

  /** The merged stop-level set: the stops passing every stop-level rule the level has, or none. */
  function StopLevelStops(c: ServiceLevelConfig, stops: map<int, StopFrequency>): set<int>
  {
    if HasStopRule(c) then set id | id in stops && PassesStopRules(c, stops, id) else {}
  }

  lemma MergedStopLevel(c: ServiceLevelConfig, stops: map<int, StopFrequency>, merged: set<int>)
    requires forall id :: id in merged <==> StopLevelSets(c, stops) != [] && forall j :: 0 <= j < |StopLevelSets(c, stops)| ==> id in StopLevelSets(c, stops)[j]
    ensures merged == StopLevelStops(c, stops)
  {
    StopLevelSetsMember(c, stops);
    forall id ensures id in merged <==> id in StopLevelStops(c, stops) {
    }
  }

  /** A level without a threshold, stage by stage: stop-level sets, then route stops, then the weekend set. */
  lemma LevelStopsStages(c: ServiceLevelConfig, weekday: FrequencyData, weekend: FrequencyData)
    requires c.totalTripsThreshold.None?
    ensures var a := StopLevelStops(c, weekday.stops);
            var b := if RouteRule(c).Some? then a * RouteStopsMeeting(weekday.routes, RouteRule(c).value) else a;
            LevelStops(c, weekday, weekend)
            == if WeekendChecked(c) then b * (StopsMeeting(weekend.stops, c.weekend.value) * RouteStopsMeeting(weekend.routes, c.weekend.value)) else b
  {
  }

  /**
   * `processServiceLevel`: the total-trips result for a threshold level;
   * otherwise the intersection of the stop-level sets it has, then of the
   * route stops, then of the weekend set.
   */
  method ProcessServiceLevel(c: ServiceLevelConfig, weekday: FrequencyData, weekend: FrequencyData) returns (merged: set<int>)
    ensures merged == LevelStops(c, weekday, weekend)
  {
    if c.totalTripsThreshold.Some? {
      merged := AnalyzeRouteFrequencyByTotalTrips(weekday.routes, c.totalTripsThreshold.value);
      return;
    }
    var stopResults: seq<set<int>> := [];
    if c.peak.Some? {
      var peakStops := AnalyzeStopFrequency(weekday.stops, c.peak.value);
      stopResults := stopResults + [peakStops];
    }
    if c.extended.Some? {
      var extendedStops := AnalyzeStopFrequency(weekday.stops, c.extended.value);
      stopResults := stopResults + [extendedStops];
    }
    if c.nightSegments.Some? {
      var nightStops := ProcessNightSegments(weekday.stops, c.nightSegments.value);
      NightStopsWithin(weekday.stops, c.nightSegments.value);
      stopResults := stopResults + [nightStops];
    }
    assert stopResults == StopLevelSets(c, weekday.stops);
    merged := IntersectAll(stopResults);
    MergedStopLevel(c, weekday.stops, merged);
    LevelStopsStages(c, weekday, weekend);
    var routeConfig := if c.peak.Some? then c.peak else c.extended;
    if routeConfig.Some? {
      var routeStops := AnalyzeRouteFrequency(weekday.routes, routeConfig.value);
      merged := Intersection(merged, routeStops);
    }
    if c.weekendRequired && c.weekend.Some? {
      var weekendStops := AnalyzeStopFrequency(weekend.stops, c.weekend.value);
      var weekendRouteStops := AnalyzeRouteFrequency(weekend.routes, c.weekend.value);
      var weekendMerged := Intersection(weekendStops, weekendRouteStops);
      merged := Intersection(merged, weekendMerged);
    }
  }

  // ---------------------------------------------------------------------
  // The SERVICE_LEVELS table

  datatype LevelKey = Level1 | Level2 | Level3 | Level4 | Level5 | Level6 | LevelNights

  /** The levels in the table's own order, which `Object.entries` follows. */
  const LevelOrder: seq<LevelKey> := [Level1, Level2, Level3, Level4, Level5, Level6, LevelNights]

  const PeakHours: seq<int> := [9, 10, 11, 12, 13, 14, 15, 16]
  const ExtendedHours: seq<int> := [6, 7, 8, 17, 18, 19, 20, 21]
  const AllDayHours: seq<int> := [5, 6, 7, 8, 9, 10, 11, 12, 13, 14, 15, 16, 17, 18, 19, 20, 21, 22, 23, 0, 1, 2, 3, 4]

  /** The four night segments, overlapping at hour 2 and 3, each with the given minimum. */
  function NightSegments(minTotal: int): seq<NightSegment>
  {
    [NightSegment([23, 0], minTotal), NightSegment([1, 2], minTotal), NightSegment([3, 4], minTotal), NightSegment([2, 3], minTotal)]
  }

  /** `SERVICE_LEVELS`. */
  function ServiceLevel(k: LevelKey): ServiceLevelConfig
  {
    match k
    case Level1 => ServiceLevelConfig("Level 1", Some(TimeConfig(PeakHours, 4, 40)), Some(TimeConfig(ExtendedHours, 3, 32)),
                                      Some(TimeConfig(PeakHours, 3, 32)), Some(NightSegments(0)), None, true)
    case Level2 => ServiceLevelConfig("Level 2", Some(TimeConfig(PeakHours, 3, 32)), Some(TimeConfig(ExtendedHours, 1, 16)),
                                      Some(TimeConfig(PeakHours, 1, 16)), None, None, true)
    case Level3 => ServiceLevelConfig("Level 3", Some(TimeConfig(PeakHours, 1, 16)), Some(TimeConfig(ExtendedHours, 0, 8)),
                                      Some(TimeConfig(PeakHours, 0, 8)), None, None, true)
    case Level4 => ServiceLevelConfig("Level 4", Some(TimeConfig(PeakHours, 0, 8)), None, None, None, None, false)
    case Level5 => ServiceLevelConfig("Level 5", None, None, None, None, Some(6), false)
    case Level6 => ServiceLevelConfig("Level 6", None, None, None, None, Some(2), false)
    case LevelNights => ServiceLevelConfig("Night", Some(TimeConfig(AllDayHours, 0, 4)), None, None, Some(NightSegments(1)), None, true)
  }

  // ---------------------------------------------------------------------
  // Properties of the levels

  /**
   * A level without a threshold keeps only stops in every component set it
   * has, and keeps none when it has no stop-level rule.
   */
  lemma LevelWithinComponents(c: ServiceLevelConfig, weekday: FrequencyData, weekend: FrequencyData)
    requires c.totalTripsThreshold.None?
    ensures var r := LevelStops(c, weekday, weekend);
            && (!HasStopRule(c) ==> r == {})
            && (c.peak.Some? ==> r <= StopsMeeting(weekday.stops, c.peak.value))
            && (c.extended.Some? ==> r <= StopsMeeting(weekday.stops, c.extended.value))
            && (c.nightSegments.Some? ==> r <= NightStops(weekday.stops, c.nightSegments.value))
            && (RouteRule(c).Some? ==> r <= RouteStopsMeeting(weekday.routes, RouteRule(c).value))
            && (WeekendChecked(c) ==> r <= StopsMeeting(weekend.stops, c.weekend.value) * RouteStopsMeeting(weekend.routes, c.weekend.value))
  {
  }

  /** A level with a total-trips threshold ignores every other rule and the weekend data. */
  lemma ThresholdLevel(c: ServiceLevelConfig, weekday: FrequencyData, weekend: FrequencyData, weekend': FrequencyData)
    requires c.totalTripsThreshold.Some?
    ensures LevelStops(c, weekday, weekend) == RouteStopsByTotal(weekday.routes, c.totalTripsThreshold.value)
    ensures LevelStops(c, weekday, weekend) == LevelStops(c, weekday, weekend')
  {
  }

  /** The night level has no weekend rule, so the weekend data never changes its stops. */
  lemma NightsIgnoreWeekend(weekday: FrequencyData, weekend: FrequencyData, weekend': FrequencyData)
    ensures LevelStops(ServiceLevel(LevelNights), weekday, weekend) == LevelStops(ServiceLevel(LevelNights), weekday, weekend')
  {
    var c := ServiceLevel(LevelNights);
    assert !WeekendChecked(c);
    forall id ensures Qualifies(c, weekday, weekend, id) == Qualifies(c, weekday, weekend', id) {
    }
  }

  /** Level 1's night segments have minimum 0, so every stop with an entry passes them. */
  lemma Level1NightVacuous(stops: map<int, StopFrequency>)
    ensures NightStops(stops, NightSegments(0)) == stops.Keys
  {
    forall id | id in stops ensures id in NightStops(stops, NightSegments(0)) {
    }
  }

  lemma StopsMeetingMonotone(stops: map<int, StopFrequency>, strict: TimeConfig, loose: TimeConfig)
    requires strict.hours == loose.hours && strict.minTph >= loose.minTph && strict.minTotal >= loose.minTotal
    ensures StopsMeeting(stops, strict) <= StopsMeeting(stops, loose)
  {
    forall id | id in StopsMeeting(stops, strict) ensures id in StopsMeeting(stops, loose) {
      RuleMonotone(stops[id].hourlyTrips, strict, loose);
    }
  }

  lemma RouteStopsMonotone(routes: map<RouteKey, RouteFrequency>, strict: TimeConfig, loose: TimeConfig)
    requires strict.hours == loose.hours && strict.minTph >= loose.minTph && strict.minTotal >= loose.minTotal
    ensures RouteStopsMeeting(routes, strict) <= RouteStopsMeeting(routes, loose)
  {
    forall id | id in RouteStopsMeeting(routes, strict) ensures id in RouteStopsMeeting(routes, loose) {
      var k :| k in routes && id in routes[k].stopIds && MeetsRule(routes[k].hourlyTrips, strict);
      RuleMonotone(routes[k].hourlyTrips, strict, loose);
    }
  }

  lemma Tier12(weekday: FrequencyData, weekend: FrequencyData)
    ensures LevelStops(ServiceLevel(Level1), weekday, weekend) <= LevelStops(ServiceLevel(Level2), weekday, weekend)
  {
    StopsMeetingMonotone(weekday.stops, TimeConfig(PeakHours, 4, 40), TimeConfig(PeakHours, 3, 32));
    StopsMeetingMonotone(weekday.stops, TimeConfig(ExtendedHours, 3, 32), TimeConfig(ExtendedHours, 1, 16));
    RouteStopsMonotone(weekday.routes, TimeConfig(PeakHours, 4, 40), TimeConfig(PeakHours, 3, 32));
    StopsMeetingMonotone(weekend.stops, TimeConfig(PeakHours, 3, 32), TimeConfig(PeakHours, 1, 16));
    RouteStopsMonotone(weekend.routes, TimeConfig(PeakHours, 3, 32), TimeConfig(PeakHours, 1, 16));
  }

  lemma Tier23(weekday: FrequencyData, weekend: FrequencyData)
    ensures LevelStops(ServiceLevel(Level2), weekday, weekend) <= LevelStops(ServiceLevel(Level3), weekday, weekend)
  {
    StopsMeetingMonotone(weekday.stops, TimeConfig(PeakHours, 3, 32), TimeConfig(PeakHours, 1, 16));
    StopsMeetingMonotone(weekday.stops, TimeConfig(ExtendedHours, 1, 16), TimeConfig(ExtendedHours, 0, 8));
    RouteStopsMonotone(weekday.routes, TimeConfig(PeakHours, 3, 32), TimeConfig(PeakHours, 1, 16));
    StopsMeetingMonotone(weekend.stops, TimeConfig(PeakHours, 1, 16), TimeConfig(PeakHours, 0, 8));
    RouteStopsMonotone(weekend.routes, TimeConfig(PeakHours, 1, 16), TimeConfig(PeakHours, 0, 8));
  }

  lemma Tier34(weekday: FrequencyData, weekend: FrequencyData)
    ensures LevelStops(ServiceLevel(Level3), weekday, weekend) <= LevelStops(ServiceLevel(Level4), weekday, weekend)
  {
    StopsMeetingMonotone(weekday.stops, TimeConfig(PeakHours, 1, 16), TimeConfig(PeakHours, 0, 8));
    RouteStopsMonotone(weekday.routes, TimeConfig(PeakHours, 1, 16), TimeConfig(PeakHours, 0, 8));
  }

  /** Every route+direction entry's total is at least its trips over the listed hours. */
  predicate TotalsCover(routes: map<RouteKey, RouteFrequency>, hours: seq<int>)
  {
    forall k :: k in routes ==> SumTrips(routes[k].hourlyTrips, hours) <= routes[k].totalTrips
  }

  /**
   * Level 4's route rule asks for 8 trips over the peak hours; where each
   * entry's total covers its peak trips, such an entry has the 6 trips of
   * level 5.
   */
  lemma Tier45(weekday: FrequencyData, weekend: FrequencyData)
    requires TotalsCover(weekday.routes, PeakHours)
    ensures LevelStops(ServiceLevel(Level4), weekday, weekend) <= LevelStops(ServiceLevel(Level5), weekday, weekend)
  {
    var peak := TimeConfig(PeakHours, 0, 8);
    forall id | id in LevelStops(ServiceLevel(Level4), weekday, weekend)
      ensures id in RouteStopsByTotal(weekday.routes, 6)
    {
      assert id in RouteStopsMeeting(weekday.routes, peak);
      var k :| k in weekday.routes && id in weekday.routes[k].stopIds && MeetsRule(weekday.routes[k].hourlyTrips, peak);
    }
  }

  /** The data `extractFrequencyData` builds has every total covering the peak trips. */
  lemma FrequencyTotalsCover(stops: seq<ScenarioStop>, cache: DC.StopDates, date: string)
    ensures TotalsCover(FrequencyOf(stops, cache, date).routes, PeakHours)
  {
    var routes := FrequencyOf(stops, cache, date).routes;
    assert Distinct(PeakHours) by {
      forall i, j | 0 <= i < j < |PeakHours| ensures PeakHours[i] != PeakHours[j] {
        assert PeakHours[i] == 9 + i && PeakHours[j] == 9 + j;
      }
    }
    forall k | k in routes ensures SumTrips(routes[k].hourlyTrips, PeakHours) <= routes[k].totalTrips {
      RouteHoursWithinTotal(stops, cache, date, k, PeakHours);
    }
  }

  lemma Tier56(weekday: FrequencyData, weekend: FrequencyData)
    ensures LevelStops(ServiceLevel(Level5), weekday, weekend) <= LevelStops(ServiceLevel(Level6), weekday, weekend)
  {
    forall id | id in RouteStopsByTotal(weekday.routes, 6) ensures id in RouteStopsByTotal(weekday.routes, 2) {
      var k :| k in weekday.routes && id in weekday.routes[k].stopIds && weekday.routes[k].totalTrips >= 6;
    }
  }

  /**
   * On the frequency data of a day, the levels are nested tiers: every
   * level 1 stop is a level 2 stop, and so on down to level 6.
   */
  lemma TiersNested(stops: seq<ScenarioStop>, cache: DC.StopDates, date: string, weekend: FrequencyData)
    ensures var weekday := FrequencyOf(stops, cache, date);
            var L := (k: LevelKey) => LevelStops(ServiceLevel(k), weekday, weekend);
            L(Level1) <= L(Level2) <= L(Level3) <= L(Level4) <= L(Level5) <= L(Level6)
  {
    var weekday := FrequencyOf(stops, cache, date);
    Tier12(weekday, weekend);
    Tier23(weekday, weekend);
    Tier34(weekday, weekend);
    FrequencyTotalsCover(stops, cache, date);
    Tier45(weekday, weekend);
    Tier56(weekday, weekend);
  }

  // ---------------------------------------------------------------------
  // The report (`WSDOTReportFetcher.fetch`)

  /** `WSDOTStopResult`. */
  datatype StopRow = StopRow(
    stopId: string, stopName: string, stopLat: real, stopLon: real,
    level6: bool, level5: bool, level4: bool, level3: bool, level2: bool, level1: bool, levelNights: bool)

  /** `WSDOTReport` without the census layers; a level's stop list is kept as the set it is built from. */
  datatype Report = Report(stops: seq<StopRow>, levelStops: map<LevelKey, set<int>>)

  /** `stops.find(s => s.id === id)`: the first listed stop with that id. */
  function FindStop(stops: seq<ScenarioStop>, id: int): (r: Option<ScenarioStop>)
    ensures r.Some? ==> r.value.id == id
    ensures r.Some? <==> Listed(stops, id)
  {
    if stops == [] then None
    else if stops[0].id == id then Some(stops[0])
    else
      assert Listed(stops, id) <==> Listed(stops[1..], id) by {
        if Listed(stops, id) {
          var i :| 0 <= i < |stops| && stops[i].id == id;
          assert stops[1..][i - 1] == stops[i];
        }
        if Listed(stops[1..], id) {
          var i :| 0 <= i < |stops[1..]| && stops[1..][i].id == id;
          assert stops[i + 1] == stops[1..][i];
        }
      }
      FindStop(stops[1..], id)
  }

  /** Whether the report has a row for `id`: a listed stop with that id has a geometry. */
  predicate HasRow(stops: seq<ScenarioStop>, id: int)
  {
    FindStop(stops, id).Some? && FindStop(stops, id).value.geometry.Some?
  }

  /** The ids of `ids` that get a row, in order. */
  function RowIds(ids: seq<int>, stops: seq<ScenarioStop>): (r: seq<int>)
    ensures forall id :: id in r <==> id in ids && HasRow(stops, id)
    ensures forall i :: 0 <= i < |r| ==> HasRow(stops, r[i])
    ensures Distinct(ids) ==> Distinct(r)
  {
    if ids == [] then []
    else
      var p := RowIds(ids[..|ids| - 1], stops);
      var id := ids[|ids| - 1];
      assert forall x :: x in ids <==> x in ids[..|ids| - 1] || x == id;
      if HasRow(stops, id) then p + [id] else p
  }

  /** `new Set([...a, ...b])` read back in insertion order: first occurrences only. */
  function Dedup(xs: seq<int>): (r: seq<int>)
    ensures Distinct(r)
    ensures forall x :: x in r <==> x in xs
  {
    if xs == [] then []
    else
      var p := Dedup(xs[..|xs| - 1]);
      var x := xs[|xs| - 1];
      assert forall y :: y in xs <==> y in xs[..|xs| - 1] || y == x;
      if x in p then p else p + [x]
  }

  /** `results.levelX?.has(stopId) || false`. */
  predicate Flag(results: map<LevelKey, set<int>>, k: LevelKey, id: int)
  {
    k in results && id in results[k]
  }

  /** The row of stop `s`, found for id `id`. */
  predicate IsRowOf(row: StopRow, s: ScenarioStop, results: map<LevelKey, set<int>>, id: int)
    requires s.geometry.Some?
  {
    && row.stopId == s.stopId
    && row.stopName == s.stopName.GetOr("")
    && row.stopLat == s.geometry.value.lat
    && row.stopLon == s.geometry.value.lon
    && (row.level6 <==> Flag(results, Level6, id))
    && (row.level5 <==> Flag(results, Level5, id))
    && (row.level4 <==> Flag(results, Level4, id))
    && (row.level3 <==> Flag(results, Level3, id))
    && (row.level2 <==> Flag(results, Level2, id))
    && (row.level1 <==> Flag(results, Level1, id))
    && (row.levelNights <==> Flag(results, LevelNights, id))
  }

  /**
   * The final row build: one row per id of `allStopIds` whose first listed
   * stop has a geometry, in order, with the stop's fields and one flag per
   * level that is set iff the id is in that level's set.
   */
  method BuildRows(allStopIds: seq<int>, stops: seq<ScenarioStop>, results: map<LevelKey, set<int>>) returns (rows: seq<StopRow>)
    ensures |rows| == |RowIds(allStopIds, stops)|
    ensures forall i :: 0 <= i < |rows| ==>
              var id := RowIds(allStopIds, stops)[i];
              IsRowOf(rows[i], FindStop(stops, id).value, results, id)
  {
    rows := [];
    var i := 0;
    while i < |allStopIds|
      invariant BuiltUpTo(rows, allStopIds, i, stops, results)
    {
      var stopId := allStopIds[i];
      ghost var rows0 := rows;
      var stop := FindStop(stops, stopId);
      if stop.Some? && stop.value.geometry.Some? {
        rows := rows + [RowFor(stop.value, results, stopId)];
      }
      BuildStep(allStopIds, i, stops, results, rows0, rows);
      i := i + 1;
    }
    RowsOfRows(rows, allStopIds, stops, results);
  }

  /** The row object built for stop `s` under id `id`. */
  function RowFor(s: ScenarioStop, results: map<LevelKey, set<int>>, id: int): (row: StopRow)
    requires s.geometry.Some?
    ensures IsRowOf(row, s, results, id)
  {
    StopRow(
      s.stopId, s.stopName.GetOr(""), s.geometry.value.lat, s.geometry.value.lon,
      Level6 in results && id in results[Level6],
      Level5 in results && id in results[Level5],
      Level4 in results && id in results[Level4],
      Level3 in results && id in results[Level3],
      Level2 in results && id in results[Level2],
      Level1 in results && id in results[Level1],
      LevelNights in results && id in results[LevelNights])
  }

  /** One turn of the row loop: a stop with a geometry adds its row, any other id adds nothing. */
  lemma BuildStep(all: seq<int>, i: int, stops: seq<ScenarioStop>, results: map<LevelKey, set<int>>,
                  rows0: seq<StopRow>, rows: seq<StopRow>)
    requires i < |all| && BuiltUpTo(rows0, all, i, stops, results)
    requires var id := all[i];
      rows == if HasRow(stops, id) then rows0 + [RowFor(FindStop(stops, id).value, results, id)] else rows0
    ensures BuiltUpTo(rows, all, i + 1, stops, results)
  {
    var prefix, id := all[..i], all[i];
    assert all[..i + 1] == prefix + [id];
    RowIdsSnoc(prefix, id, stops);
    if HasRow(stops, id) {
      RowsSnoc(rows0, RowIds(prefix, stops), stops, results, RowFor(FindStop(stops, id).value, results, id), id);
    }
  }

  lemma RowsOfRows(rows: seq<StopRow>, all: seq<int>, stops: seq<ScenarioStop>, results: map<LevelKey, set<int>>)
    requires BuiltUpTo(rows, all, |all|, stops, results)
    ensures |rows| == |RowIds(all, stops)|
    ensures forall i :: 0 <= i < |rows| ==>
              var id := RowIds(all, stops)[i];
              IsRowOf(rows[i], FindStop(stops, id).value, results, id)
  {
    assert all[..|all|] == all;
  }

  /** `rows` are the rows of the first `i` ids of `all`. */
  predicate BuiltUpTo(rows: seq<StopRow>, all: seq<int>, i: int, stops: seq<ScenarioStop>, results: map<LevelKey, set<int>>)
  {
    0 <= i <= |all| && RowsOf(rows, RowIds(all[..i], stops), stops, results)
  }

  /** `rows` are the rows of the ids `ids`, one for one. */
  predicate RowsOf(rows: seq<StopRow>, ids: seq<int>, stops: seq<ScenarioStop>, results: map<LevelKey, set<int>>)
  {
    && |rows| == |ids|
    && forall j :: 0 <= j < |rows| ==>
         HasRow(stops, ids[j]) && IsRowOf(rows[j], FindStop(stops, ids[j]).value, results, ids[j])
  }

  lemma RowIdsSnoc(ids: seq<int>, id: int, stops: seq<ScenarioStop>)
    ensures RowIds(ids + [id], stops) == if HasRow(stops, id) then RowIds(ids, stops) + [id] else RowIds(ids, stops)
  {
    assert (ids + [id])[..|ids|] == ids;
  }

  lemma RowsSnoc(rows: seq<StopRow>, ids: seq<int>, stops: seq<ScenarioStop>, results: map<LevelKey, set<int>>, row: StopRow, id: int)
    requires RowsOf(rows, ids, stops, results) && HasRow(stops, id)
    requires IsRowOf(row, FindStop(stops, id).value, results, id)
    ensures RowsOf(rows + [row], ids + [id], stops, results)
  {
    var rs := rows + [row];
    var ks := ids + [id];
    forall j | 0 <= j < |rs|
      ensures HasRow(stops, ks[j]) && IsRowOf(rs[j], FindStop(stops, ks[j]).value, results, ks[j])
    {
      if j < |rows| {
        assert rs[j] == rows[j] && ks[j] == ids[j];
      }
    }
  }

  /** The level loop of `WSDOTReportFetcher.fetch`: every level of the table with its stops. */
  method ProcessLevels(weekday: FrequencyData, weekend: FrequencyData) returns (results: map<LevelKey, set<int>>)
    ensures forall k :: k in results && results[k] == LevelStops(ServiceLevel(k), weekday, weekend)
  {
    results := map[];
    var n := 0;
    while n < |LevelOrder|
      invariant 0 <= n <= |LevelOrder|
      invariant forall k :: k in results <==> k in LevelOrder[..n]
      invariant forall k :: k in results ==> results[k] == LevelStops(ServiceLevel(k), weekday, weekend)
    {
      var levelKey := LevelOrder[n];
      var qualifyingStops := ProcessServiceLevel(ServiceLevel(levelKey), weekday, weekend);
      results := results[levelKey := qualifyingStops];
      n := n + 1;
    }
    assert LevelOrder[..n] == LevelOrder;
    forall k ensures k in LevelOrder {
      match k
      case Level1 => assert LevelOrder[0] == k;
      case Level2 => assert LevelOrder[1] == k;
      case Level3 => assert LevelOrder[2] == k;
      case Level4 => assert LevelOrder[3] == k;
      case Level5 => assert LevelOrder[4] == k;
      case Level6 => assert LevelOrder[5] == k;
      case LevelNights => assert LevelOrder[6] == k;
    }
  }

  /**
   * `WSDOTReportFetcher.fetch` without the census layers: the frequency data
   * of both days, each level's stops in table order, and the rows of the
   * stops of either day's map.
   */
  method Fetch(stops: seq<ScenarioStop>, cache: DC.StopDates, weekdayDate: Calendar.Date, weekendDate: Calendar.Date)
    returns (report: Report)
    ensures var weekday := FrequencyOf(stops, cache, Calendar.FmtDate(weekdayDate));
            var weekend := FrequencyOf(stops, cache, Calendar.FmtDate(weekendDate));
            && (forall k :: k in report.levelStops && report.levelStops[k] == LevelStops(ServiceLevel(k), weekday, weekend))
            && var ids := RowIds(Dedup(weekday.stopOrder + weekend.stopOrder), stops);
               && |report.stops| == |ids|
               && forall i :: 0 <= i < |ids| ==> IsRowOf(report.stops[i], FindStop(stops, ids[i]).value, report.levelStops, ids[i])
  {
    var weekdayFreq := ExtractFrequencyData(stops, cache, weekdayDate);
    var weekendFreq := ExtractFrequencyData(stops, cache, weekendDate);
    var results := ProcessLevels(weekdayFreq, weekendFreq);
    var allStopIds := Dedup(weekdayFreq.stopOrder + weekendFreq.stopOrder);
    var rows := BuildRows(allStopIds, stops, results);
    report := Report(rows, results);
  }

  /**
   * The report has exactly one row per stop id of either day's map whose
   * first listed stop has a geometry.
   */
  lemma ReportRowIds(stops: seq<ScenarioStop>, cache: DC.StopDates, weekdayDate: string, weekendDate: string, id: int)
    ensures var weekday := FrequencyOf(stops, cache, weekdayDate);
            var weekend := FrequencyOf(stops, cache, weekendDate);
            var ids := RowIds(Dedup(weekday.stopOrder + weekend.stopOrder), stops);
            && Distinct(ids)
            && (id in ids <==> (id in weekday.stops || id in weekend.stops) && HasRow(stops, id))
  {
    var weekday := FrequencyOf(stops, cache, weekdayDate);
    var weekend := FrequencyOf(stops, cache, weekendDate);
    assert id in weekday.stopOrder + weekend.stopOrder <==> id in weekday.stopOrder || id in weekend.stopOrder;
  }
}
