/**
 * The stops/routes/agencies view built from a WSDOT report
 * (`processWsdotStopsRoutesReport` in src/analysis/wsdot-stops-routes/index.ts).
 *
 * Scenario stops and routes keep only the fields the view reads; a
 * JavaScript value that may be missing or empty is an `Option<string>`,
 * and `x || d` takes `d` for `None` and for `Some("")`.
 */
module WsdotStopsRoutes {
  import opened Wrappers
  import Wsdot

  datatype Agency = Agency(agencyId: Option<string>, agencyName: Option<string>)

  /** A scenario stop: its id, the agency of each of its `route_stops`, and its feed. */
  datatype StopIn = StopIn(
    stopId: string, stopName: Option<string>, geometry: Option<Wsdot.Point>,
    routeStopAgencies: seq<Option<Agency>>, feedOnestopId: Option<string>, feedVersionSha1: Option<string>)

  datatype RouteIn = RouteIn(
    routeId: string, agency: Option<Agency>, feedOnestopId: Option<string>, feedVersionSha1: Option<string>)

  /** `WSDOTStopResult` without the fields copied through unchanged. */
  datatype StopResult = StopResult(
    stopId: string, stopName: string, stopLon: real, stopLat: real,
    level6: int, level5: int, level4: int, level3: int, level2: int, level1: int, levelNights: int,
    agencyId: string, feedOnestopId: string, feedVersionSha1: string)

  datatype RouteResult = RouteResult(routeId: string, agencyId: string, feedOnestopId: string, feedVersionSha1: string)

  datatype AgencyResult = AgencyResult(agencyId: string, agencyName: string, feedOnestopId: string,
                                       stopsCount: nat, routesCount: nat)

  datatype StopsRoutesReport = StopsRoutesReport(stops: seq<StopResult>, routes: seq<RouteResult>, agencies: seq<AgencyResult>)

  /** The level flags of one report row. */
  datatype Levels = Levels(level6: bool, level5: bool, level4: bool, level3: bool, level2: bool, level1: bool, levelNights: bool)

  function LevelsOf(row: Wsdot.StopRow): Levels
  {
    Levels(row.level6, row.level5, row.level4, row.level3, row.level2, row.level1, row.levelNights)
  }

  // ---------------------------------------------------------------------
  // The level lookup

  /** The lookup map after `set`ting the rows in order: a later row overwrites. */
  function LevelLookup(rows: seq<Wsdot.StopRow>): (m: map<string, Levels>)
    ensures forall id :: id in m <==> exists i :: 0 <= i < |rows| && rows[i].stopId == id
  {
    if rows == [] then map[]
    else
      var last := rows[|rows| - 1];
      var m := LevelLookup(rows[..|rows| - 1]);
      assert forall i :: 0 <= i < |rows| - 1 ==> rows[..|rows| - 1][i] == rows[i];
      m[last.stopId := LevelsOf(last)]
  }

  /** The row a stop id looks up is the last row with that id. */
  lemma {:induction false} LevelLookupLast(rows: seq<Wsdot.StopRow>, i: nat)
    requires i < |rows|
    requires forall j :: i < j < |rows| ==> rows[j].stopId != rows[i].stopId
    ensures LevelLookup(rows)[rows[i].stopId] == LevelsOf(rows[i])
  {
    if i < |rows| - 1 {
      var front := rows[..|rows| - 1];
      forall j | i < j < |front| ensures front[j].stopId != front[i].stopId {
        assert front[j] == rows[j];
      }
      LevelLookupLast(front, i);
      assert front[i] == rows[i];
    }
  }

  /** The loop filling `wsdotServiceLevels`. */
  method BuildLevelLookup(rows: seq<Wsdot.StopRow>) returns (m: map<string, Levels>)
    ensures m == LevelLookup(rows)
  {
    m := map[];
    for i := 0 to |rows|
      invariant m == LevelLookup(rows[..i])
    {
      assert rows[..i + 1][..i] == rows[..i];
      m := m[rows[i].stopId := LevelsOf(rows[i])];
    }
    assert rows[..|rows|] == rows;
  }

  function Flag(b: bool): int
  {
    if b then 1 else 0
  }

  // ---------------------------------------------------------------------
  // Agency keys

  /** The agency of a stop: that of its first `route_stops` entry. */
  function StopAgency(s: StopIn): Option<Agency>
  {
    if |s.routeStopAgencies| > 0 then s.routeStopAgencies[0] else None
  }

  function AgencyIdOf(a: Option<Agency>): Option<string>
  {
    if a.Some? then a.value.agencyId else None
  }

  function AgencyNameOf(a: Option<Agency>): Option<string>
  {
    if a.Some? then a.value.agencyName else None
  }

  /** `${feedOnestopId || 'unknown'}:${agencyId || 'null'}` */
  function UniqueAgencyId(a: Option<Agency>, feedOnestopId: Option<string>): string
  {
    OrElse(feedOnestopId, "unknown") + ":" + OrElse(AgencyIdOf(a), "null")
  }

  /** `agencyName || (agencyId ? agencyId : 'No Agency Info')` */
  function EffectiveAgencyName(a: Option<Agency>): string
  {
    if Truthy(AgencyNameOf(a)) then AgencyNameOf(a).value
    else if Truthy(AgencyIdOf(a)) then AgencyIdOf(a).value
    else "No Agency Info"
  }

  /** One contribution to the agency map: a kept stop or a route. */
  datatype Item = Item(key: string, name: string, feedOnestopId: string, isStop: bool)

  function StopItem(s: StopIn): Item
  {
    Item(UniqueAgencyId(StopAgency(s), s.feedOnestopId), EffectiveAgencyName(StopAgency(s)),
         OrElse(s.feedOnestopId, "unknown"), true)
  }

  function RouteItem(r: RouteIn): Item
  {
    Item(UniqueAgencyId(r.agency, r.feedOnestopId), EffectiveAgencyName(r.agency),
         OrElse(r.feedOnestopId, "unknown"), false)
  }

  /** The agency map after one more stop or route: created on first sight, then counted. */
  function Counted(m: map<string, AgencyResult>, it: Item): map<string, AgencyResult>
  {
    var m' := if it.key in m then m else m[it.key := AgencyResult(it.key, it.name, it.feedOnestopId, 0, 0)];
    var e := m'[it.key];
    m'[it.key := if it.isStop then e.(stopsCount := e.stopsCount + 1) else e.(routesCount := e.routesCount + 1)]
  }

  function AgencyMap(items: seq<Item>): map<string, AgencyResult>
  {
    if items == [] then map[] else Counted(AgencyMap(items[..|items| - 1]), items[|items| - 1])
  }

  /** The keys in first-seen order. */
  function KeyOrder(items: seq<Item>): (ks: seq<string>)
    ensures forall i, j :: 0 <= i < j < |ks| ==> ks[i] != ks[j]
    ensures forall k :: k in ks <==> k in AgencyMap(items)
  {
    if items == [] then []
    else
      var ks := KeyOrder(items[..|items| - 1]);
      var k := items[|items| - 1].key;
      if k in ks then ks else ks + [k]
  }

  // ---------------------------------------------------------------------
  // What the agency table says

  function CountStops(items: seq<Item>, key: string): nat
  {
    if items == [] then 0
    else CountStops(items[..|items| - 1], key)
         + (if items[|items| - 1].key == key && items[|items| - 1].isStop then 1 else 0)
  }

  function CountRoutes(items: seq<Item>, key: string): nat
  {
    if items == [] then 0
    else CountRoutes(items[..|items| - 1], key)
         + (if items[|items| - 1].key == key && !items[|items| - 1].isStop then 1 else 0)
  }

  /** The first item with the key. */
  function FirstWith(items: seq<Item>, key: string): (it: Item)
    requires exists i :: 0 <= i < |items| && items[i].key == key
    ensures it in items && it.key == key
  {
    if items[0].key == key then items[0]
    else
      assert exists i :: 0 <= i < |items[1..]| && items[1..][i].key == key by {
        var i :| 0 <= i < |items| && items[i].key == key;
        assert items[1..][i - 1] == items[i];
      }
      FirstWith(items[1..], key)
  }

  lemma FirstWithSnoc(items: seq<Item>, it: Item, key: string)
    requires exists i :: 0 <= i < |items| && items[i].key == key
    ensures exists i :: 0 <= i < |items + [it]| && (items + [it])[i].key == key
    ensures FirstWith(items + [it], key) == FirstWith(items, key)
  {
    var i :| 0 <= i < |items| && items[i].key == key;
    assert (items + [it])[i] == items[i];
    if items[0].key != key {
      assert (items + [it])[1..] == items[1..] + [it];
      assert items[1..][i - 1] == items[i];
      FirstWithSnoc(items[1..], it, key);
    }
  }

  /**
   * Each agency entry carries the name and feed of the first stop or route
   * that produced its key, and counts exactly the stops and the routes
   * with that key.
   */
  lemma {:induction false} AgencyEntry(items: seq<Item>, key: string)
    requires key in AgencyMap(items)
    ensures exists i :: 0 <= i < |items| && items[i].key == key
    ensures AgencyMap(items)[key] == AgencyResult(key, FirstWith(items, key).name,
      FirstWith(items, key).feedOnestopId, CountStops(items, key), CountRoutes(items, key))
  {
    var front, it := items[..|items| - 1], items[|items| - 1];
    assert items == front + [it];
    if key in AgencyMap(front) {
      AgencyEntry(front, key);
      FirstWithSnoc(front, it, key);
    } else {
      assert it.key == key;
      AbsentCounts(front, key);
      assert items[|items| - 1].key == key;
      FirstWithNew(front, it);
    }
  }

  lemma {:induction false} AbsentCounts(items: seq<Item>, key: string)
    requires key !in AgencyMap(items)
    ensures CountStops(items, key) == 0 && CountRoutes(items, key) == 0
    ensures forall i :: 0 <= i < |items| ==> items[i].key != key
  {
    if items != [] {
      var front := items[..|items| - 1];
      assert key !in AgencyMap(front);
      AbsentCounts(front, key);
      assert forall i :: 0 <= i < |front| ==> front[i] == items[i];
    }
  }

  lemma FirstWithNew(items: seq<Item>, it: Item)
    requires forall i :: 0 <= i < |items| ==> items[i].key != it.key
    ensures exists i :: 0 <= i < |items + [it]| && (items + [it])[i].key == it.key
    ensures FirstWith(items + [it], it.key) == it
  {
    assert (items + [it])[|items|] == it;
    if items != [] {
      assert (items + [it])[1..] == items[1..] + [it];
      FirstWithNew(items[1..], it);
    }
  }

  function SumStops(m: map<string, AgencyResult>, ks: seq<string>): nat
    requires forall k :: k in ks ==> k in m
  {
    if ks == [] then 0 else SumStops(m, ks[..|ks| - 1]) + m[ks[|ks| - 1]].stopsCount
  }

  function SumRoutes(m: map<string, AgencyResult>, ks: seq<string>): nat
    requires forall k :: k in ks ==> k in m
  {
    if ks == [] then 0 else SumRoutes(m, ks[..|ks| - 1]) + m[ks[|ks| - 1]].routesCount
  }

  function NumStops(items: seq<Item>): nat
  {
    if items == [] then 0 else NumStops(items[..|items| - 1]) + (if items[|items| - 1].isStop then 1 else 0)
  }

  /** Changing one listed entry by `d` changes the sums over a duplicate-free key list by `d`. */
  lemma {:induction false} SumsBump(m: map<string, AgencyResult>, m': map<string, AgencyResult>, ks: seq<string>, key: string)
    requires forall k :: k in ks ==> k in m && k in m'
    requires forall i, j :: 0 <= i < j < |ks| ==> ks[i] != ks[j]
    requires forall k :: k in ks && k != key ==> m'[k] == m[k]
    requires key in ks
    ensures SumStops(m', ks) - m'[key].stopsCount == SumStops(m, ks) - m[key].stopsCount
    ensures SumRoutes(m', ks) - m'[key].routesCount == SumRoutes(m, ks) - m[key].routesCount
  {
    var front, last := ks[..|ks| - 1], ks[|ks| - 1];
    if last == key {
      assert key !in front by {
        forall i | 0 <= i < |front| ensures front[i] != key {
          assert front[i] == ks[i];
        }
      }
      SumsUnchanged(m, m', front);
    } else {
      assert key in front;
      forall i, j | 0 <= i < j < |front| ensures front[i] != front[j] {
        assert front[i] == ks[i] && front[j] == ks[j];
      }
      SumsBump(m, m', front, key);
    }
  }

  lemma {:induction false} SumsUnchanged(m: map<string, AgencyResult>, m': map<string, AgencyResult>, ks: seq<string>)
    requires forall k :: k in ks ==> k in m && k in m' && m'[k] == m[k]
    ensures SumStops(m', ks) == SumStops(m, ks) && SumRoutes(m', ks) == SumRoutes(m, ks)
  {
    if ks != [] {
      SumsUnchanged(m, m', ks[..|ks| - 1]);
    }
  }

  /** The stop counts add up to the number of kept stops, the route counts to the number of routes. */
  lemma {:induction false} CountsAddUp(items: seq<Item>)
    ensures SumStops(AgencyMap(items), KeyOrder(items)) == NumStops(items)
    ensures SumRoutes(AgencyMap(items), KeyOrder(items)) == |items| - NumStops(items)
  {
    if items != [] {
      var front, it := items[..|items| - 1], items[|items| - 1];
      CountsAddUp(front);
      var m, ks := AgencyMap(front), KeyOrder(front);
      var m', ks' := AgencyMap(items), KeyOrder(items);
      if it.key in m {
        SumsBump(m, m', ks, it.key);
      } else {
        SumsUnchanged(m, m', ks);
        assert ks' == ks + [it.key];
        assert ks'[..|ks'| - 1] == ks;
      }
    }
  }

  // ---------------------------------------------------------------------
  // processWsdotStopsRoutesReport

  predicate HasRoutes(s: StopIn)
  {
    |s.routeStopAgencies| > 0
  }

  function Kept(stops: seq<StopIn>): (r: seq<StopIn>)
    ensures forall s :: s in r <==> s in stops && HasRoutes(s)
  {
    if stops == [] then []
    else
      var rest := Kept(stops[..|stops| - 1]);
      var s := stops[|stops| - 1];
      assert forall x :: x in stops <==> x in stops[..|stops| - 1] || x == s;
      if HasRoutes(s) then rest + [s] else rest
  }

  function StopItems(kept: seq<StopIn>): (items: seq<Item>)
    ensures |items| == |kept| && forall i :: 0 <= i < |kept| ==> items[i] == StopItem(kept[i])
  {
    seq(|kept|, i requires 0 <= i < |kept| => StopItem(kept[i]))
  }

  function RouteItems(routes: seq<RouteIn>): (items: seq<Item>)
    ensures |items| == |routes| && forall i :: 0 <= i < |routes| ==> items[i] == RouteItem(routes[i])
  {
    seq(|routes|, i requires 0 <= i < |routes| => RouteItem(routes[i]))
  }

  lemma RouteItemsSnoc(routes: seq<RouteIn>, i: nat)
    requires i < |routes|
    ensures RouteItems(routes[..i + 1]) == RouteItems(routes[..i]) + [RouteItem(routes[i])]
    ensures RouteResults(routes[..i + 1]) == RouteResults(routes[..i]) + [RouteResultOf(routes[i])]
  {
  }

  /** What the agency map sees: the kept stops, then the routes. */
  function Items(kept: seq<StopIn>, routes: seq<RouteIn>): (items: seq<Item>)
    ensures |items| == |kept| + |routes|
  {
    StopItems(kept) + RouteItems(routes)
  }

  function StopResultOf(s: StopIn, lookup: map<string, Levels>): StopResult
  {
    var levels := if s.stopId in lookup then Some(lookup[s.stopId]) else None;
    var a := StopAgency(s);
    StopResult(
      s.stopId, OrElse(s.stopName, ""),
      if s.geometry.Some? then s.geometry.value.lon else 0.0,
      if s.geometry.Some? then s.geometry.value.lat else 0.0,
      Flag(levels.Some? && levels.value.level6), Flag(levels.Some? && levels.value.level5),
      Flag(levels.Some? && levels.value.level4), Flag(levels.Some? && levels.value.level3),
      Flag(levels.Some? && levels.value.level2), Flag(levels.Some? && levels.value.level1),
      Flag(levels.Some? && levels.value.levelNights),
      UniqueAgencyId(a, s.feedOnestopId), OrElse(s.feedOnestopId, "unknown"), OrElse(s.feedVersionSha1, "unknown"))
  }

  function RouteResultOf(r: RouteIn): RouteResult
  {
    RouteResult(r.routeId, UniqueAgencyId(r.agency, r.feedOnestopId),
                OrElse(r.feedOnestopId, "unknown"), OrElse(r.feedVersionSha1, "unknown"))
  }

  function StopResults(kept: seq<StopIn>, lookup: map<string, Levels>): (r: seq<StopResult>)
    ensures |r| == |kept| && forall i :: 0 <= i < |kept| ==> r[i] == StopResultOf(kept[i], lookup)
  {
    seq(|kept|, i requires 0 <= i < |kept| => StopResultOf(kept[i], lookup))
  }

  lemma StopItemsSnoc(kept: seq<StopIn>, lookup: map<string, Levels>, i: nat)
    requires i < |kept|
    ensures StopItems(kept[..i + 1]) == StopItems(kept[..i]) + [StopItem(kept[i])]
    ensures StopResults(kept[..i + 1], lookup) == StopResults(kept[..i], lookup) + [StopResultOf(kept[i], lookup)]
  {
  }

  function RouteResults(routes: seq<RouteIn>): (r: seq<RouteResult>)
    ensures |r| == |routes| && forall i :: 0 <= i < |routes| ==> r[i] == RouteResultOf(routes[i])
  {
    seq(|routes|, i requires 0 <= i < |routes| => RouteResultOf(routes[i]))
  }

  function AgencyList(m: map<string, AgencyResult>, ks: seq<string>): (r: seq<AgencyResult>)
    requires forall k :: k in ks ==> k in m
    ensures |r| == |ks| && forall i :: 0 <= i < |ks| ==> r[i] == m[ks[i]]
  {
    seq(|ks|, i requires 0 <= i < |ks| => m[ks[i]])
  }

  /** The body of either map callback on the agency map: create the entry if new, then count. */
  method CountAgency(agencyMap: map<string, AgencyResult>, order: seq<string>, ghost items: seq<Item>, it: Item)
    returns (agencyMap': map<string, AgencyResult>, order': seq<string>)
    requires agencyMap == AgencyMap(items) && order == KeyOrder(items)
    ensures agencyMap' == AgencyMap(items + [it])
    ensures order' == KeyOrder(items + [it])
  {
    var all := items + [it];
    assert all[..|all| - 1] == items;
    agencyMap', order' := agencyMap, order;
    if it.key !in agencyMap' {
      agencyMap' := agencyMap'[it.key := AgencyResult(it.key, it.name, it.feedOnestopId, 0, 0)];
      order' := order' + [it.key];
    }
    var e := agencyMap'[it.key];
    if it.isStop {
      agencyMap' := agencyMap'[it.key := e.(stopsCount := e.stopsCount + 1)];
    } else {
      agencyMap' := agencyMap'[it.key := e.(routesCount := e.routesCount + 1)];
    }
  }

  /** The `.map` over the kept stops. */
  method MapStops(kept: seq<StopIn>, lookup: map<string, Levels>)
    returns (stopResults: seq<StopResult>, agencyMap: map<string, AgencyResult>, order: seq<string>)
    ensures agencyMap == AgencyMap(StopItems(kept)) && order == KeyOrder(StopItems(kept))
    ensures stopResults == StopResults(kept, lookup)
  {
    ghost var seen: seq<Item> := [];
    agencyMap, order, stopResults := map[], [], [];
    for i := 0 to |kept|
      invariant seen == StopItems(kept[..i])
      invariant agencyMap == AgencyMap(seen) && order == KeyOrder(seen)
      invariant stopResults == StopResults(kept[..i], lookup)
    {
      StopItemsSnoc(kept, lookup, i);
      agencyMap, order := CountAgency(agencyMap, order, seen, StopItem(kept[i]));
      seen := seen + [StopItem(kept[i])];
      stopResults := stopResults + [StopResultOf(kept[i], lookup)];
    }
    assert kept[..|kept|] == kept;
  }

  /** The `.map` over the routes, continuing the agency map of the stops. */
  method MapRoutes(routes: seq<RouteIn>, agencyMap: map<string, AgencyResult>, order: seq<string>, ghost before: seq<Item>)
    returns (routeResults: seq<RouteResult>, agencyMap': map<string, AgencyResult>, order': seq<string>)
    requires agencyMap == AgencyMap(before) && order == KeyOrder(before)
    ensures agencyMap' == AgencyMap(before + RouteItems(routes)) && order' == KeyOrder(before + RouteItems(routes))
    ensures routeResults == RouteResults(routes)
  {
    ghost var seen := before;
    agencyMap', order', routeResults := agencyMap, order, [];
    for i := 0 to |routes|
      invariant seen == before + RouteItems(routes[..i])
      invariant agencyMap' == AgencyMap(seen) && order' == KeyOrder(seen)
      invariant routeResults == RouteResults(routes[..i])
    {
      RouteItemsSnoc(routes, i);
      agencyMap', order' := CountAgency(agencyMap', order', seen, RouteItem(routes[i]));
      seen := seen + [RouteItem(routes[i])];
      routeResults := routeResults + [RouteResultOf(routes[i])];
    }
    assert routes[..|routes|] == routes;
  }

  /**
   * `processWsdotStopsRoutesReport`: the stops with at least one
   * `route_stops` entry in order, every route in order, and the agency
   * table in first-seen order, with the level flags read from the report.
   */
  method ProcessWsdotStopsRoutesReport(stops: seq<StopIn>, routes: seq<RouteIn>, report: seq<Wsdot.StopRow>)
    returns (out: StopsRoutesReport)
    ensures |out.stops| == |Kept(stops)|
    ensures forall i :: 0 <= i < |out.stops| ==> out.stops[i] == StopResultOf(Kept(stops)[i], LevelLookup(report))
    ensures out.routes == RouteResults(routes)
    ensures out.agencies == AgencyList(AgencyMap(Items(Kept(stops), routes)), KeyOrder(Items(Kept(stops), routes)))
  {
    var lookup := BuildLevelLookup(report);
    var kept := Kept(stops);
    var stopResults, agencyMap, order := MapStops(kept, lookup);
    var routeResults;
    routeResults, agencyMap, order := MapRoutes(routes, agencyMap, order, StopItems(kept));
    assert StopItems(kept) + RouteItems(routes) == Items(kept, routes);
    out := StopsRoutesReport(stopResults, routeResults, AgencyList(agencyMap, order));
  }

  lemma {:induction false} NumStopsAppend(a: seq<Item>, b: seq<Item>)
    ensures NumStops(a + b) == NumStops(a) + NumStops(b)
  {
    if b != [] {
      NumStopsAppend(a, b[..|b| - 1]);
      assert (a + b)[..|a + b| - 1] == a + b[..|b| - 1];
    } else {
      assert a + b == a;
    }
  }

  lemma {:induction false} NumStopsAll(items: seq<Item>, isStop: bool)
    requires forall i :: 0 <= i < |items| ==> items[i].isStop == isStop
    ensures NumStops(items) == if isStop then |items| else 0
  {
    if items != [] {
      NumStopsAll(items[..|items| - 1], isStop);
    }
  }

  /**
   * Over the agency table, the stop counts add up to the number of stops
   * kept and the route counts to the number of routes.
   */
  lemma AgencyTotals(stops: seq<StopIn>, routes: seq<RouteIn>)
    ensures SumStops(AgencyMap(Items(Kept(stops), routes)), KeyOrder(Items(Kept(stops), routes))) == |Kept(stops)|
    ensures SumRoutes(AgencyMap(Items(Kept(stops), routes)), KeyOrder(Items(Kept(stops), routes))) == |routes|
  {
    var kept := Kept(stops);
    CountsAddUp(Items(kept, routes));
    NumStopsAppend(StopItems(kept), RouteItems(routes));
    NumStopsAll(StopItems(kept), true);
    NumStopsAll(RouteItems(routes), false);
  }

  /** A stop's level columns are the flags of the last report row with its id. */
  lemma FlagsFromLastRow(s: StopIn, report: seq<Wsdot.StopRow>, i: nat)
    requires i < |report| && report[i].stopId == s.stopId
    requires forall j :: i < j < |report| ==> report[j].stopId != s.stopId
    ensures var r := StopResultOf(s, LevelLookup(report));
      r.level1 == Flag(report[i].level1) && r.level2 == Flag(report[i].level2)
      && r.level3 == Flag(report[i].level3) && r.level4 == Flag(report[i].level4)
      && r.level5 == Flag(report[i].level5) && r.level6 == Flag(report[i].level6)
      && r.levelNights == Flag(report[i].levelNights)
  {
    LevelLookupLast(report, i);
  }

  /** A stop with no report row gets 0 in every level column. */
  lemma NoRowNoFlags(s: StopIn, report: seq<Wsdot.StopRow>)
    requires forall j :: 0 <= j < |report| ==> report[j].stopId != s.stopId
    ensures var r := StopResultOf(s, LevelLookup(report));
      r.level1 == 0 && r.level2 == 0 && r.level3 == 0 && r.level4 == 0
      && r.level5 == 0 && r.level6 == 0 && r.levelNights == 0
  {
  }
}
