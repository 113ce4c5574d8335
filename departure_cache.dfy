/**
 * The departure store of src/tl/departure-cache.ts: a two-level
 * stop -> date -> departures cache, and the route inverted index built
 * from it (route|date -> stop -> departures, one index per direction).
 */
module DepartureCache {

  /** One scheduled departure at a stop (`StopTime`). */
  datatype StopTime = StopTime(departureTime: string, tripId: int, directionId: int, routeId: int)

  type StopDates = map<int, map<string, seq<StopTime>>>

  /** `cache.get(id)?.get(date) || []` on a stop -> date -> departures map. */
  function Lookup(m: StopDates, id: int, date: string): seq<StopTime>
  {
    if id in m && date in m[id] then m[id][date] else []
  }

  /** The map after appending `value` to the (id, date) list; empty `value` leaves it as it was. */
  function Appended(m: StopDates, id: int, date: string, value: seq<StopTime>): StopDates
  {
    if value == [] then m
    else
      var a := if id in m then m[id] else map[];
      var b := if date in a then a[date] else [];
      m[id := a[date := b + value]]
  }

  /** Appending extends exactly the (id, date) list, keeps its order, and leaves every other list alone. */
  lemma AppendedLookup(m: StopDates, id: int, date: string, value: seq<StopTime>, id': int, date': string)
    ensures Lookup(Appended(m, id, date, value), id', date') ==
      if id' == id && date' == date then Lookup(m, id, date) + value else Lookup(m, id', date')
  {
    if value == [] {
      assert Lookup(m, id, date) + value == Lookup(m, id, date);
    }
  }

  /** No stored list is empty: `add` never stores an empty list. */
  ghost predicate NoEmptyLists(m: StopDates)
  {
    forall id, date :: id in m && date in m[id] ==> m[id][date] != []
  }

  lemma {:induction false} AppendedKeepsNoEmptyLists(m: StopDates, id: int, date: string, value: seq<StopTime>)
    requires NoEmptyLists(m)
    ensures NoEmptyLists(Appended(m, id, date, value))
  {
    var m' := Appended(m, id, date, value);
    forall i, d | i in m' && d in m'[i]
      ensures m'[i][d] != []
    {
      if value != [] && i == id && d == date {
        assert |m'[i][d]| >= |value|;
      }
    }
  }

  class StopDepartureCache {
    var cache: StopDates

    ghost predicate Valid()
      reads this
    {
      NoEmptyLists(cache)
    }

    constructor ()
      ensures Valid() && cache == map[]
    {
      cache := map[];
    }

    /** `get(id, date)`: the departures stored for the stop on that date, or `[]`. */
    function Get(id: int, date: string): (r: seq<StopTime>)
      reads this
      ensures (id !in cache || date !in cache[id]) ==> r == []
      ensures id in cache && date in cache[id] ==> r == cache[id][date]
    {
      Lookup(cache, id, date)
    }

    /** `add(id, date, value)`: appends `value` to the (id, date) list unless it is empty. */
    method Add(id: int, date: string, value: seq<StopTime>)
      requires Valid()
      modifies this
      ensures Valid()
      ensures cache == Appended(old(cache), id, date, value)
      ensures Get(id, date) == old(Get(id, date)) + value
      ensures forall id', date' :: (id', date') != (id, date) ==> Lookup(cache, id', date') == Lookup(old(cache), id', date')
      ensures value == [] ==> cache == old(cache)
    {
      AppendedKeepsNoEmptyLists(cache, id, date, value);
      forall id', date' ensures Lookup(Appended(cache, id, date, value), id', date') ==
        if id' == id && date' == date then Lookup(cache, id, date) + value else Lookup(cache, id', date')
      {
        AppendedLookup(cache, id, date, value, id', date');
      }
      if |value| == 0 {
        return;
      }
      var a := if id in cache then cache[id] else map[];
      var b := if date in a then a[date] else [];
      b := b + value;
      a := a[date := b];
      cache := cache[id := a];
    }

    /** `hasService(id, date)`: whether any departure is stored for the stop on that date. */
    function HasService(id: int, date: string): (r: bool)
      reads this
      ensures r <==> Get(id, date) != []
    {
      if id !in cache then false
      else |if date in cache[id] then cache[id][date] else []| > 0
    }
  }

  /** The key `${routeId}|${date}` of the route index, as the pair it encodes. */
  datatype RouteDateKey = RouteDateKey(routeId: int, date: string)

  type RouteIndexMap = map<RouteDateKey, map<int, seq<StopTime>>>

  /** The departures the index holds for (route, date, stop), or `[]`. */
  function IndexLookup(c: RouteIndexMap, routeId: int, date: string, stopId: int): seq<StopTime>
  {
    var k := RouteDateKey(routeId, date);
    if k in c && stopId in c[k] then c[k][stopId] else []
  }

  /** Which of the two direction caches a direction id selects: `directionId ? cache1 : cache0`. */
  predicate IsDirection1(directionId: int)
  {
    directionId != 0
  }

  /** The departures of `s` on the given route whose direction selects the given cache. */
  function OnRouteDirection(s: seq<StopTime>, routeId: int, dir1: bool): (r: seq<StopTime>)
    ensures |r| <= |s|
    ensures forall x :: x in r ==> x in s && x.routeId == routeId && IsDirection1(x.directionId) == dir1
  {
    if s == [] then []
    else
      var rest := OnRouteDirection(s[..|s| - 1], routeId, dir1);
      var x := s[|s| - 1];
      if x.routeId == routeId && IsDirection1(x.directionId) == dir1 then rest + [x] else rest
  }

  /** Appending one departure extends its own route/direction view by it and no other view. */
  lemma OnRouteDirectionSnoc(s: seq<StopTime>, x: StopTime, routeId: int, dir1: bool)
    ensures OnRouteDirection(s + [x], routeId, dir1) ==
      OnRouteDirection(s, routeId, dir1) + (if x.routeId == routeId && IsDirection1(x.directionId) == dir1 then [x] else [])
  {
    assert (s + [x])[..|s + [x]| - 1] == s;
  }

  /** Every departure of `s` lands in exactly one of the two direction views of its own route. */
  lemma {:induction false} DirectionsPartition(s: seq<StopTime>, routeId: int)
    ensures |OnRouteDirection(s, routeId, false)| + |OnRouteDirection(s, routeId, true)| == |RouteIndices(s, routeId)|
  {
    if s != [] {
      var p := s[..|s| - 1];
      DirectionsPartition(p, routeId);
      RouteIndicesSnoc(s, routeId);
      OnRouteDirectionSnocLast(s, routeId);
    }
  }

  /** The last departure goes to exactly one direction view when it is on the route, to none otherwise. */
  lemma OnRouteDirectionSnocLast(s: seq<StopTime>, routeId: int)
    requires s != []
    ensures var p := s[..|s| - 1];
      |OnRouteDirection(s, routeId, false)| + |OnRouteDirection(s, routeId, true)| ==
      |OnRouteDirection(p, routeId, false)| + |OnRouteDirection(p, routeId, true)| + (if s[|s| - 1].routeId == routeId then 1 else 0)
  {
  }

  /** The positions of `s` on route `routeId`. */
  ghost function RouteIndices(s: seq<StopTime>, routeId: int): set<int>
  {
    set i | 0 <= i < |s| && s[i].routeId == routeId
  }

  lemma RouteIndicesSnoc(s: seq<StopTime>, routeId: int)
    requires s != []
    ensures |RouteIndices(s, routeId)| ==
      |RouteIndices(s[..|s| - 1], routeId)| + (if s[|s| - 1].routeId == routeId then 1 else 0)
  {
    var p, n := s[..|s| - 1], |s| - 1;
    var sp, ss := RouteIndices(p, routeId), RouteIndices(s, routeId);
    var extra: set<int> := if s[n].routeId == routeId then {n} else {};
    forall i
      ensures i in ss <==> i in sp + extra
    {
      if 0 <= i < n {
        assert s[i] == p[i];
      }
    }
    assert ss == sp + extra;
    assert n !in sp;
  }

  /** The index map after appending `st` under (route|date, stop). */
  function IndexAppended(c: RouteIndexMap, routeId: int, date: string, stopId: int, st: StopTime): RouteIndexMap
  {
    var key := RouteDateKey(routeId, date);
    var a := if key in c then c[key] else map[];
    var b := if stopId in a then a[stopId] else [];
    c[key := a[stopId := b + [st]]]
  }

  lemma IndexAppendedLookup(c: RouteIndexMap, routeId: int, date: string, stopId: int, st: StopTime, r: int, d: string, s: int)
    ensures IndexLookup(IndexAppended(c, routeId, date, stopId, st), r, d, s) ==
      IndexLookup(c, r, d, s) + (if (r, d, s) == (routeId, date, stopId) then [st] else [])
  {
    if (r, d, s) != (routeId, date, stopId) {
      assert IndexLookup(c, r, d, s) + [] == IndexLookup(c, r, d, s);
    }
  }

  /** `c` is `o` with the direction-`dir1` departures of `prefix` appended under (route|date, stop) for `stopId` on `date`. */
  ghost predicate IndexedAfter(c: RouteIndexMap, o: RouteIndexMap, stopId: int, date: string, prefix: seq<StopTime>, dir1: bool)
  {
    forall r, d, s ::
      IndexLookup(c, r, d, s) ==
        IndexLookup(o, r, d, s) + (if s == stopId && d == date then OnRouteDirection(prefix, r, dir1) else [])
  }

  /** One step of the innermost `fromCache` loop, for one direction cache. */
  lemma IndexStep(o: RouteIndexMap, c: RouteIndexMap, c': RouteIndexMap, stopId: int, date: string,
                  prefix: seq<StopTime>, st: StopTime, dir1: bool)
    requires IndexedAfter(c, o, stopId, date, prefix, dir1)
    requires c' == if IsDirection1(st.directionId) == dir1 then IndexAppended(c, st.routeId, date, stopId, st) else c
    ensures IndexedAfter(c', o, stopId, date, prefix + [st], dir1)
  {
    forall r, d, s
      ensures IndexLookup(c', r, d, s) ==
                IndexLookup(o, r, d, s) + (if s == stopId && d == date then OnRouteDirection(prefix + [st], r, dir1) else [])
    {
      IndexStepAt(o, c, c', stopId, date, prefix, st, dir1, r, d, s);
    }
  }

  /** `IndexStep` at one (route, date, stop) key. */
  lemma IndexStepAt(o: RouteIndexMap, c: RouteIndexMap, c': RouteIndexMap, stopId: int, date: string,
                    prefix: seq<StopTime>, st: StopTime, dir1: bool, r: int, d: string, s: int)
    requires IndexLookup(c, r, d, s) ==
               IndexLookup(o, r, d, s) + (if s == stopId && d == date then OnRouteDirection(prefix, r, dir1) else [])
    requires c' == if IsDirection1(st.directionId) == dir1 then IndexAppended(c, st.routeId, date, stopId, st) else c
    ensures IndexLookup(c', r, d, s) ==
              IndexLookup(o, r, d, s) + (if s == stopId && d == date then OnRouteDirection(prefix + [st], r, dir1) else [])
  {
    var before := IndexLookup(c, r, d, s);
    var extra := if IsDirection1(st.directionId) == dir1 && (r, d, s) == (st.routeId, date, stopId) then [st] else [];
    assert IndexLookup(c', r, d, s) == before + extra by {
      if IsDirection1(st.directionId) == dir1 {
        IndexAppendedLookup(c, st.routeId, date, stopId, st, r, d, s);
      } else {
        assert before + [] == before;
      }
    }
    if s == stopId && d == date {
      OnRouteDirectionSnoc(prefix, st, r, dir1);
      var old0 := IndexLookup(o, r, d, s);
      assert before + extra == old0 + (OnRouteDirection(prefix, r, dir1) + extra);
    } else {
      assert before + [] == before;
    }
  }

  ghost predicate NoEmptyEntries(c: RouteIndexMap)
  {
    forall k, s :: k in c && s in c[k] ==> c[k][s] != []
  }

  class RouteDepartureIndex {
    var cache0: RouteIndexMap
    var cache1: RouteIndexMap

    ghost predicate Valid()
      reads this
    {
      NoEmptyEntries(cache0) && NoEmptyEntries(cache1)
    }

    constructor ()
      ensures Valid() && cache0 == map[] && cache1 == map[]
    {
      cache0 := map[];
      cache1 := map[];
    }

    function Cache(dir1: bool): RouteIndexMap
      reads this
    {
      if dir1 then cache1 else cache0
    }

    /** `add(...)`: appends one departure under (route|date, stop) of its direction's cache. */
    method Add(routeId: int, stopId: int, date: string, directionId: int, st: StopTime)
      requires Valid()
      modifies this
      ensures Valid()
      ensures IsDirection1(directionId) ==> cache1 == IndexAppended(old(cache1), routeId, date, stopId, st) && cache0 == old(cache0)
      ensures !IsDirection1(directionId) ==> cache0 == IndexAppended(old(cache0), routeId, date, stopId, st) && cache1 == old(cache1)
    {
      var key := RouteDateKey(routeId, date);
      var c := if IsDirection1(directionId) then cache1 else cache0;
      var a := if key in c then c[key] else map[];
      var b := if stopId in a then a[stopId] else [];
      b := b + [st];
      a := a[stopId := b];
      c := c[key := a];
      if IsDirection1(directionId) {
        cache1 := c;
      } else {
        cache0 := c;
      }
    }

    /**
     * `RouteDepartureIndex.fromCache(sdCache)`: every departure of the cache,
     * indexed once under its route and date, in its direction's cache, under
     * its stop, in the order the stop's list holds it.
     */
    static method FromCache(sd: StopDepartureCache) returns (index: RouteDepartureIndex)
      ensures fresh(index) && index.Valid()
      ensures forall r, d, s :: IndexLookup(index.cache0, r, d, s) == OnRouteDirection(Lookup(sd.cache, s, d), r, false)
      ensures forall r, d, s :: IndexLookup(index.cache1, r, d, s) == OnRouteDirection(Lookup(sd.cache, s, d), r, true)
    {
      index := new RouteDepartureIndex();
      var c := sd.cache;
      var stops := c.Keys;
      ghost var doneStops: set<int> := {};
      while stops != {}
        invariant index.Valid()
        invariant stops !! doneStops && stops + doneStops == c.Keys
        invariant forall r, d, s ::
                    IndexLookup(index.cache0, r, d, s) == (if s in doneStops then OnRouteDirection(Lookup(c, s, d), r, false) else [])
        invariant forall r, d, s ::
                    IndexLookup(index.cache1, r, d, s) == (if s in doneStops then OnRouteDirection(Lookup(c, s, d), r, true) else [])
        decreases stops
      {
        assert (forall x :: x !in stops) ==> stops == {};
        var stopId :| stopId in stops;
        ghost var c0, c1 := index.cache0, index.cache1;
        index.AddStop(stopId, c[stopId]);
        forall r, d, s
          ensures IndexLookup(index.cache0, r, d, s) == (if s in doneStops + {stopId} then OnRouteDirection(Lookup(c, s, d), r, false) else [])
          ensures IndexLookup(index.cache1, r, d, s) == (if s in doneStops + {stopId} then OnRouteDirection(Lookup(c, s, d), r, true) else [])
        {
          if s == stopId {
            assert s !in doneStops;
            if d !in c[stopId] {
              assert OnRouteDirection(Lookup(c, s, d), r, false) == [] + [];
              assert OnRouteDirection(Lookup(c, s, d), r, true) == [] + [];
            } else {
              assert OnRouteDirection(Lookup(c, s, d), r, false) == [] + OnRouteDirection(c[stopId][d], r, false);
              assert OnRouteDirection(Lookup(c, s, d), r, true) == [] + OnRouteDirection(c[stopId][d], r, true);
            }
          } else {
            assert IndexLookup(index.cache0, r, d, s) == IndexLookup(c0, r, d, s) + [];
            assert IndexLookup(index.cache1, r, d, s) == IndexLookup(c1, r, d, s) + [];
          }
        }
        stops := stops - {stopId};
        doneStops := doneStops + {stopId};
      }
    }

    /** The loop of `fromCache` over one stop's date map. */
    method AddStop(stopId: int, dateMap: map<string, seq<StopTime>>)
      requires Valid()
      modifies this
      ensures Valid()
      ensures forall r, d, s ::
                IndexLookup(cache0, r, d, s) ==
                  old(IndexLookup(cache0, r, d, s)) + (if s == stopId && d in dateMap then OnRouteDirection(dateMap[d], r, false) else [])
      ensures forall r, d, s ::
                IndexLookup(cache1, r, d, s) ==
                  old(IndexLookup(cache1, r, d, s)) + (if s == stopId && d in dateMap then OnRouteDirection(dateMap[d], r, true) else [])
    {
      var dates := dateMap.Keys;
      ghost var doneDates: set<string> := {};
      while dates != {}
        invariant Valid()
        invariant dates !! doneDates && dates + doneDates == dateMap.Keys
        invariant forall r, d, s ::
                    IndexLookup(cache0, r, d, s) ==
                      old(IndexLookup(cache0, r, d, s)) + (if s == stopId && d in doneDates then OnRouteDirection(dateMap[d], r, false) else [])
        invariant forall r, d, s ::
                    IndexLookup(cache1, r, d, s) ==
                      old(IndexLookup(cache1, r, d, s)) + (if s == stopId && d in doneDates then OnRouteDirection(dateMap[d], r, true) else [])
        decreases dates
      {
        var date :| date in dates;
        ghost var c0, c1 := cache0, cache1;
        AddDepartures(stopId, date, dateMap[date]);
        forall r, d, s
          ensures IndexLookup(cache0, r, d, s) ==
                    old(IndexLookup(cache0, r, d, s)) + (if s == stopId && d in doneDates + {date} then OnRouteDirection(dateMap[d], r, false) else [])
          ensures IndexLookup(cache1, r, d, s) ==
                    old(IndexLookup(cache1, r, d, s)) + (if s == stopId && d in doneDates + {date} then OnRouteDirection(dateMap[d], r, true) else [])
        {
          if s == stopId && d == date {
            assert d !in doneDates;
          } else {
            assert IndexLookup(cache0, r, d, s) == IndexLookup(c0, r, d, s) + [];
            assert IndexLookup(cache1, r, d, s) == IndexLookup(c1, r, d, s) + [];
          }
        }
        dates := dates - {date};
        doneDates := doneDates + {date};
      }
    }

    /** The innermost loop of `fromCache`: one stop's departures on one date, in order. */
    method AddDepartures(stopId: int, date: string, departures: seq<StopTime>)
      requires Valid()
      modifies this
      ensures Valid()
      ensures forall r, d, s ::
                IndexLookup(cache0, r, d, s) ==
                  old(IndexLookup(cache0, r, d, s)) + (if s == stopId && d == date then OnRouteDirection(departures, r, false) else [])
      ensures forall r, d, s ::
                IndexLookup(cache1, r, d, s) ==
                  old(IndexLookup(cache1, r, d, s)) + (if s == stopId && d == date then OnRouteDirection(departures, r, true) else [])
    {
      ghost var o0, o1 := cache0, cache1;
      var i := 0;
      while i < |departures|
        invariant Valid()
        invariant 0 <= i <= |departures|
        invariant IndexedAfter(cache0, o0, stopId, date, departures[..i], false)
        invariant IndexedAfter(cache1, o1, stopId, date, departures[..i], true)
      {
        var st := departures[i];
        ghost var c0, c1 := cache0, cache1;
        Add(st.routeId, stopId, date, st.directionId, st);
        assert departures[..i + 1] == departures[..i] + [st];
        IndexStep(o0, c0, cache0, stopId, date, departures[..i], st, false);
        IndexStep(o1, c1, cache1, stopId, date, departures[..i], st, true);
        i := i + 1;
      }
      assert departures[..i] == departures;
    }

    /** `getRouteDate(routeId, dir, date)`: the stop -> departures map of the route on that date, or an empty map. */
    function GetRouteDate(routeId: int, dir: int, date: string): (r: map<int, seq<StopTime>>)
      reads this
      requires Valid()
      ensures RouteDateKey(routeId, date) !in Cache(IsDirection1(dir)) ==> r == map[]
      ensures forall s :: s in r ==> r[s] != [] && r[s] == IndexLookup(Cache(IsDirection1(dir)), routeId, date, s)
      ensures forall s :: IndexLookup(Cache(IsDirection1(dir)), routeId, date, s) != [] ==> s in r
    {
      var key := RouteDateKey(routeId, date);
      var c := if IsDirection1(dir) then cache1 else cache0;
      if key in c then c[key] else map[]
    }
  }
}
