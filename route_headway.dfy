/**
 * Departure lists and headway statistics of a route
 * (src/scenario/route-headway.ts).
 *
 * The route departure index is read, as the headway code reads it, as
 * route, direction and date mapped to the stops of that route in the
 * index's insertion order, each with its departure times in seconds since
 * midnight.
 */
module RouteHeadway {
  import opened Wrappers
  import opened Sorting
  import Calendar
  import CoreDatetime

  /** Gaps shorter than two minutes are bunching noise and are dropped. */
  const MinHeadwaySeconds: int := 2 * 60

  datatype HeadwayStats = HeadwayStats(average: real, fastest: int, slowest: int)

  /** The gaps of at least `MinHeadwaySeconds` between consecutive elements, in order. */
  function Headways(s: seq<int>): (h: seq<int>)
    ensures forall k :: 0 <= k < |h| ==> h[k] >= MinHeadwaySeconds
  {
    if |s| < 2 then []
    else
      var g := s[|s| - 1] - s[|s| - 2];
      Headways(s[..|s| - 1]) + (if g >= MinHeadwaySeconds then [g] else [])
  }

  /** A gap is kept exactly when it is long enough and lies between two consecutive elements. */
  lemma {:induction false} HeadwaysMember(s: seq<int>, g: int)
    ensures g in Headways(s) <==> g >= MinHeadwaySeconds && exists i :: 0 <= i < |s| - 1 && s[i + 1] - s[i] == g
  {
    if |s| >= 2 {
      var p := s[..|s| - 1];
      HeadwaysMember(p, g);
      if exists i :: 0 <= i < |p| - 1 && p[i + 1] - p[i] == g {
        var i :| 0 <= i < |p| - 1 && p[i + 1] - p[i] == g;
        assert s[i + 1] - s[i] == g;
      }
      if exists i :: 0 <= i < |s| - 1 && s[i + 1] - s[i] == g {
        var i :| 0 <= i < |s| - 1 && s[i + 1] - s[i] == g;
        if i < |s| - 2 {
          assert p[i + 1] - p[i] == g;
        }
      }
    }
  }

  /** Every gap between consecutive elements is under two minutes. */
  predicate AllGapsShort(s: seq<int>)
  {
    forall i :: 0 <= i < |s| - 1 ==> s[i + 1] - s[i] < MinHeadwaySeconds
  }

  /** No gap survives exactly when every consecutive gap is under two minutes. */
  lemma {:induction false} HeadwaysEmpty(s: seq<int>)
    ensures Headways(s) == [] <==> AllGapsShort(s)
  {
    if |s| >= 2 {
      var p := s[..|s| - 1];
      HeadwaysEmpty(p);
      assert forall i :: 0 <= i < |p| - 1 ==> p[i + 1] - p[i] == s[i + 1] - s[i];
    }
  }

  /** `calculateHeadwayStats(departures)`, with `undefined` as `None`. */
  function HeadwayStatsOf(departures: seq<int>): Option<HeadwayStats>
  {
    if |departures| < 2 then None
    else
      var h := Headways(Sort(departures));
      if h == [] then None
      else
        var hs := Sort(h);
        Some(HeadwayStats(Sum(hs) as real / |hs| as real, hs[0], hs[|hs| - 1]))
  }

  /** `calculateHeadwayStats`: sort a copy, collect the long enough gaps, then summarise them. */
  method CalculateHeadwayStats(departures: seq<int>) returns (r: Option<HeadwayStats>)
    ensures r == HeadwayStatsOf(departures)
  {
    if |departures| < 2 {
      return None;
    }
    var sorted := Sort(departures);
    var headways: seq<int> := [];
    var i := 0;
    while i < |sorted| - 1
      invariant 0 <= i <= |sorted| - 1
      invariant headways == Headways(sorted[..i + 1])
    {
      var curr := sorted[i];
      var next := sorted[i + 1];
      var headway := next - curr;
      assert sorted[..i + 2][..i + 1] == sorted[..i + 1];
      if headway >= MinHeadwaySeconds {
        headways := headways + [headway];
      }
      i := i + 1;
    }
    assert sorted[..|sorted|] == sorted;
    if |headways| == 0 {
      return None;
    }
    headways := Sort(headways);
    r := Some(HeadwayStats(Sum(headways) as real / |headways| as real, headways[0], headways[|headways| - 1]));
  }

  /**
   * There are no statistics exactly when fewer than two departures are
   * given or no two consecutive departures, in time order, are two minutes
   * or more apart.
   */
  lemma StatsAbsent(departures: seq<int>)
    ensures |departures| < 2 ==> HeadwayStatsOf(departures).None?
    ensures HeadwayStatsOf(departures).None? <==> AllGapsShort(Sort(departures))
  {
    var s := Sort(departures);
    HeadwaysEmpty(s);
    if |departures| < 2 {
      assert HeadwayStatsOf(departures).None?;
      assert |s| < 2;
    } else {
      assert HeadwayStatsOf(departures).None? <==> Headways(s) == [];
    }
  }

  /**
   * `fastest` is the shortest kept gap and `slowest` the longest, so
   * fastest <= average <= slowest, and no kept gap is under two minutes.
   */
  lemma StatsBounds(departures: seq<int>)
    requires HeadwayStatsOf(departures).Some?
    ensures var st := HeadwayStatsOf(departures).value;
      var h := Headways(Sort(departures));
      && st.fastest in h && st.slowest in h
      && (forall k :: 0 <= k < |h| ==> st.fastest <= h[k] <= st.slowest)
      && MinHeadwaySeconds as real <= st.fastest as real <= st.average <= st.slowest as real
  {
    var h := Headways(Sort(departures));
    SortExtremes(h);
    var hs := Sort(h);
    SumBounds(hs, hs[0], hs[|hs| - 1]);
    MeanBetween(hs[0], hs[|hs| - 1], Sum(hs), |hs|);
  }

  /** The first and last elements of the sorted list are the least and greatest of the list. */
  lemma SortExtremes(h: seq<int>)
    requires h != []
    ensures var hs := Sort(h);
      && hs[0] in h && hs[|hs| - 1] in h
      && Within(h, hs[0], hs[|hs| - 1]) && Within(hs, hs[0], hs[|hs| - 1])
  {
    var hs := Sort(h);
    SortedExtremes(h, hs);
  }

  /** Any sorted arrangement of `h` starts with its least and ends with its greatest element. */
  lemma SortedExtremes(h: seq<int>, hs: seq<int>)
    requires h != [] && Sorted(hs) && multiset(hs) == multiset(h) && |hs| == |h|
    ensures && hs[0] in h && hs[|hs| - 1] in h
      && Within(h, hs[0], hs[|hs| - 1]) && Within(hs, hs[0], hs[|hs| - 1])
  {
    SameMember(h, hs, hs[0]);
    SameMember(h, hs, hs[|hs| - 1]);
    forall k | 0 <= k < |h|
      ensures hs[0] <= h[k] <= hs[|hs| - 1]
    {
      SameMember(h, hs, h[k]);
      SortedBetween(hs, h[k]);
    }
    forall k | 0 <= k < |hs|
      ensures hs[0] <= hs[k] <= hs[|hs| - 1]
    {
      SortedBetween(hs, hs[k]);
    }
  }

  /** Two lists with the same elements agree on membership. */
  lemma SameMember(a: seq<int>, b: seq<int>, x: int)
    requires multiset(a) == multiset(b)
    ensures x in a <==> x in b
  {
    assert x in a <==> x in multiset(a);
    assert x in b <==> x in multiset(b);
  }

  lemma SortedBetween(hs: seq<int>, x: int)
    requires Sorted(hs) && x in hs
    ensures hs[0] <= x <= hs[|hs| - 1]
  {
    var j :| 0 <= j < |hs| && hs[j] == x;
  }

  lemma MeanBetween(lo: int, hi: int, sum: int, n: int)
    requires n > 0 && n * lo <= sum <= n * hi
    ensures lo as real <= sum as real / n as real <= hi as real
  {
    var a := sum as real / n as real;
    assert a * n as real == sum as real;
    assert (lo as real) * (n as real) <= a * (n as real);
    assert a * (n as real) <= (hi as real) * (n as real);
  }

  /** The statistics depend on the departures, not on the order they are given in. */
  lemma StatsOrderIndependent(a: seq<int>, b: seq<int>)
    requires multiset(a) == multiset(b)
    ensures HeadwayStatsOf(a) == HeadwayStatsOf(b)
  {
    SortOrderIndependent(a, b);
    assert |a| == |b| by { assert |multiset(a)| == |multiset(b)|; }
  }

  /** One entry of a route/date/direction index: a stop and its departure seconds. */
  datatype StopDepartures = StopDepartures(stopId: int, departures: seq<int>)

  /**
   * The representative stop: scanning in index order, the first stop with
   * strictly more departures than every stop before it; stop 0 with no
   * departures when no stop has any.
   */
  function Representative(entries: seq<StopDepartures>): (r: StopDepartures)
    ensures forall j :: 0 <= j < |entries| ==> |entries[j].departures| <= |r.departures|
  {
    if entries == [] then StopDepartures(0, [])
    else
      var best := Representative(entries[..|entries| - 1]);
      var e := entries[|entries| - 1];
      if |e.departures| > |best.departures| then e else best
  }

  /**
   * The representative is the first entry with the most departures, or
   * stop 0 with none when every entry is empty.
   */
  lemma {:induction false} RepresentativeFirstLongest(entries: seq<StopDepartures>)
    ensures (forall j :: 0 <= j < |entries| ==> entries[j].departures == []) ==>
      Representative(entries) == StopDepartures(0, [])
    ensures (exists j :: 0 <= j < |entries| && entries[j].departures != []) ==>
      exists k :: 0 <= k < |entries| && Representative(entries) == entries[k]
        && forall j :: 0 <= j < k ==> |entries[j].departures| < |entries[k].departures|
  {
    if entries != [] {
      var p := entries[..|entries| - 1];
      RepresentativeFirstLongest(p);
      var best := Representative(p);
      var e := entries[|entries| - 1];
      if |e.departures| > |best.departures| {
        var k := |entries| - 1;
        assert forall j :: 0 <= j < k ==> |entries[j].departures| < |entries[k].departures| by {
          assert forall j :: 0 <= j < k ==> entries[j] == p[j];
        }
      } else if exists j :: 0 <= j < |p| && p[j].departures != [] {
        var k :| 0 <= k < |p| && Representative(p) == p[k]
          && forall j :: 0 <= j < k ==> |p[j].departures| < |p[k].departures|;
        assert entries[k] == p[k];
      } else {
        assert best == StopDepartures(0, []);
        assert forall j :: 0 <= j < |entries| ==> entries[j].departures == [] by {
          assert forall j :: 0 <= j < |p| ==> entries[j] == p[j];
        }
      }
    }
  }

  /** The loop over `dateStopDeps.entries()` that keeps the strictly longest list. */
  method PickRepresentative(entries: seq<StopDepartures>) returns (stopId: int, stopDepartures: seq<int>)
    ensures StopDepartures(stopId, stopDepartures) == Representative(entries)
  {
    stopId, stopDepartures := 0, [];
    for i := 0 to |entries|
      invariant StopDepartures(stopId, stopDepartures) == Representative(entries[..i])
    {
      assert entries[..i + 1][..i] == entries[..i];
      var e := entries[i];
      if |e.departures| > |stopDepartures| {
        stopId, stopDepartures := e.stopId, e.departures;
      }
    }
    assert entries[..|entries|] == entries;
  }

  datatype RouteDirDate = RouteDirDate(routeId: int, dir1: bool, date: string)

  /** The route departure index: per route, direction and date, its stops in insertion order. */
  datatype RouteIndex = RouteIndex(byKey: map<RouteDirDate, seq<StopDepartures>>)

  /** `routeIndex.getRouteDate(routeId, dir, date)`: no stops for an unindexed key. */
  function GetRouteDate(index: RouteIndex, routeId: int, dir: int, date: string): (r: seq<StopDepartures>)
    ensures RouteDirDate(routeId, dir != 0, date) !in index.byKey ==> r == []
  {
    var key := RouteDirDate(routeId, dir != 0, date);
    if key in index.byKey then index.byKey[key] else []
  }

  /** `deps.filter(t => t >= start && t <= end)`. */
  function InWindow(deps: seq<int>, start: int, end: int): (r: seq<int>)
    ensures forall t :: multiset(r)[t] == if start <= t <= end then multiset(deps)[t] else 0
  {
    if deps == [] then []
    else
      var x := deps[|deps| - 1];
      assert deps == deps[..|deps| - 1] + [x];
      InWindow(deps[..|deps| - 1], start, end) + (if start <= x <= end then [x] else [])
  }

  /** The query of one `routeHeadways` call once its time window is parsed. */
  datatype HeadwayQuery = HeadwayQuery(index: RouteIndex, routeId: int, start: int, end: int)

  /** The departures one date contributes: the representative stop's, in the window, ascending. */
  function DateDepartures(q: HeadwayQuery, dir: int, d: Calendar.Date): (r: seq<int>)
    ensures Sorted(r)
    ensures forall k :: 0 <= k < |r| ==> q.start <= r[k] <= q.end
  {
    var rep := Representative(GetRouteDate(q.index, q.routeId, dir, Calendar.FmtDate(d)));
    var r := Sort(InWindow(rep.departures, q.start, q.end));
    assert forall k :: 0 <= k < |r| ==> q.start <= r[k] <= q.end by {
      forall k | 0 <= k < |r|
        ensures q.start <= r[k] <= q.end
      {
        assert r[k] in multiset(r);
      }
    }
    r
  }

  /** The stop id and departure list of one direction of one bucket. */
  datatype DirSummary = DirSummary(stopId: int, departures: seq<int>)

  datatype Directions = Directions(dir0: DirSummary, dir1: DirSummary)

  /** The summary: all dates in `total`, and each date again in `byDay[getDay()]`. */
  datatype RouteHeadwaySummary = RouteHeadwaySummary(total: Directions, byDay: seq<Directions>)

  function GetDir(ds: Directions, dir: int): DirSummary
  {
    if dir != 0 then ds.dir1 else ds.dir0
  }

  function SetDir(ds: Directions, dir: int, v: DirSummary): Directions
  {
    if dir != 0 then ds.(dir1 := v) else ds.(dir0 := v)
  }

  function NewRouteHeadwayDirections(): Directions
  {
    Directions(DirSummary(0, []), DirSummary(0, []))
  }

  /** `newRouteHeadwaySummary()`: the total and seven day buckets, all empty with stop 0. */
  function NewRouteHeadwaySummary(): (r: RouteHeadwaySummary)
    ensures |r.byDay| == 7
  {
    RouteHeadwaySummary(NewRouteHeadwayDirections(), seq(7, _ => NewRouteHeadwayDirections()))
  }

  /**
   * One direction of one bucket after the given dates: the dates of the
   * bucket (every date for `day == None`, else those of that weekday)
   * append their departures, and the last of them sets the stop id.
   */
  function Bucket(q: HeadwayQuery, dir: int, dates: seq<Calendar.Date>, day: Option<int>): (b: DirSummary)
    ensures forall k :: 0 <= k < |b.departures| ==> q.start <= b.departures[k] <= q.end
  {
    if dates == [] then DirSummary(0, [])
    else
      var prev := Bucket(q, dir, dates[..|dates| - 1], day);
      var d := dates[|dates| - 1];
      if day.None? || Calendar.Weekday(d) == day.value then
        var rep := Representative(GetRouteDate(q.index, q.routeId, dir, Calendar.FmtDate(d)));
        DirSummary(rep.stopId, prev.departures + DateDepartures(q, dir, d))
      else prev
  }

  /** The summary once direction 0 has seen `n0` dates and direction 1 `n1`. */
  function SummaryAfter(q: HeadwayQuery, dates: seq<Calendar.Date>, n0: nat, n1: nat): (r: RouteHeadwaySummary)
    requires n0 <= |dates| && n1 <= |dates|
    ensures |r.byDay| == 7
  {
    RouteHeadwaySummary(
      Directions(Bucket(q, 0, dates[..n0], None), Bucket(q, 1, dates[..n1], None)),
      seq(7, w => Directions(Bucket(q, 0, dates[..n0], Some(w)), Bucket(q, 1, dates[..n1], Some(w)))))
  }

  /** `routeHeadways`: empty without an index, else every date of both directions. */
  function RouteHeadwaysOf(routeId: int, dates: seq<Calendar.Date>, startTime: Option<string>,
                           endTime: Option<string>, routeIndex: Option<RouteIndex>): (r: RouteHeadwaySummary)
    ensures |r.byDay| == 7
  {
    if routeIndex.None? then NewRouteHeadwaySummary()
    else
      var q := HeadwayQuery(routeIndex.value, routeId,
        CoreDatetime.ParseHMS(Some(OrElse(startTime, "00:00:00"))),
        CoreDatetime.ParseHMS(Some(OrElse(endTime, "24:00:00"))));
      SummaryAfter(q, dates, |dates|, |dates|)
  }

  lemma SummaryAfterNone(q: HeadwayQuery, dates: seq<Calendar.Date>)
    ensures SummaryAfter(q, dates, 0, 0) == NewRouteHeadwaySummary()
  {
  }

  /** One more date extends the buckets it belongs to and leaves the others as they were. */
  lemma BucketStep(q: HeadwayQuery, dir: int, dates: seq<Calendar.Date>, n: nat, day: Option<int>)
    requires n < |dates|
    ensures var d := dates[n];
      var rep := Representative(GetRouteDate(q.index, q.routeId, dir, Calendar.FmtDate(d)));
      Bucket(q, dir, dates[..n + 1], day) ==
        if day.None? || Calendar.Weekday(d) == day.value
        then DirSummary(rep.stopId, Bucket(q, dir, dates[..n], day).departures + DateDepartures(q, dir, d))
        else Bucket(q, dir, dates[..n], day)
  {
    assert dates[..n + 1][..n] == dates[..n];
  }

  lemma DayOfSummary(q: HeadwayQuery, dates: seq<Calendar.Date>, n0: nat, n1: nat, v: int)
    requires n0 <= |dates| && n1 <= |dates| && 0 <= v < 7
    ensures SummaryAfter(q, dates, n0, n1).byDay[v]
      == Directions(Bucket(q, 0, dates[..n0], Some(v)), Bucket(q, 1, dates[..n1], Some(v)))
  {
  }

  /** One more date of one direction changes only the day bucket of its weekday. */
  lemma DayStep(q: HeadwayQuery, dates: seq<Calendar.Date>, n0: nat, n1: nat, dir: int, v: int)
    requires dir == 0 || dir == 1
    requires n0 <= |dates| && n1 <= |dates| && 0 <= v < 7
    requires if dir == 0 then n0 < |dates| else n1 < |dates|
    ensures var n := if dir == 0 then n0 else n1;
      var d := dates[n];
      var cur := SummaryAfter(q, dates, n0, n1).byDay[v];
      var rep := Representative(GetRouteDate(q.index, q.routeId, dir, Calendar.FmtDate(d)));
      SummaryAfter(q, dates, if dir == 0 then n0 + 1 else n0, if dir == 0 then n1 else n1 + 1).byDay[v]
      == if Calendar.Weekday(d) == v
         then SetDir(cur, dir, DirSummary(rep.stopId, GetDir(cur, dir).departures + DateDepartures(q, dir, d)))
         else cur
  {
    DayOfSummary(q, dates, n0, n1, v);
    if dir == 0 {
      DayOfSummary(q, dates, n0 + 1, n1, v);
      BucketStep(q, 0, dates, n0, Some(v));
    } else {
      DayOfSummary(q, dates, n0, n1 + 1, v);
      BucketStep(q, 1, dates, n1, Some(v));
    }
  }

  /** Adding the next date of one direction extends that direction of the total. */
  lemma TotalStep(q: HeadwayQuery, dates: seq<Calendar.Date>, n0: nat, n1: nat, dir: int, stopId: int, stSecs: seq<int>)
    requires dir == 0 || dir == 1
    requires n0 <= |dates| && n1 <= |dates|
    requires if dir == 0 then n0 < |dates| else n1 < |dates|
    requires var d := dates[if dir == 0 then n0 else n1];
      && stopId == Representative(GetRouteDate(q.index, q.routeId, dir, Calendar.FmtDate(d))).stopId
      && stSecs == DateDepartures(q, dir, d)
    ensures var s := SummaryAfter(q, dates, n0, n1).total;
      SummaryAfter(q, dates, if dir == 0 then n0 + 1 else n0, if dir == 0 then n1 else n1 + 1).total
      == SetDir(s, dir, DirSummary(stopId, GetDir(s, dir).departures + stSecs))
  {
    if dir == 0 {
      BucketStep(q, 0, dates, n0, None);
    } else {
      BucketStep(q, 1, dates, n1, None);
    }
  }

  /** Adding the next date of one direction extends that direction of its weekday's bucket only. */
  lemma ByDayStep(q: HeadwayQuery, dates: seq<Calendar.Date>, n0: nat, n1: nat, dir: int, stopId: int, stSecs: seq<int>)
    requires dir == 0 || dir == 1
    requires n0 <= |dates| && n1 <= |dates|
    requires if dir == 0 then n0 < |dates| else n1 < |dates|
    requires var d := dates[if dir == 0 then n0 else n1];
      && stopId == Representative(GetRouteDate(q.index, q.routeId, dir, Calendar.FmtDate(d))).stopId
      && stSecs == DateDepartures(q, dir, d)
    ensures var s := SummaryAfter(q, dates, n0, n1).byDay;
      var w := Calendar.Weekday(dates[if dir == 0 then n0 else n1]);
      SummaryAfter(q, dates, if dir == 0 then n0 + 1 else n0, if dir == 0 then n1 else n1 + 1).byDay
      == s[w := SetDir(s[w], dir, DirSummary(stopId, GetDir(s[w], dir).departures + stSecs))]
  {
    var s := SummaryAfter(q, dates, n0, n1).byDay;
    var s' := SummaryAfter(q, dates, if dir == 0 then n0 + 1 else n0, if dir == 0 then n1 else n1 + 1).byDay;
    var w := Calendar.Weekday(dates[if dir == 0 then n0 else n1]);
    var byDay := s[w := SetDir(s[w], dir, DirSummary(stopId, GetDir(s[w], dir).departures + stSecs))];
    assert |s'| == 7 == |byDay|;
    forall v | 0 <= v < 7
      ensures s'[v] == byDay[v]
    {
      ByDayAt(q, dates, n0, n1, dir, stopId, stSecs, v);
    }
  }

  /** The bucket of weekday `v` after one more date of one direction. */
  lemma ByDayAt(q: HeadwayQuery, dates: seq<Calendar.Date>, n0: nat, n1: nat, dir: int, stopId: int, stSecs: seq<int>, v: int)
    requires dir == 0 || dir == 1
    requires n0 <= |dates| && n1 <= |dates| && 0 <= v < 7
    requires if dir == 0 then n0 < |dates| else n1 < |dates|
    requires var d := dates[if dir == 0 then n0 else n1];
      && stopId == Representative(GetRouteDate(q.index, q.routeId, dir, Calendar.FmtDate(d))).stopId
      && stSecs == DateDepartures(q, dir, d)
    ensures var s := SummaryAfter(q, dates, n0, n1).byDay;
      var w := Calendar.Weekday(dates[if dir == 0 then n0 else n1]);
      SummaryAfter(q, dates, if dir == 0 then n0 + 1 else n0, if dir == 0 then n1 else n1 + 1).byDay[v]
      == s[w := SetDir(s[w], dir, DirSummary(stopId, GetDir(s[w], dir).departures + stSecs))][v]
  {
    DayStep(q, dates, n0, n1, dir, v);
  }

  /** Adding the next date of one direction updates its total and its weekday bucket only. */
  lemma SummaryStep(q: HeadwayQuery, dates: seq<Calendar.Date>, n0: nat, n1: nat, dir: int, stopId: int, stSecs: seq<int>)
    requires dir == 0 || dir == 1
    requires n0 <= |dates| && n1 <= |dates|
    requires if dir == 0 then n0 < |dates| else n1 < |dates|
    requires var d := dates[if dir == 0 then n0 else n1];
      && stopId == Representative(GetRouteDate(q.index, q.routeId, dir, Calendar.FmtDate(d))).stopId
      && stSecs == DateDepartures(q, dir, d)
    ensures var n := if dir == 0 then n0 else n1;
      var s := SummaryAfter(q, dates, n0, n1);
      var w := Calendar.Weekday(dates[n]);
      var total := GetDir(s.total, dir);
      var day := GetDir(s.byDay[w], dir);
      SummaryAfter(q, dates, if dir == 0 then n0 + 1 else n0, if dir == 0 then n1 else n1 + 1)
      == s.(total := SetDir(s.total, dir, DirSummary(stopId, total.departures + stSecs)),
            byDay := s.byDay[w := SetDir(s.byDay[w], dir, DirSummary(stopId, day.departures + stSecs))])
  {
    TotalStep(q, dates, n0, n1, dir, stopId, stSecs);
    ByDayStep(q, dates, n0, n1, dir, stopId, stSecs);
  }

  /**
   * `routeHeadways`: for each direction and date, pick the representative
   * stop, keep its departures inside the window in ascending order, and
   * append them to the total and to the date's weekday bucket.
   */
  method RouteHeadways(routeId: int, dates: seq<Calendar.Date>, startTime: Option<string>,
                       endTime: Option<string>, routeIndex: Option<RouteIndex>) returns (result: RouteHeadwaySummary)
    ensures result == RouteHeadwaysOf(routeId, dates, startTime, endTime, routeIndex)
  {
    result := NewRouteHeadwaySummary();
    if routeIndex.None? {
      return;
    }
    var startSecs := CoreDatetime.ParseHMS(Some(OrElse(startTime, "00:00:00")));
    var endSecs := CoreDatetime.ParseHMS(Some(OrElse(endTime, "24:00:00")));
    var q := HeadwayQuery(routeIndex.value, routeId, startSecs, endSecs);
    SummaryAfterNone(q, dates);
    for dir := 0 to 2
      invariant result == SummaryAfter(q, dates, if dir == 0 then 0 else |dates|, if dir <= 1 then 0 else |dates|)
    {
      for i := 0 to |dates|
        invariant result == SummaryAfter(q, dates, if dir == 0 then i else |dates|, if dir == 0 then 0 else i)
      {
        var d := dates[i];
        var stopId, stopDepartures := PickRepresentative(GetRouteDate(routeIndex.value, routeId, dir, Calendar.FmtDate(d)));
        var stSecs := Sort(InWindow(stopDepartures, startSecs, endSecs));
        SummaryStep(q, dates, if dir == 0 then i else |dates|, if dir == 0 then 0 else i, dir, stopId, stSecs);
        var resultDir := GetDir(result.total, dir);
        result := result.(total := SetDir(result.total, dir, DirSummary(stopId, resultDir.departures + stSecs)));
        var w := Calendar.Weekday(d);
        var dayDir := GetDir(result.byDay[w], dir);
        result := result.(byDay := result.byDay[w := SetDir(result.byDay[w], dir, DirSummary(stopId, dayDir.departures + stSecs))]);
      }
    }
  }

  /** Without an index every bucket of both directions is empty with stop 0. */
  lemma NoIndexEmpty(routeId: int, dates: seq<Calendar.Date>, startTime: Option<string>, endTime: Option<string>)
    ensures var r := RouteHeadwaysOf(routeId, dates, startTime, endTime, None);
      && r.total == Directions(DirSummary(0, []), DirSummary(0, []))
      && forall w :: 0 <= w < 7 ==> r.byDay[w] == Directions(DirSummary(0, []), DirSummary(0, []))
  {
  }

  /** The departures of the day buckets of weekdays below `k`, by weekday. */
  function DayBuckets(q: HeadwayQuery, dir: int, dates: seq<Calendar.Date>, k: nat): (ms: seq<multiset<int>>)
    ensures |ms| == k
  {
    if k == 0 then [] else DayBuckets(q, dir, dates, k - 1) + [multiset(Bucket(q, dir, dates, Some(k - 1)).departures)]
  }

  lemma {:induction false} DayBucketsAt(q: HeadwayQuery, dir: int, dates: seq<Calendar.Date>, k: nat, w: nat)
    requires w < k
    ensures DayBuckets(q, dir, dates, k)[w] == multiset(Bucket(q, dir, dates, Some(w)).departures)
  {
    if w < k - 1 {
      DayBucketsAt(q, dir, dates, k - 1, w);
    }
  }

  /** A list of multisets taken together. */
  function UnionOf(ms: seq<multiset<int>>): multiset<int>
  {
    if ms == [] then multiset{} else UnionOf(ms[..|ms| - 1]) + ms[|ms| - 1]
  }

  /** Multisets that are all empty have an empty union. */
  lemma {:induction false} UnionOfEmpties(ms: seq<multiset<int>>)
    requires forall w :: 0 <= w < |ms| ==> ms[w] == multiset{}
    ensures UnionOf(ms) == multiset{}
  {
    if ms != [] {
      UnionOfEmpties(ms[..|ms| - 1]);
    }
  }

  /**
   * When position `day` alone grows by `x`, the union grows by `x` (and not
   * at all when `day` lies beyond the list).
   */
  lemma {:induction false} UnionOfStep(ms: seq<multiset<int>>, ms0: seq<multiset<int>>, x: multiset<int>, day: nat)
    requires |ms| == |ms0|
    requires forall w :: 0 <= w < |ms| ==> ms[w] == ms0[w] + (if w == day then x else multiset{})
    ensures UnionOf(ms) == UnionOf(ms0) + (if day < |ms| then x else multiset{})
  {
    if ms != [] {
      var n := |ms| - 1;
      UnionOfStep(ms[..n], ms0[..n], x, day);
    }
  }

  /** The bucket of weekday `w` grows by the last date's departures exactly when that date falls on `w`. */
  lemma DayBucketSnoc(q: HeadwayQuery, dir: int, dates: seq<Calendar.Date>, w: int)
    requires dates != []
    ensures multiset(Bucket(q, dir, dates, Some(w)).departures)
      == multiset(Bucket(q, dir, dates[..|dates| - 1], Some(w)).departures)
        + (if w == Calendar.Weekday(dates[|dates| - 1]) then multiset(DateDepartures(q, dir, dates[|dates| - 1])) else multiset{})
  {
  }

  /** One more date adds its departures to exactly its weekday's bucket. */
  lemma DayBucketsSnoc(q: HeadwayQuery, dir: int, dates: seq<Calendar.Date>, k: nat)
    requires dates != []
    ensures var ms, ms0 := DayBuckets(q, dir, dates, k), DayBuckets(q, dir, dates[..|dates| - 1], k);
      forall w :: 0 <= w < |ms| ==>
        ms[w] == ms0[w] + (if w == Calendar.Weekday(dates[|dates| - 1]) then multiset(DateDepartures(q, dir, dates[|dates| - 1])) else multiset{})
  {
    forall w | 0 <= w < k
      ensures DayBuckets(q, dir, dates, k)[w] == DayBuckets(q, dir, dates[..|dates| - 1], k)[w]
        + (if w == Calendar.Weekday(dates[|dates| - 1]) then multiset(DateDepartures(q, dir, dates[|dates| - 1])) else multiset{})
    {
      DayBucketsAt(q, dir, dates, k, w);
      DayBucketsAt(q, dir, dates[..|dates| - 1], k, w);
      DayBucketSnoc(q, dir, dates, w);
    }
  }

  /**
   * Every date's departures go into the total and into the bucket of its
   * weekday, so the total holds exactly the departures of the seven day
   * buckets together.
   */
  lemma {:induction false} TotalIsUnionOfDays(q: HeadwayQuery, dir: int, dates: seq<Calendar.Date>)
    ensures multiset(Bucket(q, dir, dates, None).departures) == UnionOf(DayBuckets(q, dir, dates, 7))
  {
    if dates != [] {
      var p := dates[..|dates| - 1];
      var d := dates[|dates| - 1];
      TotalIsUnionOfDays(q, dir, p);
      DayBucketsSnoc(q, dir, dates, 7);
      UnionOfStep(DayBuckets(q, dir, dates, 7), DayBuckets(q, dir, p, 7), multiset(DateDepartures(q, dir, d)), Calendar.Weekday(d));
      assert Bucket(q, dir, dates, None).departures == Bucket(q, dir, p, None).departures + DateDepartures(q, dir, d);
    } else {
      forall w | 0 <= w < 7
        ensures DayBuckets(q, dir, dates, 7)[w] == multiset{}
      {
        DayBucketsAt(q, dir, dates, 7, w);
      }
      UnionOfEmpties(DayBuckets(q, dir, dates, 7));
    }
  }
}
