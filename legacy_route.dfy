/**
 * The older route filter of src/route.ts: per-date headways (gaps between
 * consecutive departures) of each route direction, the frequencies taken
 * from them, and the early-return route filter with its −1 sentinels.
 *
 * Unlike src/scenario/route-headway.ts the summary holds headways, not
 * departures, with no minimum gap, and an empty selection list means "no
 * filter".  Departure times are seconds, as in the route index of the
 * current generation; the window bounds come from the legacy `parseHMS`,
 * which can yield NaN.
 */
module LegacyRoute {
  import opened Wrappers
  import opened Sorting
  import Calendar
  import LegacyDatetime
  import RouteHeadway
  import CoreDatetime

  //////////////////////////////////////////////////////////////////////
  // Headways of one date
  //////////////////////////////////////////////////////////////////////

  /**
   * `deps.filter(t => t >= startTime && t <= endTime)`: a NaN bound fails
   * every comparison, so it keeps nothing.
   */
  function Window(deps: seq<int>, start: LegacyDatetime.Number, end: LegacyDatetime.Number): (r: seq<int>)
    ensures start.NaN? || end.NaN? ==> r == []
    ensures start.Int? && end.Int? ==>
      forall t :: multiset(r)[t] == if start.value <= t <= end.value then multiset(deps)[t] else 0
  {
    if start.Int? && end.Int? then RouteHeadway.InWindow(deps, start.value, end.value) else []
  }

  /** The differences of consecutive elements, in list order. */
  function Gaps(s: seq<int>): (g: seq<int>)
    ensures |g| == if |s| == 0 then 0 else |s| - 1
  {
    if |s| < 2 then [] else Gaps(s[..|s| - 1]) + [s[|s| - 1] - s[|s| - 2]]
  }

  /** Gap i is the step from element i to element i + 1. */
  lemma {:induction false} GapsAt(s: seq<int>)
    ensures forall i :: 0 <= i < |Gaps(s)| ==> Gaps(s)[i] == s[i + 1] - s[i]
  {
    if |s| >= 2 {
      var p := s[..|s| - 1];
      GapsAt(p);
      assert forall i :: 0 <= i < |p| ==> p[i] == s[i];
    }
  }

  /** The gaps of a list add up to the distance from its first element to its last. */
  lemma {:induction false} GapsSum(s: seq<int>)
    requires |s| > 0
    ensures Sum(Gaps(s)) == s[|s| - 1] - s[0]
  {
    if |s| >= 2 {
      var p := s[..|s| - 1];
      GapsSum(p);
      assert Gaps(s) == Gaps(p) + [s[|s| - 1] - s[|s| - 2]];
      assert Gaps(s)[..|Gaps(s)| - 1] == Gaps(p);
    }
  }

  /** The gaps of an ascending list are never negative. */
  lemma GapsOfSorted(s: seq<int>)
    requires Sorted(s)
    ensures forall i :: 0 <= i < |Gaps(s)| ==> Gaps(s)[i] >= 0
  {
    GapsAt(s);
  }

  /** The loop `for (i = 0; i < stSecs.length - 1; i++) headways.push(stSecs[i + 1] - stSecs[i])`. */
  method ComputeGaps(s: seq<int>) returns (headways: seq<int>)
    ensures headways == Gaps(s)
  {
    headways := [];
    var i := 0;
    while i < |s| - 1
      invariant 0 <= i && (|s| > 0 ==> i <= |s| - 1)
      invariant |s| == 0 ==> headways == []
      invariant |s| > 0 ==> headways == Gaps(s[..i + 1])
    {
      assert s[..i + 2][..i + 1] == s[..i + 1];
      headways := headways + [s[i + 1] - s[i]];
      i := i + 1;
    }
    assert |s| > 0 ==> s[..|s|] == s;
  }

  /** The query of one `routeHeadways` call once its time window is parsed. */
  datatype LegacyQuery = LegacyQuery(index: RouteHeadway.RouteIndex, routeId: int,
                                     start: LegacyDatetime.Number, end: LegacyDatetime.Number)

  /** The stop with strictly the most departures on a date and direction (the first such). */
  function DateRepresentative(q: LegacyQuery, dir: int, d: Calendar.Date): RouteHeadway.StopDepartures
  {
    RouteHeadway.Representative(RouteHeadway.GetRouteDate(q.index, q.routeId, dir, Calendar.FmtDate(d)))
  }

  /** `stSecs`: the representative's departures in the window, ascending. */
  function DateSeconds(q: LegacyQuery, dir: int, d: Calendar.Date): (r: seq<int>)
    ensures Sorted(r)
  {
    Sort(Window(DateRepresentative(q, dir, d).departures, q.start, q.end))
  }

  /** The headways one date contributes: the gaps of `stSecs`, ascending. */
  function DateHeadways(q: LegacyQuery, dir: int, d: Calendar.Date): (r: seq<int>)
    ensures Sorted(r)
    ensures forall k :: 0 <= k < |r| ==> r[k] >= 0
    ensures multiset(r) == multiset(Gaps(DateSeconds(q, dir, d)))
  {
    var st := DateSeconds(q, dir, d);
    var r := Sort(Gaps(st));
    assert forall k :: 0 <= k < |r| ==> r[k] >= 0 by {
      GapsOfSorted(st);
      forall k | 0 <= k < |r|
        ensures r[k] >= 0
      {
        assert r[k] in multiset(Gaps(st));
        assert r[k] in Gaps(st);
      }
    }
    r
  }

  /**
   * A date with n in-window departures gives n - 1 headways (none for at
   * most one departure), and they add up to the time from its first
   * departure to its last.
   */
  lemma DateHeadwaysSpan(q: LegacyQuery, dir: int, d: Calendar.Date)
    ensures var st := DateSeconds(q, dir, d);
      && |DateHeadways(q, dir, d)| == (if |st| == 0 then 0 else |st| - 1)
      && (|st| > 0 ==> SumOfGaps(DateHeadways(q, dir, d), st))
  {
    var st := DateSeconds(q, dir, d);
    var r := DateHeadways(q, dir, d);
    assert |r| == |Gaps(st)| by { assert |multiset(r)| == |multiset(Gaps(st))|; }
    if |st| > 0 {
      GapsSum(st);
      SumOfPermutation(r, Gaps(st));
    }
  }

  /** The headways `hw` add up to the span of the ascending departures `st`. */
  predicate SumOfGaps(hw: seq<int>, st: seq<int>)
    requires |st| > 0
  {
    Sum(hw) == st[|st| - 1] - st[0]
  }

  /** The sum of a list does not depend on the order of its elements. */
  lemma {:induction false} SumOfPermutation(a: seq<int>, b: seq<int>)
    requires multiset(a) == multiset(b)
    ensures Sum(a) == Sum(b)
    decreases |a|
  {
    assert |a| == |b| by { assert |multiset(a)| == |multiset(b)|; }
    if a != [] {
      var x := a[|a| - 1];
      var a' := a[..|a| - 1];
      assert a == a' + [x];
      assert x in multiset(b) by { assert x in multiset(a); }
      var j :| 0 <= j < |b| && b[j] == x;
      var b' := b[..j] + b[j + 1..];
      assert multiset(b') == multiset(b) - multiset{x} by {
        assert b == b[..j] + [x] + b[j + 1..];
      }
      SumOfPermutation(a', b');
      SumRemove(b, j);
    }
  }

  /** Taking one element out of a list takes it out of the sum. */
  lemma SumRemove(b: seq<int>, j: int)
    requires 0 <= j < |b|
    ensures Sum(b) == Sum(b[..j] + b[j + 1..]) + b[j]
  {
    var pre, x, post := b[..j], b[j], b[j + 1..];
    assert b == pre + ([x] + post);
    SumSplit(pre, [x] + post);
    SumSplit([x], post);
    SumSplit(pre, post);
    SumSingle(x);
  }

  lemma SumSingle(x: int)
    ensures Sum([x]) == x
  {
    assert [x][..0] == [];
  }

  lemma {:induction false} SumSplit(a: seq<int>, b: seq<int>)
    ensures Sum(a + b) == Sum(a) + Sum(b)
    decreases |b|
  {
    if b != [] {
      SumSplit(a, b[..|b| - 1]);
      assert (a + b)[..|a + b| - 1] == a + b[..|b| - 1];
    } else {
      assert a + b == a;
    }
  }

  //////////////////////////////////////////////////////////////////////
  // The headway summary
  //////////////////////////////////////////////////////////////////////

  /** The stop id and headway list of one direction of one bucket. */
  datatype HeadwayDir = HeadwayDir(stopId: int, headways: seq<int>)

  datatype HeadwayDirections = HeadwayDirections(dir0: HeadwayDir, dir1: HeadwayDir)

  /** The summary: all dates in `total`, and each date again in `byDay[getDay()]`. */
  datatype HeadwaySummary = HeadwaySummary(total: HeadwayDirections, byDay: seq<HeadwayDirections>)

  function GetDir(ds: HeadwayDirections, dir: int): HeadwayDir
  {
    if dir != 0 then ds.dir1 else ds.dir0
  }

  function SetDir(ds: HeadwayDirections, dir: int, v: HeadwayDir): HeadwayDirections
  {
    if dir != 0 then ds.(dir1 := v) else ds.(dir0 := v)
  }

  function NewHeadwayDirections(): HeadwayDirections
  {
    HeadwayDirections(HeadwayDir(0, []), HeadwayDir(0, []))
  }

  /** `newRouteHeadwaySummary()`: the total and seven day buckets, all empty with stop 0. */
  function NewRouteHeadwaySummary(): (r: HeadwaySummary)
    ensures |r.byDay| == 7
  {
    HeadwaySummary(NewHeadwayDirections(), seq(7, _ => NewHeadwayDirections()))
  }

  /**
   * One direction of one bucket after the given dates: each date of the
   * bucket (every date for `day == None`, else those of that weekday)
   * appends its headways and sets the stop id, even when it has none.
   */
  function Bucket(q: LegacyQuery, dir: int, dates: seq<Calendar.Date>, day: Option<int>): (b: HeadwayDir)
    ensures forall k :: 0 <= k < |b.headways| ==> b.headways[k] >= 0
  {
    if dates == [] then HeadwayDir(0, [])
    else
      var prev := Bucket(q, dir, dates[..|dates| - 1], day);
      var d := dates[|dates| - 1];
      if day.None? || Calendar.Weekday(d) == day.value then
        HeadwayDir(DateRepresentative(q, dir, d).stopId, prev.headways + DateHeadways(q, dir, d))
      else prev
  }

  /** The summary once direction 0 has seen `n0` dates and direction 1 `n1`. */
  function SummaryAfter(q: LegacyQuery, dates: seq<Calendar.Date>, n0: nat, n1: nat): (r: HeadwaySummary)
    requires n0 <= |dates| && n1 <= |dates|
    ensures |r.byDay| == 7
  {
    HeadwaySummary(
      HeadwayDirections(Bucket(q, 0, dates[..n0], None), Bucket(q, 1, dates[..n1], None)),
      seq(7, w => HeadwayDirections(Bucket(q, 0, dates[..n0], Some(w)), Bucket(q, 1, dates[..n1], Some(w)))))
  }

  /** `routeHeadways`: empty without a cache, else every date of both directions. */
  function RouteHeadwaysOf(routeId: int, dates: seq<Calendar.Date>, startTime: string, endTime: string,
                           cache: Option<RouteHeadway.RouteIndex>): (r: HeadwaySummary)
    ensures |r.byDay| == 7
  {
    if cache.None? then NewRouteHeadwaySummary()
    else
      var q := LegacyQuery(cache.value, routeId,
        LegacyDatetime.ParseHMS(Some(startTime)), LegacyDatetime.ParseHMS(Some(endTime)));
      SummaryAfter(q, dates, |dates|, |dates|)
  }

  lemma SummaryAfterNone(q: LegacyQuery, dates: seq<Calendar.Date>)
    ensures SummaryAfter(q, dates, 0, 0) == NewRouteHeadwaySummary()
  {
  }

  /**
   * One more date appends its sorted headways to the buckets it belongs
   * to: a bucket's list is the concatenation of per-date sorted lists,
   * not itself sorted.
   */
  lemma BucketStep(q: LegacyQuery, dir: int, dates: seq<Calendar.Date>, n: nat, day: Option<int>)
    requires n < |dates|
    ensures var d := dates[n];
      Bucket(q, dir, dates[..n + 1], day) ==
        if day.None? || Calendar.Weekday(d) == day.value
        then HeadwayDir(DateRepresentative(q, dir, d).stopId, Bucket(q, dir, dates[..n], day).headways + DateHeadways(q, dir, d))
        else Bucket(q, dir, dates[..n], day)
  {
    assert dates[..n + 1][..n] == dates[..n];
  }

  lemma DayOfSummary(q: LegacyQuery, dates: seq<Calendar.Date>, n0: nat, n1: nat, v: int)
    requires n0 <= |dates| && n1 <= |dates| && 0 <= v < 7
    ensures SummaryAfter(q, dates, n0, n1).byDay[v]
      == HeadwayDirections(Bucket(q, 0, dates[..n0], Some(v)), Bucket(q, 1, dates[..n1], Some(v)))
  {
  }

  /** One more date of one direction changes only the day bucket of its weekday. */
  lemma DayStep(q: LegacyQuery, dates: seq<Calendar.Date>, n0: nat, n1: nat, dir: int, v: int)
    requires dir == 0 || dir == 1
    requires n0 <= |dates| && n1 <= |dates| && 0 <= v < 7
    requires if dir == 0 then n0 < |dates| else n1 < |dates|
    ensures var n := if dir == 0 then n0 else n1;
      var d := dates[n];
      var cur := SummaryAfter(q, dates, n0, n1).byDay[v];
      SummaryAfter(q, dates, if dir == 0 then n0 + 1 else n0, if dir == 0 then n1 else n1 + 1).byDay[v]
      == if Calendar.Weekday(d) == v
         then SetDir(cur, dir, HeadwayDir(DateRepresentative(q, dir, d).stopId, GetDir(cur, dir).headways + DateHeadways(q, dir, d)))
         else cur
  {
    DayOfSummary(q, dates, n0, n1, v);
    if dir == 0 {
      DayOfSummary(q, dates, n0 + 1, n1, v);
      BucketStep(q, 0, dates, n0, Some(v));
    } else {
      DayOfSummary(q, dates, n0, n1 + 1, v);
      BucketStep(q, 1, dates, n1, Some(v));
    }
  }

  /** Adding the next date of one direction extends that direction of the total. */
  lemma TotalStep(q: LegacyQuery, dates: seq<Calendar.Date>, n0: nat, n1: nat, dir: int, stopId: int, headways: seq<int>)
    requires dir == 0 || dir == 1
    requires n0 <= |dates| && n1 <= |dates|
    requires if dir == 0 then n0 < |dates| else n1 < |dates|
    requires var d := dates[if dir == 0 then n0 else n1];
      stopId == DateRepresentative(q, dir, d).stopId && headways == DateHeadways(q, dir, d)
    ensures var s := SummaryAfter(q, dates, n0, n1).total;
      SummaryAfter(q, dates, if dir == 0 then n0 + 1 else n0, if dir == 0 then n1 else n1 + 1).total
      == SetDir(s, dir, HeadwayDir(stopId, GetDir(s, dir).headways + headways))
  {
    if dir == 0 {
      BucketStep(q, 0, dates, n0, None);
    } else {
      BucketStep(q, 1, dates, n1, None);
    }
  }

  /** The bucket of weekday `v` after one more date of one direction. */
  lemma ByDayAt(q: LegacyQuery, dates: seq<Calendar.Date>, n0: nat, n1: nat, dir: int, stopId: int, headways: seq<int>, v: int)
    requires dir == 0 || dir == 1
    requires n0 <= |dates| && n1 <= |dates| && 0 <= v < 7
    requires if dir == 0 then n0 < |dates| else n1 < |dates|
    requires var d := dates[if dir == 0 then n0 else n1];
      stopId == DateRepresentative(q, dir, d).stopId && headways == DateHeadways(q, dir, d)
    ensures var s := SummaryAfter(q, dates, n0, n1).byDay;
      var w := Calendar.Weekday(dates[if dir == 0 then n0 else n1]);
      SummaryAfter(q, dates, if dir == 0 then n0 + 1 else n0, if dir == 0 then n1 else n1 + 1).byDay[v]
      == s[w := SetDir(s[w], dir, HeadwayDir(stopId, GetDir(s[w], dir).headways + headways))][v]
  {
    DayStep(q, dates, n0, n1, dir, v);
  }

  /** Adding the next date of one direction extends that direction of its weekday's bucket only. */
  lemma ByDayStep(q: LegacyQuery, dates: seq<Calendar.Date>, n0: nat, n1: nat, dir: int, stopId: int, headways: seq<int>)
    requires dir == 0 || dir == 1
    requires n0 <= |dates| && n1 <= |dates|
    requires if dir == 0 then n0 < |dates| else n1 < |dates|
    requires var d := dates[if dir == 0 then n0 else n1];
      stopId == DateRepresentative(q, dir, d).stopId && headways == DateHeadways(q, dir, d)
    ensures var s := SummaryAfter(q, dates, n0, n1).byDay;
      var w := Calendar.Weekday(dates[if dir == 0 then n0 else n1]);
      SummaryAfter(q, dates, if dir == 0 then n0 + 1 else n0, if dir == 0 then n1 else n1 + 1).byDay
      == s[w := SetDir(s[w], dir, HeadwayDir(stopId, GetDir(s[w], dir).headways + headways))]
  {
    var s := SummaryAfter(q, dates, n0, n1).byDay;
    var s' := SummaryAfter(q, dates, if dir == 0 then n0 + 1 else n0, if dir == 0 then n1 else n1 + 1).byDay;
    var w := Calendar.Weekday(dates[if dir == 0 then n0 else n1]);
    var byDay := s[w := SetDir(s[w], dir, HeadwayDir(stopId, GetDir(s[w], dir).headways + headways))];
    forall v | 0 <= v < 7
      ensures s'[v] == byDay[v]
    {
      ByDayAt(q, dates, n0, n1, dir, stopId, headways, v);
    }
    SameElements(s', byDay);
  }

  lemma SameElements<T>(a: seq<T>, b: seq<T>)
    requires |a| == |b| && forall v :: 0 <= v < |a| ==> a[v] == b[v]
    ensures a == b
  {
  }

  /** Adding the next date of one direction updates its total and its weekday bucket only. */
  lemma SummaryStep(q: LegacyQuery, dates: seq<Calendar.Date>, n0: nat, n1: nat, dir: int, stopId: int, headways: seq<int>)
    requires dir == 0 || dir == 1
    requires n0 <= |dates| && n1 <= |dates|
    requires if dir == 0 then n0 < |dates| else n1 < |dates|
    requires var d := dates[if dir == 0 then n0 else n1];
      stopId == DateRepresentative(q, dir, d).stopId && headways == DateHeadways(q, dir, d)
    ensures var n := if dir == 0 then n0 else n1;
      var s := SummaryAfter(q, dates, n0, n1);
      var w := Calendar.Weekday(dates[n]);
      var total := GetDir(s.total, dir);
      var day := GetDir(s.byDay[w], dir);
      SummaryAfter(q, dates, if dir == 0 then n0 + 1 else n0, if dir == 0 then n1 else n1 + 1)
      == s.(total := SetDir(s.total, dir, HeadwayDir(stopId, total.headways + headways)),
            byDay := s.byDay[w := SetDir(s.byDay[w], dir, HeadwayDir(stopId, day.headways + headways))])
  {
    TotalStep(q, dates, n0, n1, dir, stopId, headways);
    ByDayStep(q, dates, n0, n1, dir, stopId, headways);
  }

  /**
   * `routeHeadways` (src/route.ts): for each direction and date, pick the
   * representative stop, sort its in-window departures, take the gaps
   * between consecutive ones, sort those, and append them to the total
   * and to the date's weekday bucket.
   */
  method RouteHeadways(routeId: int, dates: seq<Calendar.Date>, startTime: string, endTime: string,
                       cache: Option<RouteHeadway.RouteIndex>) returns (result: HeadwaySummary)
    ensures result == RouteHeadwaysOf(routeId, dates, startTime, endTime, cache)
  {
    result := NewRouteHeadwaySummary();
    if cache.None? {
      return;
    }
    var startSecs := LegacyDatetime.ParseHMS(Some(startTime));
    var endSecs := LegacyDatetime.ParseHMS(Some(endTime));
    var q := LegacyQuery(cache.value, routeId, startSecs, endSecs);
    SummaryAfterNone(q, dates);
    for dir := 0 to 2
      invariant result == SummaryAfter(q, dates, if dir == 0 then 0 else |dates|, if dir <= 1 then 0 else |dates|)
    {
      for i := 0 to |dates|
        invariant result == SummaryAfter(q, dates, if dir == 0 then i else |dates|, if dir == 0 then 0 else i)
      {
        var d := dates[i];
        var stopId, stopDepartures := RouteHeadway.PickRepresentative(
          RouteHeadway.GetRouteDate(cache.value, routeId, dir, Calendar.FmtDate(d)));
        var stSecs := Sort(Window(stopDepartures, startSecs, endSecs));
        var headways := ComputeGaps(stSecs);
        headways := Sort(headways);
        SummaryStep(q, dates, if dir == 0 then i else |dates|, if dir == 0 then 0 else i, dir, stopId, headways);
        var resultDir := GetDir(result.total, dir);
        result := result.(total := SetDir(result.total, dir, HeadwayDir(stopId, resultDir.headways + headways)));
        var w := Calendar.Weekday(d);
        var dayDir := GetDir(result.byDay[w], dir);
        result := result.(byDay := result.byDay[w := SetDir(result.byDay[w], dir, HeadwayDir(stopId, dayDir.headways + headways))]);
      }
    }
  }

  /** Without a cache every bucket of both directions is empty with stop 0. */
  lemma NoCacheEmpty(routeId: int, dates: seq<Calendar.Date>, startTime: string, endTime: string)
    ensures var r := RouteHeadwaysOf(routeId, dates, startTime, endTime, None);
      && r.total == HeadwayDirections(HeadwayDir(0, []), HeadwayDir(0, []))
      && forall w :: 0 <= w < 7 ==> r.byDay[w] == HeadwayDirections(HeadwayDir(0, []), HeadwayDir(0, []))
  {
  }

  /** A window bound that does not parse to a number (NaN) leaves every headway list empty. */
  lemma {:induction false} NaNWindowEmpty(q: LegacyQuery, dir: int, dates: seq<Calendar.Date>, day: Option<int>)
    requires q.start.NaN? || q.end.NaN?
    ensures Bucket(q, dir, dates, day).headways == []
  {
    if dates != [] {
      NaNWindowEmpty(q, dir, dates[..|dates| - 1], day);
      assert DateSeconds(q, dir, dates[|dates| - 1]) == [];
    }
  }

  //////////////////////////////////////////////////////////////////////
  // Frequencies
  //////////////////////////////////////////////////////////////////////

  /** A route's average, fastest and slowest headway in seconds; `None` is `null`. */
  datatype Frequencies = Frequencies(average: Option<real>, fastest: Option<int>, slowest: Option<int>)

  /** The headways `routeSetDerived` reads: direction 1's only when it has strictly more. */
  function BusierHeadways(total: HeadwayDirections): (hw: seq<int>)
    ensures |hw| >= |total.dir0.headways| && |hw| >= |total.dir1.headways|
    ensures |total.dir1.headways| <= |total.dir0.headways| ==> hw == total.dir0.headways
    ensures hw == total.dir0.headways || hw == total.dir1.headways
  {
    if |total.dir1.headways| > |total.dir0.headways| then total.dir1.headways else total.dir0.headways
  }

  /** The mean of a non-empty list of headways. */
  function Mean(hw: seq<int>): real
    requires |hw| > 0
  {
    Sum(hw) as real / |hw| as real
  }

  /**
   * The frequencies as src/route.ts:143-151 computes them: the mean, and
   * the first and last headway of the list as fastest and slowest.
   */
  function FrequenciesAsWritten(hw: seq<int>): (f: Frequencies)
    ensures hw == [] <==> f == Frequencies(None, None, None)
    ensures hw != [] ==> f.fastest == Some(hw[0]) && f.slowest == Some(hw[|hw| - 1])
  {
    if |hw| > 0 then Frequencies(Some(Mean(hw)), Some(hw[0]), Some(hw[|hw| - 1]))
    else Frequencies(None, None, None)
  }

  /**
   * The frequencies as intended: the mean, the shortest headway and the
   * longest; all `null` when there are no headways.
   */
  function FrequenciesOf(hw: seq<int>): (f: Frequencies)
    ensures hw == [] <==> f == Frequencies(None, None, None)
    ensures hw != [] ==> f.average == Some(Mean(hw)) && f.fastest.Some? && f.slowest.Some?
  {
    if |hw| > 0 then
      var hs := Sort(hw);
      Frequencies(Some(Mean(hw)), Some(hs[0]), Some(hs[|hs| - 1]))
    else Frequencies(None, None, None)
  }

  /**
   * Fastest is the least headway and slowest the greatest, both among the
   * headways, and the average lies between them.
   */
  lemma FrequenciesBounds(hw: seq<int>)
    requires hw != []
    ensures var f := FrequenciesOf(hw);
      && f.fastest.value in hw && f.slowest.value in hw
      && (forall k :: 0 <= k < |hw| ==> f.fastest.value <= hw[k] <= f.slowest.value)
      && f.fastest.value as real <= f.average.value <= f.slowest.value as real
  {
    var hs := Sort(hw);
    var lo, hi := hs[0], hs[|hs| - 1];
    RouteHeadway.SortExtremes(hw);
    assert Within(hw, lo, hi);
    MeanWithin(hw, lo, hi);
    assert FrequenciesOf(hw) == Frequencies(Some(Mean(hw)), Some(lo), Some(hi));
  }

  /** The mean of headways that all lie between lo and hi lies between them too. */
  lemma MeanWithin(hw: seq<int>, lo: int, hi: int)
    requires hw != [] && Within(hw, lo, hi)
    ensures lo as real <= Mean(hw) <= hi as real
  {
    SumBounds(hw, lo, hi);
    RouteHeadway.MeanBetween(lo, hi, Sum(hw), |hw|);
  }

  /** On an ascending list the first and last elements are the extremes, so both definitions agree. */
  lemma AsWrittenAgreesWhenSorted(hw: seq<int>)
    requires Sorted(hw)
    ensures FrequenciesAsWritten(hw) == FrequenciesOf(hw)
  {
    SortedUnique(Sort(hw), hw);
  }

  /** With a single date the total is that date's ascending list, so first and last are the extremes. */
  lemma SingleDateAgrees(q: LegacyQuery, dir: int, d: Calendar.Date)
    ensures var hw := Bucket(q, dir, [d], None).headways;
      FrequenciesAsWritten(hw) == FrequenciesOf(hw)
  {
    BucketStep(q, dir, [d], 0, None);
    assert [d][..0] == [];
    assert Bucket(q, dir, [d], None).headways == DateHeadways(q, dir, d);
    AsWrittenAgreesWhenSorted(DateHeadways(q, dir, d));
  }

  /** A date whose one stop departs at 0 s and at g s, over a whole-day window, has the single headway g. */
  lemma OneGapDate(q: LegacyQuery, dir: int, d: Calendar.Date, g: int)
    requires 0 < g <= 86400
    requires q.start == LegacyDatetime.Int(0) && q.end == LegacyDatetime.Int(86400)
    requires RouteHeadway.GetRouteDate(q.index, q.routeId, dir, Calendar.FmtDate(d)) == [RouteHeadway.StopDepartures(7, [0, g])]
    ensures DateRepresentative(q, dir, d).stopId == 7
    ensures DateHeadways(q, dir, d) == [g]
  {
    OneStopRepresentative(RouteHeadway.GetRouteDate(q.index, q.routeId, dir, Calendar.FmtDate(d)), 7, [0, g]);
    WholeDayKeepsBoth(g);
    OneGapHeadways(DateSeconds(q, dir, d), DateHeadways(q, dir, d), g);
  }

  lemma OneStopRepresentative(entries: seq<RouteHeadway.StopDepartures>, stopId: int, deps: seq<int>)
    requires entries == [RouteHeadway.StopDepartures(stopId, deps)] && deps != []
    ensures RouteHeadway.Representative(entries) == RouteHeadway.StopDepartures(stopId, deps)
  {
    assert entries[..0] == [];
  }

  /** The ascending gaps of [0, g] are [g]. */
  lemma OneGapHeadways(st: seq<int>, hw: seq<int>, g: int)
    requires st == [0, g]
    requires Sorted(hw) && multiset(hw) == multiset(Gaps(st))
    ensures hw == [g]
  {
    assert Gaps([0, g]) == [g] by { assert [0, g][..1] == [0]; }
    SortedUnique(hw, [g]);
  }

  lemma WholeDayKeepsBoth(g: int)
    requires 0 < g <= 86400
    ensures Sort(Window([0, g], LegacyDatetime.Int(0), LegacyDatetime.Int(86400))) == [0, g]
  {
    assert Window([0, g], LegacyDatetime.Int(0), LegacyDatetime.Int(86400)) == RouteHeadway.InWindow([0, g], 0, 86400);
    InWindowPair(0, g, 0, 86400);
    SortPair(0, g);
  }

  /** Two ascending numbers sort to themselves. */
  lemma SortPair(a: int, b: int)
    requires a <= b
    ensures Sort([a, b]) == [a, b]
  {
    SortedUnique(Sort([a, b]), [a, b]);
  }

  /** Two departures that both lie in the window are both kept, in order. */
  lemma InWindowPair(a: int, b: int, lo: int, hi: int)
    requires lo <= a <= hi && lo <= b <= hi
    ensures RouteHeadway.InWindow([a, b], lo, hi) == [a, b]
  {
    assert [a, b][..1] == [a];
    assert [a][..0] == [];
    assert RouteHeadway.InWindow([a], lo, hi) == RouteHeadway.InWindow([], lo, hi) + [a];
    assert RouteHeadway.InWindow([a, b], lo, hi) == RouteHeadway.InWindow([a], lo, hi) + [b];
  }

  /**
   * The input that shows it: two dates, one stop departing at 0 s and
   * 600 s on the first and at 0 s and 300 s on the second, and the
   * window "0:0:0" to "24:0:0".  The total is [600, 300], so as written fastest is
   * 600 and slowest 300, while the shortest headway is 300 and the
   * longest 600.
   */
  lemma FirstLastNotExtremes(routeId: int, d1: Calendar.Date, d2: Calendar.Date)
    requires Calendar.FmtDate(d1) != Calendar.FmtDate(d2)
    ensures var hw := RouteHeadwaysOf(routeId, [d1, d2], CoreDatetime.HMS(0, 0, 0), CoreDatetime.HMS(24, 0, 0),
                                      Some(ExampleIndex(routeId, d1, d2))).total.dir0.headways;
      && hw == [600, 300]
      && FrequenciesAsWritten(hw) == Frequencies(Some(450.0), Some(600), Some(300))
      && FrequenciesOf(hw) == Frequencies(Some(450.0), Some(300), Some(600))
  {
    ExampleTotal(routeId, d1, d2);
    var hw: seq<int> := [600, 300];
    TwoHeadways(600, 300);
    assert Mean(hw) == 450.0;
  }

  /** The total of direction 0 in the example. */
  lemma ExampleTotal(routeId: int, d1: Calendar.Date, d2: Calendar.Date)
    requires Calendar.FmtDate(d1) != Calendar.FmtDate(d2)
    ensures RouteHeadwaysOf(routeId, [d1, d2], CoreDatetime.HMS(0, 0, 0), CoreDatetime.HMS(24, 0, 0),
                            Some(ExampleIndex(routeId, d1, d2))).total.dir0.headways == [600, 300]
  {
    var index := ExampleIndex(routeId, d1, d2);
    ExampleBucket(routeId, d1, d2);
    TotalOfCache(routeId, [d1, d2], CoreDatetime.HMS(0, 0, 0), CoreDatetime.HMS(24, 0, 0), index);
    WholeDayTime(0);
    WholeDayTime(24);
  }

  /** "h:0:0" reads as h hours in seconds. */
  lemma WholeDayTime(h: nat)
    ensures LegacyDatetime.ParseHMS(Some(CoreDatetime.HMS(h, 0, 0))) == LegacyDatetime.Int(h * 3600)
  {
    LegacyDatetime.ParseHMSOfFields(h, 0, 0);
  }

  lemma ExampleBucket(routeId: int, d1: Calendar.Date, d2: Calendar.Date)
    requires Calendar.FmtDate(d1) != Calendar.FmtDate(d2)
    ensures Bucket(LegacyQuery(ExampleIndex(routeId, d1, d2), routeId, LegacyDatetime.Int(0), LegacyDatetime.Int(86400)),
                   0, [d1, d2], None).headways == [600, 300]
  {
    var q := LegacyQuery(ExampleIndex(routeId, d1, d2), routeId, LegacyDatetime.Int(0), LegacyDatetime.Int(86400));
    ExampleLookups(routeId, d1, d2);
    TwoOneGapDates(q, d1, d2, 600, 300);
  }

  /** Two dates of one stop each, departing at 0 s and at g1 or g2 s, give the total [g1, g2] in date order. */
  lemma TwoOneGapDates(q: LegacyQuery, d1: Calendar.Date, d2: Calendar.Date, g1: int, g2: int)
    requires 0 < g1 <= 86400 && 0 < g2 <= 86400
    requires q.start == LegacyDatetime.Int(0) && q.end == LegacyDatetime.Int(86400)
    requires RouteHeadway.GetRouteDate(q.index, q.routeId, 0, Calendar.FmtDate(d1)) == [RouteHeadway.StopDepartures(7, [0, g1])]
    requires RouteHeadway.GetRouteDate(q.index, q.routeId, 0, Calendar.FmtDate(d2)) == [RouteHeadway.StopDepartures(7, [0, g2])]
    ensures Bucket(q, 0, [d1, d2], None).headways == [g1, g2]
  {
    OneGapDate(q, 0, d1, g1);
    OneGapDate(q, 0, d2, g2);
    TwoDatesTotal(q, d1, d2);
    PairOfSingles(DateHeadways(q, 0, d1), DateHeadways(q, 0, d2), g1, g2);
  }

  lemma PairOfSingles<T>(a: seq<T>, b: seq<T>, x: T, y: T)
    requires a == [x] && b == [y]
    ensures a + b == [x, y]
  {
  }

  /** With a cache, the total of direction 0 is its bucket over every date. */
  lemma TotalOfCache(routeId: int, dates: seq<Calendar.Date>, startTime: string, endTime: string,
                     index: RouteHeadway.RouteIndex)
    ensures RouteHeadwaysOf(routeId, dates, startTime, endTime, Some(index)).total.dir0
      == Bucket(LegacyQuery(index, routeId, LegacyDatetime.ParseHMS(Some(startTime)), LegacyDatetime.ParseHMS(Some(endTime))),
                0, dates, None)
  {
    assert dates[..|dates|] == dates;
  }

  /** The index of the example: one stop on each date, in direction 0. */
  function ExampleIndex(routeId: int, d1: Calendar.Date, d2: Calendar.Date): RouteHeadway.RouteIndex
  {
    RouteHeadway.RouteIndex(map[
      RouteHeadway.RouteDirDate(routeId, false, Calendar.FmtDate(d1)) := [RouteHeadway.StopDepartures(7, [0, 600])],
      RouteHeadway.RouteDirDate(routeId, false, Calendar.FmtDate(d2)) := [RouteHeadway.StopDepartures(7, [0, 300])]])
  }

  lemma ExampleLookups(routeId: int, d1: Calendar.Date, d2: Calendar.Date)
    requires Calendar.FmtDate(d1) != Calendar.FmtDate(d2)
    ensures RouteHeadway.GetRouteDate(ExampleIndex(routeId, d1, d2), routeId, 0, Calendar.FmtDate(d1))
      == [RouteHeadway.StopDepartures(7, [0, 600])]
    ensures RouteHeadway.GetRouteDate(ExampleIndex(routeId, d1, d2), routeId, 0, Calendar.FmtDate(d2))
      == [RouteHeadway.StopDepartures(7, [0, 300])]
  {
  }

  /** Two dates with one headway each give their two headways in date order. */
  lemma TwoDatesTotal(q: LegacyQuery, d0: Calendar.Date, d1: Calendar.Date)
    ensures Bucket(q, 0, [d0, d1], None).headways == DateHeadways(q, 0, d0) + DateHeadways(q, 0, d1)
  {
    BucketOne(q, 0, d0);
    BucketSnocAll(q, 0, [d0], d1);
    PairOfSingles([d0], [d1], d0, d1);
  }

  lemma BucketSnocAll(q: LegacyQuery, dir: int, dates: seq<Calendar.Date>, d: Calendar.Date)
    ensures Bucket(q, dir, dates + [d], None).headways == Bucket(q, dir, dates, None).headways + DateHeadways(q, dir, d)
  {
    assert (dates + [d])[..|dates|] == dates;
  }

  lemma BucketOne(q: LegacyQuery, dir: int, d: Calendar.Date)
    ensures Bucket(q, dir, [d], None).headways == DateHeadways(q, dir, d)
  {
    assert [d][..0] == [];
    assert [] + DateHeadways(q, dir, d) == DateHeadways(q, dir, d);
  }

  /** Both readings of a two-element list whose first headway is the longer one. */
  lemma TwoHeadways(long: int, short: int)
    requires short < long
    ensures FrequenciesAsWritten([long, short]).fastest == Some(long)
    ensures FrequenciesAsWritten([long, short]).slowest == Some(short)
    ensures FrequenciesOf([long, short]).fastest == Some(short)
    ensures FrequenciesOf([long, short]).slowest == Some(long)
    ensures Mean([long, short]) == (long + short) as real / 2.0
  {
    SortedUnique(Sort([long, short]), [short, long]);
    var s := [long, short];
    assert s[..1] == [long];
    assert [long][..0] == [];
    assert Sum([long]) == long;
    assert Sum(s) == long + short;
  }

  //////////////////////////////////////////////////////////////////////
  // Marking
  //////////////////////////////////////////////////////////////////////

  /** JavaScript truthiness of `route.average_frequency`: present and not 0. */
  predicate Truthy(average: Option<real>)
  {
    average.Some? && average.value != 0.0
  }

  /**
   * Whether `routeMarked` keeps a route: an empty list of route types or
   * agencies is no filter, and each frequency bound applies only with a
   * cache and a bound >= 0, needing a truthy average on its side of
   * `minutes * 60`.
   */
  predicate RouteMarks(routeType: int, agencyName: string, average: Option<real>,
                       routeTypes: seq<int>, agencies: seq<string>, frequencyUnder: real, frequencyOver: real,
                       hasCache: bool)
  {
    && (|routeTypes| == 0 || routeType in routeTypes)
    && (|agencies| == 0 || agencyName in agencies)
    && (hasCache && frequencyOver >= 0.0 ==> Truthy(average) && average.value >= frequencyOver * 60.0)
    && (hasCache && frequencyUnder >= 0.0 ==> Truthy(average) && average.value <= frequencyUnder * 60.0)
  }

  /** A route feature with the fields the filter reads and those `routeSetDerived` sets. */
  class Route {
    const id: int
    const routeType: int
    const agencyName: string
    var averageFrequency: Option<real>
    var fastestFrequency: Option<int>
    var slowestFrequency: Option<int>
    var marked: bool

    /** A route before filtering: marked, with no frequencies. */
    constructor (id: int, routeType: int, agencyName: string)
      ensures this.id == id && this.routeType == routeType && this.agencyName == agencyName
      ensures marked && Frequencies(averageFrequency, fastestFrequency, slowestFrequency) == Frequencies(None, None, None)
    {
      this.id := id;
      this.routeType := routeType;
      this.agencyName := agencyName;
      averageFrequency := None;
      fastestFrequency := None;
      slowestFrequency := None;
      marked := true;
    }

    function FrequencyFields(): Frequencies
      reads this
    {
      Frequencies(averageFrequency, fastestFrequency, slowestFrequency)
    }
  }

  /** `routeMarked`: the filters in turn, each returning false as soon as it fails. */
  method RouteMarked(route: Route, routeTypes: seq<int>, agencies: seq<string>,
                     frequencyUnder: real, frequencyOver: real, hasCache: bool) returns (marked: bool)
    ensures marked == RouteMarks(route.routeType, route.agencyName, route.averageFrequency,
                                 routeTypes, agencies, frequencyUnder, frequencyOver, hasCache)
  {
    if |routeTypes| > 0 {
      if route.routeType !in routeTypes {
        return false;
      }
    }
    if |agencies| > 0 {
      if route.agencyName !in agencies {
        return false;
      }
    }
    var average := route.averageFrequency;
    if hasCache && frequencyOver >= 0.0 {
      if average.None? || average.value == 0.0 || average.value < frequencyOver * 60.0 {
        return false;
      }
    }
    if hasCache && frequencyUnder >= 0.0 {
      if average.None? || average.value == 0.0 || average.value > frequencyUnder * 60.0 {
        return false;
      }
    }
    return true;
  }

  /**
   * Empty lists select nothing out, and a negative bound (the −1
   * sentinel) or a missing cache switches the frequency filters off.
   */
  lemma NoFilters(routeType: int, agencyName: string, average: Option<real>,
                  frequencyUnder: real, frequencyOver: real, hasCache: bool)
    requires !hasCache || (frequencyUnder < 0.0 && frequencyOver < 0.0)
    ensures RouteMarks(routeType, agencyName, average, [], [], frequencyUnder, frequencyOver, hasCache)
  {
  }

  /**
   * A bound of 0 is active: with a cache it unmarks a route whose average
   * is missing or 0, which the −1 sentinel does not.
   */
  lemma ZeroBoundIsActive(routeType: int, agencyName: string, routeTypes: seq<int>, agencies: seq<string>,
                          frequencyUnder: real, average: Option<real>)
    requires !Truthy(average)
    ensures !RouteMarks(routeType, agencyName, average, routeTypes, agencies, frequencyUnder, 0.0, true)
    ensures RouteMarks(routeType, agencyName, average, [], [], -1.0, -1.0, true)
  {
  }

  /** A marked route under both active bounds has its average between them. */
  lemma MarkedWithinBounds(routeType: int, agencyName: string, average: Option<real>,
                           routeTypes: seq<int>, agencies: seq<string>, frequencyUnder: real, frequencyOver: real)
    requires frequencyUnder >= 0.0 && frequencyOver >= 0.0
    requires RouteMarks(routeType, agencyName, average, routeTypes, agencies, frequencyUnder, frequencyOver, true)
    ensures average.Some? && frequencyOver * 60.0 <= average.value <= frequencyUnder * 60.0
  {
  }

  /** Lowering the lower bound or raising the upper one never unmarks a route. */
  lemma LooserBoundsKeepMarked(routeType: int, agencyName: string, average: Option<real>,
                               routeTypes: seq<int>, agencies: seq<string>,
                               under: real, over: real, under': real, over': real, hasCache: bool)
    requires RouteMarks(routeType, agencyName, average, routeTypes, agencies, under, over, hasCache)
    requires over' <= over && under' >= under
    requires over' < 0.0 || over >= 0.0
    requires under' < 0.0 || under >= 0.0
    ensures RouteMarks(routeType, agencyName, average, routeTypes, agencies, under', over', hasCache)
  {
  }

  /**
   * `routeSetDerived` (src/route.ts): with a cache, the frequencies are
   * taken from the busier direction's headways over the selected dates;
   * without one they stay as they were.  Then the route is marked or not
   * by `routeMarked`.  The fastest and slowest frequencies are the
   * shortest and longest headway (see `FrequenciesAsWritten` for the
   * first-and-last reading of the code).
   */
  method RouteSetDerived(route: Route, dates: seq<Calendar.Date>, startTime: string, endTime: string,
                         routeTypes: seq<int>, agencies: seq<string>, frequencyUnder: real, frequencyOver: real,
                         cache: Option<RouteHeadway.RouteIndex>)
    modifies route
    ensures cache.None? ==> route.FrequencyFields() == old(route.FrequencyFields())
    ensures cache.Some? ==>
      route.FrequencyFields() == FrequenciesOf(BusierHeadways(RouteHeadwaysOf(route.id, dates, startTime, endTime, cache).total))
    ensures route.marked == RouteMarks(route.routeType, route.agencyName, route.averageFrequency,
                                       routeTypes, agencies, frequencyUnder, frequencyOver, cache.Some?)
  {
    if cache.Some? {
      var headwayResult := RouteHeadways(route.id, dates, startTime, endTime, cache);
      var hwTotal := headwayResult.total;
      var hw := hwTotal.dir0.headways;
      if |hwTotal.dir1.headways| > |hwTotal.dir0.headways| {
        hw := hwTotal.dir1.headways;
      }
      SetFrequencies(route, hw);
    }
    route.marked := RouteMarked(route, routeTypes, agencies, frequencyUnder, frequencyOver, cache.Some?);
  }

  /** The frequency assignments of `routeSetDerived`: mean and extremes, or all three `null`. */
  method SetFrequencies(route: Route, hw: seq<int>)
    modifies route
    ensures route.FrequencyFields() == FrequenciesOf(hw)
  {
    if |hw| > 0 {
      var sorted := Sort(hw);
      route.averageFrequency := Some(Sum(hw) as real / |hw| as real);
      route.fastestFrequency := Some(sorted[0]);
      route.slowestFrequency := Some(sorted[|sorted| - 1]);
    } else {
      route.averageFrequency := None;
      route.fastestFrequency := None;
      route.slowestFrequency := None;
    }
  }
}
