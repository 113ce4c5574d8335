/**
 * The Python reference implementation of the WSDOT classifier
 * (docs/wsdot-python/wsdot.py).
 *
 * The transit_service_analyst outputs it reads are given tables: stop
 * rows with per-hour trip columns `hour_5` .. `hour_28`, route/direction
 * rows with per-hour columns or total trips and a representative trip, and
 * the stops of each representative trip.  pandas frames are sequences of
 * rows; an inner merge on `stop_id` keeps the left order and repeats a
 * left row once per matching right row.
 */
module WsdotPython {
  import opened Wrappers

  type Column = string

  /** A row of `get_tph_at_stops()`. */
  datatype StopTph = StopTph(stopId: string, tph: map<Column, int>)

  /**
   * A row of `get_tph_by_line()` (hour columns) or of
   * `get_total_trips_by_line()` (the single column `total_trips`).
   */
  datatype LineRow = LineRow(routeId: string, directionId: int, repTripId: string, values: map<Column, int>)

  /** A row of `get_line_stops_gdf()`. */
  datatype LineStop = LineStop(tripId: string, stopId: string)

  /** A row of `service.stops[["stop_id", "stop_lat", "stop_lon"]]`. */
  datatype StopCoord = StopCoord(stopId: string, lat: real, lon: real)

  /** The tables of one loaded feed. */
  datatype Service = Service(
    tphAtStops: seq<StopTph>,
    tphByLine: seq<LineRow>,
    totalTripsByLine: seq<LineRow>,
    lineStops: seq<LineStop>,
    stops: seq<StopCoord>)

  datatype TimeConfig = TimeConfig(hours: seq<Column>, minTph: int, minTotal: int)
  datatype NightSegment = NightSegment(hours: seq<Column>, minTotal: int)

  datatype LevelConfig = LevelConfig(
    peak: Option<TimeConfig>,
    extended: Option<TimeConfig>,
    weekend: Option<TimeConfig>,
    nightSegments: Option<seq<NightSegment>>,
    totalTripsThreshold: Option<int>,
    weekendRequired: bool,
    levelColumn: string)

  // ---------------------------------------------------------------------
  // Sequences as frames

  /** The rows of `xs` that satisfy `p`, in order (boolean indexing). */
  function Filter<T(!new)>(xs: seq<T>, p: T -> bool): (r: seq<T>)
    ensures |r| <= |xs|
    ensures forall x :: x in r <==> x in xs && p(x)
  {
    if xs == [] then []
    else
      var rest := Filter(xs[..|xs| - 1], p);
      assert forall x :: x in xs <==> x in xs[..|xs| - 1] || x == xs[|xs| - 1];
      if p(xs[|xs| - 1]) then rest + [xs[|xs| - 1]] else rest
  }

  /** Filters with predicates that agree on `xs` keep the same rows. */
  lemma {:induction false} FilterAgree<T(!new)>(xs: seq<T>, p: T -> bool, q: T -> bool)
    requires forall x :: x in xs ==> p(x) == q(x)
    ensures Filter(xs, p) == Filter(xs, q)
  {
    if xs != [] {
      FilterAgree(xs[..|xs| - 1], p, q);
    }
  }

  /** Filtering twice keeps the rows that pass both filters. */
  lemma {:induction false} FilterFilter<T(!new)>(xs: seq<T>, p: T -> bool, q: T -> bool)
    ensures Filter(Filter(xs, p), q) == Filter(xs, x => p(x) && q(x))
  {
    if xs != [] {
      var ys := xs[..|xs| - 1];
      var x := xs[|xs| - 1];
      FilterFilter(ys, p, q);
      if p(x) {
        assert (Filter(ys, p) + [x])[..|Filter(ys, p)|] == Filter(ys, p);
      }
    }
  }

  /** How often `x` occurs in `xs`. */
  function Occurrences<T(==)>(xs: seq<T>, x: T): nat
  {
    if xs == [] then 0 else Occurrences(xs[..|xs| - 1], x) + (if xs[|xs| - 1] == x then 1 else 0)
  }

  lemma {:induction false} OccurrencesPositive<T>(xs: seq<T>, x: T)
    ensures x in xs <==> Occurrences(xs, x) > 0
  {
    if xs != [] {
      OccurrencesPositive(xs[..|xs| - 1], x);
      assert xs == xs[..|xs| - 1] + [xs[|xs| - 1]];
    }
  }

  function Repeat<T>(x: T, n: nat): (r: seq<T>)
    ensures |r| == n
    ensures forall i :: 0 <= i < n ==> r[i] == x
  {
    if n == 0 then [] else Repeat(x, n - 1) + [x]
  }

  /** `left.merge(right, how='inner', on='stop_id')` on stop-id columns. */
  function InnerMerge(left: seq<string>, right: seq<string>): seq<string>
  {
    if left == [] then []
    else
      var l := left[|left| - 1];
      InnerMerge(left[..|left| - 1], right) + Repeat(l, Occurrences(right, l))
  }

  lemma RepeatOccurrences<T>(x: T, n: nat, y: T)
    ensures Occurrences(Repeat(x, n), y) == if x == y then n else 0
  {
    if n > 0 {
      assert Repeat(x, n)[..n - 1] == Repeat(x, n - 1);
    }
  }

  lemma {:induction false} OccurrencesAppend<T>(a: seq<T>, b: seq<T>, y: T)
    ensures Occurrences(a + b, y) == Occurrences(a, y) + Occurrences(b, y)
  {
    if b != [] {
      var b' := b[..|b| - 1];
      OccurrencesAppend(a, b', y);
      assert (a + b)[..|a + b| - 1] == a + b';
    } else {
      assert a + b == a;
    }
  }

  /** An inner merge repeats each key as often as the product of its counts on both sides. */
  lemma {:induction false} InnerMergeOccurrences(left: seq<string>, right: seq<string>, x: string)
    ensures Occurrences(InnerMerge(left, right), x) == Occurrences(left, x) * Occurrences(right, x)
  {
    if left != [] {
      var l := left[|left| - 1];
      InnerMergeOccurrences(left[..|left| - 1], right, x);
      OccurrencesAppend(InnerMerge(left[..|left| - 1], right), Repeat(l, Occurrences(right, l)), x);
      RepeatOccurrences(l, Occurrences(right, l), x);
      var a := Occurrences(left[..|left| - 1], x);
      var d := if l == x then 1 else 0;
      var c := Occurrences(right, x);
      assert Occurrences(left, x) == a + d;
      Distribute(a, d, c);
    }
  }

  lemma Distribute(a: nat, d: nat, c: nat)
    ensures (a + d) * c == a * c + d * c
  {
  }

  /** So a key survives an inner merge iff it is on both sides. */
  lemma InnerMergeMember(left: seq<string>, right: seq<string>, x: string)
    ensures x in InnerMerge(left, right) <==> x in left && x in right
  {
    InnerMergeOccurrences(left, right, x);
    OccurrencesPositive(InnerMerge(left, right), x);
    OccurrencesPositive(left, x);
    OccurrencesPositive(right, x);
  }

  /** `drop_duplicates(subset=['stop_id'])`: the first occurrence of each id, in order. */
  function DropDuplicates(xs: seq<string>): (r: seq<string>)
    ensures forall x :: x in r <==> x in xs
    ensures forall i, j :: 0 <= i < j < |r| ==> r[i] != r[j]
  {
    if xs == [] then []
    else
      var p := DropDuplicates(xs[..|xs| - 1]);
      var x := xs[|xs| - 1];
      assert forall y :: y in xs <==> y in xs[..|xs| - 1] || y == x;
      if x in p then p else p + [x]
  }

  /** The `stop_id` column of a frame of stop rows. */
  function StopIdsOf(rows: seq<StopTph>): (ids: seq<string>)
    ensures |ids| == |rows|
    ensures forall i :: 0 <= i < |rows| ==> ids[i] == rows[i].stopId
  {
    seq(|rows|, i requires 0 <= i < |rows| => rows[i].stopId)
  }

  /** The `stop_id` column of a frame of line stops. */
  function LineStopIds(rows: seq<LineStop>): (ids: seq<string>)
    ensures |ids| == |rows|
    ensures forall i :: 0 <= i < |rows| ==> ids[i] == rows[i].stopId
  {
    seq(|rows|, i requires 0 <= i < |rows| => rows[i].stopId)
  }

  lemma StopIdsMember(rows: seq<StopTph>, id: string)
    ensures id in StopIdsOf(rows) <==> exists row :: row in rows && row.stopId == id
  {
    if id in StopIdsOf(rows) {
      var i :| 0 <= i < |rows| && StopIdsOf(rows)[i] == id;
      assert rows[i] in rows;
    }
  }

  lemma LineStopIdsMember(rows: seq<LineStop>, id: string)
    ensures id in LineStopIds(rows) <==> exists s :: s in rows && s.stopId == id
  {
    if id in LineStopIds(rows) {
      var i :| 0 <= i < |rows| && LineStopIds(rows)[i] == id;
      assert rows[i] in rows;
    }
  }

  // ---------------------------------------------------------------------
  // Hour columns

  /** The value of column `h` of a row. */
  function Cell(values: map<Column, int>, h: Column): int
  {
    if h in values then values[h] else 0
  }

  /** Every listed column exists (pandas raises `KeyError` otherwise). */
  predicate HasColumns(values: map<Column, int>, hours: seq<Column>)
  {
    forall h :: h in hours ==> h in values
  }

  /** `frame[hours].sum(axis=1)` on one row. */
  function RowSum(values: map<Column, int>, hours: seq<Column>): int
  {
    if hours == [] then 0 else RowSum(values, hours[..|hours| - 1]) + Cell(values, hours[|hours| - 1])
  }

  predicate AllAtLeast(values: map<Column, int>, hours: seq<Column>, minTph: int)
  {
    forall i :: 0 <= i < |hours| ==> Cell(values, hours[i]) >= minTph
  }

  /** A row meets a time window: every listed hour and the window total. */
  predicate Passes(values: map<Column, int>, c: TimeConfig)
  {
    AllAtLeast(values, c.hours, c.minTph) && RowSum(values, c.hours) >= c.minTotal
  }

  lemma {:induction false} RowSumAtLeast(values: map<Column, int>, hours: seq<Column>, m: int)
    requires AllAtLeast(values, hours, m)
    ensures RowSum(values, hours) >= m * |hours|
  {
    if hours != [] {
      var front := hours[..|hours| - 1];
      assert AllAtLeast(values, front, m) by {
        forall i | 0 <= i < |front| ensures Cell(values, front[i]) >= m {
          assert front[i] == hours[i];
        }
      }
      RowSumAtLeast(values, front, m);
      assert m * |hours| == m * |front| + m;
    }
  }

  /** The window total only binds when it exceeds `minTph` times the number of hours. */
  lemma TotalRuleRedundant(values: map<Column, int>, c: TimeConfig)
    requires c.minTotal <= c.minTph * |c.hours|
    ensures Passes(values, c) <==> AllAtLeast(values, c.hours, c.minTph)
  {
    if AllAtLeast(values, c.hours, c.minTph) {
      RowSumAtLeast(values, c.hours, c.minTph);
    }
  }

  lemma AllAtLeastStep(values: map<Column, int>, hours: seq<Column>, i: nat, m: int)
    requires i < |hours|
    ensures AllAtLeast(values, hours[..i + 1], m)
      <==> AllAtLeast(values, hours[..i], m) && Cell(values, hours[i]) >= m
  {
    var pre, front := hours[..i + 1], hours[..i];
    assert pre[i] == hours[i];
    if AllAtLeast(values, front, m) && Cell(values, hours[i]) >= m {
      forall j | 0 <= j < |pre| ensures Cell(values, pre[j]) >= m {
        if j < i { assert pre[j] == front[j]; }
      }
    }
    if AllAtLeast(values, pre, m) {
      forall j | 0 <= j < |front| ensures Cell(values, front[j]) >= m {
        assert pre[j] == front[j];
      }
    }
  }

  // ---------------------------------------------------------------------
  // analyze_stop_frequency

  /** The stop rows meeting a time window. */
  function StopsPassing(freq: seq<StopTph>, c: TimeConfig): seq<StopTph>
  {
    Filter(freq, (row: StopTph) => Passes(row.tph, c))
  }

  /** The per-hour test on the first `i` hours. */
  function FirstHoursAtLeast(hours: seq<Column>, i: nat, m: int): StopTph -> bool
    requires i <= |hours|
  {
    (row: StopTph) => AllAtLeast(row.tph, hours[..i], m)
  }

  function HourAtLeast(h: Column, m: int): StopTph -> bool
  {
    (row: StopTph) => Cell(row.tph, h) >= m
  }

  function SumAtLeast(hours: seq<Column>, m: int): StopTph -> bool
  {
    (row: StopTph) => RowSum(row.tph, hours) >= m
  }

  lemma FirstHoursStart(freq: seq<StopTph>, hours: seq<Column>, m: int)
    ensures Filter(freq, FirstHoursAtLeast(hours, 0, m)) == freq
  {
    FilterAgree(freq, FirstHoursAtLeast(hours, 0, m), _ => true);
    FilterTrue(freq);
  }

  lemma FirstHoursStep(freq: seq<StopTph>, hours: seq<Column>, i: nat, m: int)
    requires i < |hours|
    ensures Filter(Filter(freq, FirstHoursAtLeast(hours, i, m)), HourAtLeast(hours[i], m))
      == Filter(freq, FirstHoursAtLeast(hours, i + 1, m))
  {
    var p, q := FirstHoursAtLeast(hours, i, m), HourAtLeast(hours[i], m);
    FilterFilter(freq, p, q);
    forall row | row in freq
      ensures (p(row) && q(row)) == FirstHoursAtLeast(hours, i + 1, m)(row)
    {
      AllAtLeastStep(row.tph, hours, i, m);
    }
    FilterAgree(freq, (row: StopTph) => p(row) && q(row), FirstHoursAtLeast(hours, i + 1, m));
  }

  lemma FirstHoursEnd(freq: seq<StopTph>, c: TimeConfig)
    ensures Filter(Filter(freq, FirstHoursAtLeast(c.hours, |c.hours|, c.minTph)), SumAtLeast(c.hours, c.minTotal))
      == StopsPassing(freq, c)
  {
    var p, q := FirstHoursAtLeast(c.hours, |c.hours|, c.minTph), SumAtLeast(c.hours, c.minTotal);
    assert c.hours[..|c.hours|] == c.hours;
    FilterFilter(freq, p, q);
    FilterAgree(freq, (row: StopTph) => p(row) && q(row), (row: StopTph) => Passes(row.tph, c));
  }

  /**
   * `analyze_stop_frequency`: keep the rows at or above `min_tph` in each
   * listed hour, one hour at a time, then those whose sum over the hours
   * reaches `min_total`.
   */
  method AnalyzeStopFrequency(freq: seq<StopTph>, c: TimeConfig) returns (r: seq<StopTph>)
    requires forall row :: row in freq ==> HasColumns(row.tph, c.hours)
    ensures r == StopsPassing(freq, c)
    ensures forall row :: row in r <==> row in freq && Passes(row.tph, c)
  {
    r := freq;
    FirstHoursStart(freq, c.hours, c.minTph);
    for i := 0 to |c.hours|
      invariant r == Filter(freq, FirstHoursAtLeast(c.hours, i, c.minTph))
    {
      FirstHoursStep(freq, c.hours, i, c.minTph);
      r := Filter(r, HourAtLeast(c.hours[i], c.minTph));
    }
    FirstHoursEnd(freq, c);
    r := Filter(r, SumAtLeast(c.hours, c.minTotal));
  }

  lemma {:induction false} FilterTrue<T(!new)>(xs: seq<T>)
    ensures Filter(xs, _ => true) == xs
  {
    if xs != [] {
      FilterTrue(xs[..|xs| - 1]);
    }
  }

  // ---------------------------------------------------------------------
  // process_night_segments

  /** The ids of the stops whose sum over a segment's hours reaches its `min_total`. */
  function SegmentIds(freq: seq<StopTph>, seg: NightSegment): seq<string>
  {
    StopIdsOf(Filter(freq, SumAtLeast(seg.hours, seg.minTotal)))
  }

  /** One `segment_result` per segment, in order. */
  function NightResults(freq: seq<StopTph>, segs: seq<NightSegment>): (rs: seq<seq<string>>)
    ensures |rs| == |segs|
    ensures forall i :: 0 <= i < |segs| ==> rs[i] == SegmentIds(freq, segs[i])
  {
    seq(|segs|, i requires 0 <= i < |segs| => SegmentIds(freq, segs[i]))
  }

  lemma NightResultsSnoc(freq: seq<StopTph>, segs: seq<NightSegment>, i: nat)
    requires i < |segs|
    ensures NightResults(freq, segs[..i + 1]) == NightResults(freq, segs[..i]) + [SegmentIds(freq, segs[i])]
  {
    var a, b := NightResults(freq, segs[..i + 1]), NightResults(freq, segs[..i]) + [SegmentIds(freq, segs[i])];
    forall j | 0 <= j < i + 1 ensures a[j] == b[j] {
      assert segs[..i + 1][j] == segs[j];
      if j < i { assert segs[..i][j] == segs[j]; }
    }
  }

  /** `rs[0].merge(rs[1], how='inner').merge(rs[2], how='inner')...` */
  function MergeAll(rs: seq<seq<string>>): seq<string>
    requires |rs| > 0
  {
    if |rs| == 1 then rs[0] else InnerMerge(MergeAll(rs[..|rs| - 1]), rs[|rs| - 1])
  }

  /** A chain of inner merges keeps the ids present in every frame. */
  lemma {:induction false} MergeAllMember(rs: seq<seq<string>>, id: string)
    requires |rs| > 0
    ensures id in MergeAll(rs) <==> forall i :: 0 <= i < |rs| ==> id in rs[i]
  {
    if |rs| > 1 {
      var front := rs[..|rs| - 1];
      MergeAllMember(front, id);
      InnerMergeMember(MergeAll(front), rs[|rs| - 1], id);
      assert forall i :: 0 <= i < |front| ==> front[i] == rs[i];
    }
  }

  predicate SegmentHolds(freq: seq<StopTph>, seg: NightSegment, id: string)
  {
    exists row :: row in freq && row.stopId == id && RowSum(row.tph, seg.hours) >= seg.minTotal
  }

  lemma SegmentIdsMember(freq: seq<StopTph>, seg: NightSegment, id: string)
    ensures id in SegmentIds(freq, seg) <==> SegmentHolds(freq, seg, id)
  {
    var kept := Filter(freq, SumAtLeast(seg.hours, seg.minTotal));
    StopIdsMember(kept, id);
    if SegmentHolds(freq, seg, id) {
      var row :| row in freq && row.stopId == id && RowSum(row.tph, seg.hours) >= seg.minTotal;
      assert row in kept;
    }
  }

  /** A stop passes the night rule iff one of its rows reaches every segment's total. */
  lemma NightMember(freq: seq<StopTph>, segs: seq<NightSegment>, id: string)
    requires |segs| > 0
    ensures id in MergeAll(NightResults(freq, segs))
      <==> forall i :: 0 <= i < |segs| ==> SegmentHolds(freq, segs[i], id)
  {
    MergeAllMember(NightResults(freq, segs), id);
    forall i | 0 <= i < |segs|
      ensures id in NightResults(freq, segs)[i] <==> SegmentHolds(freq, segs[i], id)
    {
      SegmentIdsMember(freq, segs[i], id);
    }
  }

  /**
   * `process_night_segments`: one result per segment, then inner merges
   * from the first.  An empty segment list raises `IndexError` at
   * `night_results[0]`.
   */
  method ProcessNightSegments(freq: seq<StopTph>, segs: seq<NightSegment>) returns (r: seq<string>)
    requires |segs| > 0
    requires forall row, seg :: row in freq && seg in segs ==> HasColumns(row.tph, seg.hours)
    ensures r == MergeAll(NightResults(freq, segs))
  {
    var nightResults: seq<seq<string>> := [];
    for i := 0 to |segs|
      invariant nightResults == NightResults(freq, segs[..i])
    {
      NightResultsSnoc(freq, segs, i);
      nightResults := nightResults + [SegmentIds(freq, segs[i])];
    }
    assert segs[..|segs|] == segs;
    r := MergeFrames(nightResults);
  }

  /** The inner-merge loop over a non-empty list of stop-id frames. */
  method MergeFrames(frames: seq<seq<string>>) returns (r: seq<string>)
    requires |frames| > 0
    ensures r == MergeAll(frames)
  {
    r := frames[0];
    for i := 1 to |frames|
      invariant r == MergeAll(frames[..i])
    {
      assert frames[..i + 1][..i] == frames[..i];
      r := InnerMerge(r, frames[i]);
    }
    assert frames[..|frames|] == frames;
  }

  // ---------------------------------------------------------------------
  // analyze_route_frequency

  /** The index of the route pivot tables. */
  datatype RouteDir = RouteDir(routeId: string, directionId: int)

  const TotalTrips: Column := "total_trips"

  /** The `time_config` argument: a time window, or `{'threshold': n}` with `use_total_trips`. */
  datatype RouteQuery = ByHours(window: TimeConfig) | ByTotalTrips(threshold: int)

  function KeyOf(t: LineRow): RouteDir
  {
    RouteDir(t.routeId, t.directionId)
  }

  function LineKeys(rows: seq<LineRow>): set<RouteDir>
  {
    set t | t in rows :: KeyOf(t)
  }

  /** The sum of column `h` over the rows of one route and direction. */
  function GroupSum(rows: seq<LineRow>, k: RouteDir, h: Column): int
  {
    if rows == [] then 0
    else
      var t := rows[|rows| - 1];
      GroupSum(rows[..|rows| - 1], k, h) + (if KeyOf(t) == k then Cell(t.values, h) else 0)
  }

  /** `pd.pivot_table(rows, values=columns, index=["route_id","direction_id"], aggfunc=np.sum)` */
  function Pivot(rows: seq<LineRow>, columns: seq<Column>): (p: map<RouteDir, map<Column, int>>)
    ensures p.Keys == LineKeys(rows)
  {
    map k | k in LineKeys(rows) :: map h | h in columns :: GroupSum(rows, k, h)
  }

  /** The table the query reads. */
  function AllTrips(service: Service, q: RouteQuery): seq<LineRow>
  {
    match q
    case ByHours(_) => service.tphByLine
    case ByTotalTrips(_) => service.totalTripsByLine
  }

  function QueryColumns(q: RouteQuery): seq<Column>
  {
    match q
    case ByHours(c) => c.hours
    case ByTotalTrips(_) => [TotalTrips]
  }

  predicate RoutePasses(values: map<Column, int>, q: RouteQuery)
  {
    match q
    case ByHours(c) => Passes(values, c)
    case ByTotalTrips(threshold) => Cell(values, TotalTrips) >= threshold
  }

  /** The route/direction pairs whose summed columns meet the query. */
  function FrequentRoutes(service: Service, q: RouteQuery): set<RouteDir>
  {
    var p := Pivot(AllTrips(service, q), QueryColumns(q));
    set k | k in p && RoutePasses(p[k], q)
  }

  function RouteIdsOf(keys: set<RouteDir>): set<string>
  {
    set k | k in keys :: k.routeId
  }

  function RepTripsOf(rows: seq<LineRow>): set<string>
  {
    set t | t in rows :: t.repTripId
  }

  function OnRoutes(routeIds: set<string>): LineRow -> bool
  {
    (t: LineRow) => t.routeId in routeIds
  }

  function OnTrips(tripIds: set<string>): LineStop -> bool
  {
    (s: LineStop) => s.tripId in tripIds
  }

  /** The stops of the representative trips of every route with a frequent direction. */
  function RouteStops(service: Service, q: RouteQuery): seq<LineStop>
  {
    var trips := Filter(AllTrips(service, q), OnRoutes(RouteIdsOf(FrequentRoutes(service, q))));
    Filter(service.lineStops, OnTrips(RepTripsOf(trips)))
  }

  /**
   * `analyze_route_frequency`: pivot the line table by route and direction,
   * keep the pairs meeting the query, join back to every line of the same
   * `route_id` and return the stop rows of their representative trips;
   * the de-duplicated frame is computed but not returned.
   */
  method AnalyzeRouteFrequency(service: Service, q: RouteQuery) returns (stops: seq<LineStop>)
    requires forall t :: t in AllTrips(service, q) ==> HasColumns(t.values, QueryColumns(q))
    ensures stops == RouteStops(service, q)
  {
    var allTrips: seq<LineRow>;
    var frequent: map<RouteDir, map<Column, int>>;
    match q {
      case ByTotalTrips(threshold) =>
        allTrips := service.totalTripsByLine;
        frequent := Pivot(allTrips, [TotalTrips]);
        frequent := map k | k in frequent && Cell(frequent[k], TotalTrips) >= threshold :: frequent[k];
      case ByHours(c) =>
        allTrips := service.tphByLine;
        frequent := FrequentByHours(allTrips, c);
    }
    assert frequent.Keys == FrequentRoutes(service, q);
    var frequentTrips := Filter(allTrips, OnRoutes(RouteIdsOf(frequent.Keys)));
    stops := Filter(service.lineStops, OnTrips(RepTripsOf(frequentTrips)));
  }

  /** The hour-window branch of `analyze_route_frequency` up to the sum filter. */
  method FrequentByHours(allTrips: seq<LineRow>, c: TimeConfig) returns (frequent: map<RouteDir, map<Column, int>>)
    ensures frequent.Keys == set k | k in Pivot(allTrips, c.hours) && Passes(Pivot(allTrips, c.hours)[k], c)
  {
    var pivot := Pivot(allTrips, c.hours);
    frequent := pivot;
    for i := 0 to |c.hours|
      invariant forall k :: k in frequent <==> k in pivot && AllAtLeast(pivot[k], c.hours[..i], c.minTph)
      invariant forall k :: k in frequent ==> frequent[k] == pivot[k]
    {
      var hour := c.hours[i];
      frequent := map k | k in frequent && Cell(frequent[k], hour) >= c.minTph :: frequent[k];
      forall k | k in pivot
        ensures k in frequent <==> AllAtLeast(pivot[k], c.hours[..i + 1], c.minTph)
      {
        AllAtLeastStep(pivot[k], c.hours, i, c.minTph);
      }
    }
    assert c.hours[..|c.hours|] == c.hours;
    frequent := map k | k in frequent && RowSum(frequent[k], c.hours) >= c.minTotal :: frequent[k];
  }

  /** `tripId` is the representative trip of a line on a route with a frequent direction. */
  predicate OnFrequentLine(service: Service, q: RouteQuery, tripId: string)
  {
    exists t :: t in AllTrips(service, q) && t.routeId in RouteIdsOf(FrequentRoutes(service, q)) && t.repTripId == tripId
  }

  /**
   * A stop row is returned iff its trip is the representative trip of a
   * line whose route has at least one frequent direction.
   */
  lemma RouteStopsMember(service: Service, q: RouteQuery, s: LineStop)
    ensures s in RouteStops(service, q) <==> s in service.lineStops && OnFrequentLine(service, q, s.tripId)
  {
    var trips := Filter(AllTrips(service, q), OnRoutes(RouteIdsOf(FrequentRoutes(service, q))));
    if s in RouteStops(service, q) {
      var t :| t in trips && t.repTripId == s.tripId;
    }
  }

  /**
   * The join back to the line table is on `route_id` alone: one frequent
   * direction brings in the stops of the route's other directions too.
   */
  lemma DirectionDropped(service: Service, q: RouteQuery, k: RouteDir, t: LineRow, s: LineStop)
    requires k in FrequentRoutes(service, q)
    requires t in AllTrips(service, q) && t.routeId == k.routeId && t.directionId != k.directionId
    requires s in service.lineStops && s.tripId == t.repTripId
    ensures s in RouteStops(service, q)
  {
    assert k.routeId in RouteIdsOf(FrequentRoutes(service, q));
    RouteStopsMember(service, q, s);
  }

  // ---------------------------------------------------------------------
  // process_service_level

  /** `config.get('peak', config.get('extended'))` */
  function RouteConfig(c: LevelConfig): Option<TimeConfig>
  {
    if c.peak.Some? then c.peak else c.extended
  }

  /** `config.get('weekend_required', False) and 'weekend' in config` */
  predicate WeekendChecked(c: LevelConfig)
  {
    c.weekendRequired && c.weekend.Some?
  }

  /**
   * What the code needs of a configuration: a listed `night_segments` is
   * non-empty (`night_results[0]`), and a level without a threshold has a
   * stop or route rule (otherwise the result is a column-less frame and
   * `drop_duplicates(subset=['stop_id'])` raises `KeyError`).
   */
  predicate WellFormed(c: LevelConfig)
  {
    (c.nightSegments.Some? ==> |c.nightSegments.value| > 0)
    && (c.totalTripsThreshold.None? ==> c.peak.Some? || c.extended.Some? || c.nightSegments.Some?)
  }

  /** Every column the level reads exists in the tables it reads. */
  predicate Tabulated(c: LevelConfig, weekday: Service, weekend: Service)
  {
    match c.totalTripsThreshold
    case Some(_) => forall t :: t in weekday.totalTripsByLine ==> HasColumns(t.values, [TotalTrips])
    case None =>
      (c.peak.Some? ==> forall row :: row in weekday.tphAtStops ==> HasColumns(row.tph, c.peak.value.hours))
      && (c.extended.Some? ==> forall row :: row in weekday.tphAtStops ==> HasColumns(row.tph, c.extended.value.hours))
      && (c.nightSegments.Some? ==>
            forall row, seg :: row in weekday.tphAtStops && seg in c.nightSegments.value ==> HasColumns(row.tph, seg.hours))
      && (RouteConfig(c).Some? ==>
            forall t :: t in weekday.tphByLine ==> HasColumns(t.values, RouteConfig(c).value.hours))
      && (WeekendChecked(c) ==>
            (forall row :: row in weekend.tphAtStops ==> HasColumns(row.tph, c.weekend.value.hours))
            && forall t :: t in weekend.tphByLine ==> HasColumns(t.values, c.weekend.value.hours))
  }

  /** The `stop_results` list: the peak, extended and night stop ids, for the keys present. */
  function StopResults(c: LevelConfig, freq: seq<StopTph>): seq<seq<string>>
    requires WellFormed(c)
  {
    (if c.peak.Some? then [StopIdsOf(StopsPassing(freq, c.peak.value))] else [])
    + (if c.extended.Some? then [StopIdsOf(StopsPassing(freq, c.extended.value))] else [])
    + (if c.nightSegments.Some? then [MergeAll(NightResults(freq, c.nightSegments.value))] else [])
  }

  function RouteStopIds(service: Service, w: TimeConfig): seq<string>
  {
    LineStopIds(RouteStops(service, ByHours(w)))
  }

  function WeekendIds(w: TimeConfig, weekend: Service): seq<string>
  {
    InnerMerge(StopIdsOf(StopsPassing(weekend.tphAtStops, w)), RouteStopIds(weekend, w))
  }

  /** The stop ids of a level before `drop_duplicates`. */
  function LevelRows(c: LevelConfig, weekday: Service, weekend: Service): seq<string>
    requires WellFormed(c)
  {
    match c.totalTripsThreshold
    case Some(threshold) => LineStopIds(RouteStops(weekday, ByTotalTrips(threshold)))
    case None =>
      var rs := StopResults(c, weekday.tphAtStops);
      var merged := if rs == [] then [] else MergeAll(rs);
      var base :=
        match RouteConfig(c)
        case None => merged
        case Some(w) => if merged != [] then InnerMerge(merged, RouteStopIds(weekday, w)) else RouteStopIds(weekday, w);
      if WeekendChecked(c) then InnerMerge(base, WeekendIds(c.weekend.value, weekend)) else base
  }

  /** The stop ids of a level; total-trips levels return before the de-duplication. */
  function LevelResult(c: LevelConfig, weekday: Service, weekend: Service): seq<string>
    requires WellFormed(c)
  {
    if c.totalTripsThreshold.Some? then LevelRows(c, weekday, weekend)
    else DropDuplicates(LevelRows(c, weekday, weekend))
  }

  /** `process_service_level`, returning the `stop_id` column of its frame. */
  method ProcessServiceLevel(c: LevelConfig, weekday: Service, weekend: Service) returns (ids: seq<string>)
    requires WellFormed(c) && Tabulated(c, weekday, weekend)
    ensures ids == LevelResult(c, weekday, weekend)
    ensures c.totalTripsThreshold.Some? ==> |ids| == |RouteStops(weekday, ByTotalTrips(c.totalTripsThreshold.value))|
    ensures c.totalTripsThreshold.None? ==> forall i, j :: 0 <= i < j < |ids| ==> ids[i] != ids[j]
  {
    if c.totalTripsThreshold.Some? {
      var result := AnalyzeRouteFrequency(weekday, ByTotalTrips(c.totalTripsThreshold.value));
      return LineStopIds(result);
    }
    var stopResults: seq<seq<string>> := [];
    if c.peak.Some? {
      var peakStops := AnalyzeStopFrequency(weekday.tphAtStops, c.peak.value);
      stopResults := stopResults + [StopIdsOf(peakStops)];
    }
    ghost var freq := weekday.tphAtStops;
    assert stopResults == if c.peak.Some? then [StopIdsOf(StopsPassing(freq, c.peak.value))] else [];
    if c.extended.Some? {
      var extendedStops := AnalyzeStopFrequency(weekday.tphAtStops, c.extended.value);
      stopResults := stopResults + [StopIdsOf(extendedStops)];
    }
    assert stopResults == (if c.peak.Some? then [StopIdsOf(StopsPassing(freq, c.peak.value))] else [])
      + (if c.extended.Some? then [StopIdsOf(StopsPassing(freq, c.extended.value))] else []);
    if c.nightSegments.Some? {
      var nightStops := ProcessNightSegments(weekday.tphAtStops, c.nightSegments.value);
      stopResults := stopResults + [nightStops];
    }
    assert stopResults == StopResults(c, weekday.tphAtStops);
    var merged: seq<string> := [];
    if stopResults != [] {
      merged := MergeFrames(stopResults);
    }
    var result: seq<string>;
    var routeConfig := RouteConfig(c);
    if routeConfig.Some? {
      var routeStops := AnalyzeRouteFrequency(weekday, ByHours(routeConfig.value));
      if merged != [] {
        result := InnerMerge(merged, LineStopIds(routeStops));
      } else {
        result := LineStopIds(routeStops);
      }
    } else {
      result := merged;
    }
    if c.weekendRequired && c.weekend.Some? {
      var weekendStops := AnalyzeStopFrequency(weekend.tphAtStops, c.weekend.value);
      var weekendRouteStops := AnalyzeRouteFrequency(weekend, ByHours(c.weekend.value));
      var weekendMerged := InnerMerge(StopIdsOf(weekendStops), LineStopIds(weekendRouteStops));
      result := InnerMerge(result, weekendMerged);
    }
    ids := DropDuplicates(result);
  }

  // ---------------------------------------------------------------------
  // What a level keeps

  /** Some row of `freq` for stop `id` meets the window. */
  predicate PassesAt(freq: seq<StopTph>, w: TimeConfig, id: string)
  {
    exists row :: row in freq && row.stopId == id && Passes(row.tph, w)
  }

  /** Some stop row of `id` lies on a representative trip of a route the query keeps. */
  predicate RouteRule(service: Service, q: RouteQuery, id: string)
  {
    exists s :: s in service.lineStops && s.stopId == id && OnFrequentLine(service, q, s.tripId)
  }

  /** The stop-level rules present in the configuration, for stop `id`. */
  predicate StopRule(c: LevelConfig, freq: seq<StopTph>, id: string)
  {
    (c.peak.Some? ==> PassesAt(freq, c.peak.value, id))
    && (c.extended.Some? ==> PassesAt(freq, c.extended.value, id))
    && (c.nightSegments.Some? ==>
          forall i :: 0 <= i < |c.nightSegments.value| ==> SegmentHolds(freq, c.nightSegments.value[i], id))
  }

  /** The stops of `freq` meeting every stop-level rule. */
  function StopRuleIds(c: LevelConfig, freq: seq<StopTph>): set<string>
  {
    set row | row in freq && StopRule(c, freq, row.stopId) :: row.stopId
  }

  predicate WeekendRule(w: TimeConfig, weekend: Service, id: string)
  {
    PassesAt(weekend.tphAtStops, w, id) && RouteRule(weekend, ByHours(w), id)
  }

  lemma PassingIdsMember(freq: seq<StopTph>, w: TimeConfig, id: string)
    ensures id in StopIdsOf(StopsPassing(freq, w)) <==> PassesAt(freq, w, id)
  {
    StopIdsMember(StopsPassing(freq, w), id);
    if PassesAt(freq, w, id) {
      var row :| row in freq && row.stopId == id && Passes(row.tph, w);
      assert row in StopsPassing(freq, w);
    }
  }

  lemma RouteIdsMember(service: Service, q: RouteQuery, id: string)
    ensures id in LineStopIds(RouteStops(service, q)) <==> RouteRule(service, q, id)
  {
    LineStopIdsMember(RouteStops(service, q), id);
    if id in LineStopIds(RouteStops(service, q)) {
      var s :| s in RouteStops(service, q) && s.stopId == id;
      RouteStopsMember(service, q, s);
    }
    if RouteRule(service, q, id) {
      var s :| s in service.lineStops && s.stopId == id && OnFrequentLine(service, q, s.tripId);
      RouteStopsMember(service, q, s);
    }
  }

  /** A stop is in the merged `stop_results` iff it meets every stop-level rule present. */
  lemma StopResultsMember(c: LevelConfig, freq: seq<StopTph>, id: string)
    requires WellFormed(c) && StopResults(c, freq) != []
    ensures id in MergeAll(StopResults(c, freq)) <==> StopRule(c, freq, id)
  {
    var rs := StopResults(c, freq);
    var np := if c.peak.Some? then 1 else 0;
    var ne := if c.extended.Some? then 1 else 0;
    MergeAllMember(rs, id);
    if c.peak.Some? {
      assert rs[0] == StopIdsOf(StopsPassing(freq, c.peak.value));
      PassingIdsMember(freq, c.peak.value, id);
    }
    if c.extended.Some? {
      assert rs[np] == StopIdsOf(StopsPassing(freq, c.extended.value));
      PassingIdsMember(freq, c.extended.value, id);
    }
    if c.nightSegments.Some? {
      assert rs[np + ne] == MergeAll(NightResults(freq, c.nightSegments.value));
      NightMember(freq, c.nightSegments.value, id);
    }
    assert |rs| == np + ne + (if c.nightSegments.Some? then 1 else 0);
  }

  /** The merged `stop_results` is empty iff no stop meets every stop-level rule. */
  lemma MergedEmpty(c: LevelConfig, freq: seq<StopTph>)
    requires WellFormed(c) && StopResults(c, freq) != []
    ensures MergeAll(StopResults(c, freq)) == [] <==> StopRuleIds(c, freq) == {}
  {
    var merged := MergeAll(StopResults(c, freq));
    if merged != [] {
      var x := merged[0];
      StopResultsMember(c, freq, x);
      var row := StopRuleWitness(c, freq, x);
      assert x in StopRuleIds(c, freq);
    }
    if StopRuleIds(c, freq) != {} {
      var y :| y in StopRuleIds(c, freq);
      StopResultsMember(c, freq, y);
    }
  }

  /** With some stop-level rule present, a stop meeting them has a row. */
  lemma StopRuleWitness(c: LevelConfig, freq: seq<StopTph>, id: string) returns (row: StopTph)
    requires WellFormed(c) && StopResults(c, freq) != [] && StopRule(c, freq, id)
    ensures row in freq && row.stopId == id
  {
    if c.peak.Some? {
      row :| row in freq && row.stopId == id && Passes(row.tph, c.peak.value);
    } else if c.extended.Some? {
      row :| row in freq && row.stopId == id && Passes(row.tph, c.extended.value);
    } else {
      var seg := c.nightSegments.value[0];
      assert SegmentHolds(freq, seg, id);
      row :| row in freq && row.stopId == id && RowSum(row.tph, seg.hours) >= seg.minTotal;
    }
  }

  /**
   * A level without a threshold keeps a stop iff it lies on a frequent
   * route (when the level has a route window), meets the stop-level rules
   * (unless no stop meets them and a route window stands in), and meets the
   * weekend window at stop and route level (when checked).
   */
  lemma LevelMember(c: LevelConfig, weekday: Service, weekend: Service, id: string)
    requires WellFormed(c) && c.totalTripsThreshold.None?
    ensures id in LevelResult(c, weekday, weekend) <==>
      (RouteConfig(c).Some? ==> RouteRule(weekday, ByHours(RouteConfig(c).value), id))
      && (RouteConfig(c).None? || StopRuleIds(c, weekday.tphAtStops) != {} ==> StopRule(c, weekday.tphAtStops, id))
      && (WeekendChecked(c) ==> WeekendRule(c.weekend.value, weekend, id))
  {
    var freq := weekday.tphAtStops;
    var rs := StopResults(c, freq);
    var merged := if rs == [] then [] else MergeAll(rs);
    if rs != [] {
      StopResultsMember(c, freq, id);
      MergedEmpty(c, freq);
    }
    var base :=
      match RouteConfig(c)
      case None => merged
      case Some(w) => if merged != [] then InnerMerge(merged, RouteStopIds(weekday, w)) else RouteStopIds(weekday, w);
    if RouteConfig(c).Some? {
      var w := RouteConfig(c).value;
      RouteIdsMember(weekday, ByHours(w), id);
      InnerMergeMember(merged, RouteStopIds(weekday, w), id);
    }
    if WeekendChecked(c) {
      var w := c.weekend.value;
      InnerMergeMember(base, WeekendIds(w, weekend), id);
      InnerMergeMember(StopIdsOf(StopsPassing(weekend.tphAtStops, w)), RouteStopIds(weekend, w), id);
      PassingIdsMember(weekend.tphAtStops, w, id);
      RouteIdsMember(weekend, ByHours(w), id);
    }
    assert LevelRows(c, weekday, weekend) == if WeekendChecked(c) then InnerMerge(base, WeekendIds(c.weekend.value, weekend)) else base;
  }

  /**
   * When no stop meets the stop-level rules, a level with a route window
   * keeps every stop of its frequent routes (subject to the weekend check).
   */
  lemma FallbackToRoutes(c: LevelConfig, weekday: Service, weekend: Service, id: string)
    requires WellFormed(c) && c.totalTripsThreshold.None? && RouteConfig(c).Some?
    requires StopRuleIds(c, weekday.tphAtStops) == {}
    ensures id in LevelResult(c, weekday, weekend) <==>
      RouteRule(weekday, ByHours(RouteConfig(c).value), id)
      && (WeekendChecked(c) ==> WeekendRule(c.weekend.value, weekend, id))
  {
    LevelMember(c, weekday, weekend, id);
  }

  /** A total-trips level keeps one id per stop row of the routes at or over the threshold. */
  lemma ThresholdMember(c: LevelConfig, weekday: Service, weekend: Service, id: string)
    requires WellFormed(c) && c.totalTripsThreshold.Some?
    ensures id in LevelResult(c, weekday, weekend)
      <==> RouteRule(weekday, ByTotalTrips(c.totalTripsThreshold.value), id)
  {
    RouteIdsMember(weekday, ByTotalTrips(c.totalTripsThreshold.value), id);
  }

  // ---------------------------------------------------------------------
  // main

  const PeakHours: seq<Column> :=
    ["hour_10", "hour_11", "hour_12", "hour_13", "hour_14", "hour_15", "hour_16", "hour_9"]
  const ExtendedHours: seq<Column> :=
    ["hour_6", "hour_7", "hour_8", "hour_17", "hour_18", "hour_19", "hour_20", "hour_21"]

  /** The one active entry of `SERVICE_LEVELS`; the other levels are commented out. */
  const Level1: LevelConfig := LevelConfig(
    Some(TimeConfig(PeakHours, 4, 40)),
    Some(TimeConfig(ExtendedHours, 3, 32)),
    Some(TimeConfig(PeakHours, 3, 32)),
    Some([NightSegment(["hour_23", "hour_24"], 0), NightSegment(["hour_25", "hour_26"], 0),
          NightSegment(["hour_27", "hour_28"], 0), NightSegment(["hour_26", "hour_27"], 0)]),
    None,
    true,
    "level1")

  const ServiceLevels: seq<LevelConfig> := [Level1]

  /** The header of the output file. */
  const ColumnOrder: seq<Column> :=
    ["stop_id", "level6", "level5", "level4", "level3", "level2", "level1", "levelNights", "stop_lat", "stop_lon"]

  /** The level columns of the header, in order. */
  const LevelColumns: seq<Column> := ColumnOrder[1..8]

  /** One entry of `output_data`: the stop ids of a level and its column. */
  datatype LevelFrame = LevelFrame(column: Column, ids: seq<string>)

  /** A row of `final_result` before `reindex`; an absent level column is NaN. */
  datatype OutRow = OutRow(stopId: string, levels: map<Column, string>, stop: Option<StopCoord>)

  /** A line of the CSV: the level cells in `LevelColumns` order (NaN as ""), then the coordinates. */
  datatype CsvRow = CsvRow(stopId: string, levelCells: seq<string>, stopLat: Option<real>, stopLon: Option<real>)

  function CoordIds(stops: seq<StopCoord>): set<string>
  {
    set s | s in stops :: s.stopId
  }

  function RowIds(rows: seq<OutRow>): set<string>
  {
    set r | r in rows :: r.stopId
  }

  function ColumnsOf(frames: seq<LevelFrame>): set<Column>
  {
    set f | f in frames :: f.column
  }

  function FrameIds(frames: seq<LevelFrame>): set<string>
  {
    set f, id | f in frames && id in f.ids :: id
  }

  function Marked(l: OutRow, col: Column): OutRow
  {
    l.(levels := l.levels[col := "1"])
  }

  /** The left rows of an outer merge: each repeated once per matching id, marked; or kept as is. */
  function MatchRows(left: seq<OutRow>, ids: seq<string>, col: Column): seq<OutRow>
  {
    if left == [] then []
    else
      var l := left[|left| - 1];
      var n := Occurrences(ids, l.stopId);
      MatchRows(left[..|left| - 1], ids, col) + (if n == 0 then [l] else Repeat(Marked(l, col), n))
  }

  /** The right rows of an outer merge with no left partner. */
  function RightOnly(known: set<string>, ids: seq<string>, col: Column): (rs: seq<OutRow>)
    ensures forall r :: r in rs ==>
      r.stop.None? && r.levels == map[col := "1"] && r.stopId in ids && r.stopId !in known
  {
    if ids == [] then []
    else
      var id := ids[|ids| - 1];
      RightOnly(known, ids[..|ids| - 1], col) + (if id in known then [] else [OutRow(id, map[col := "1"], None)])
  }

  lemma {:induction false} RightOnlyIds(known: set<string>, ids: seq<string>, col: Column)
    ensures RowIds(RightOnly(known, ids, col)) == (set id | id in ids && id !in known)
  {
    if ids != [] {
      var front, id := ids[..|ids| - 1], ids[|ids| - 1];
      assert ids == front + [id];
      RightOnlyIds(known, front, col);
      var rs, rsFront := RightOnly(known, ids, col), RightOnly(known, front, col);
      var tail := if id in known then [] else [OutRow(id, map[col := "1"], None)];
      assert rs == rsFront + tail;
      forall x ensures x in RowIds(rs) <==> x in ids && x !in known {
        if x in ids && x !in known && x != id {
          assert x in front;
          assert x in RowIds(rsFront);
          var r :| r in rsFront && r.stopId == x;
          assert r in rs;
        }
        if x == id && x !in known {
          assert tail[0] in rs;
        }
      }
    }
  }

  /** `left.merge(df, how='outer', on='stop_id')`, up to row order. */
  function OuterMerge(left: seq<OutRow>, ids: seq<string>, col: Column): seq<OutRow>
  {
    MatchRows(left, ids, col) + RightOnly(RowIds(left), ids, col)
  }

  /** What each row of `final_result` says after merging `frames`. */
  predicate RowOk(r: OutRow, stops: seq<StopCoord>, frames: seq<LevelFrame>)
  {
    (r.stop.Some? ==> r.stop.value in stops && r.stop.value.stopId == r.stopId)
    && (r.stop.None? ==> r.stopId !in CoordIds(stops))
    && (forall col :: col in r.levels ==> r.levels[col] == "1" && col in ColumnsOf(frames))
    && (forall f :: f in frames ==> (f.column in r.levels <==> r.stopId in f.ids))
  }

  lemma {:induction false} MatchRowsOk(left: seq<OutRow>, ids: seq<string>, col: Column,
                                       stops: seq<StopCoord>, frames: seq<LevelFrame>)
    requires forall r :: r in left ==> RowOk(r, stops, frames)
    requires col !in ColumnsOf(frames)
    ensures forall r :: r in MatchRows(left, ids, col) ==> RowOk(r, stops, frames + [LevelFrame(col, ids)])
    ensures RowIds(MatchRows(left, ids, col)) == RowIds(left)
  {
    var frames' := frames + [LevelFrame(col, ids)];
    if left != [] {
      var front, l := left[..|left| - 1], left[|left| - 1];
      assert left == front + [l];
      MatchRowsOk(front, ids, col, stops, frames);
      var n := Occurrences(ids, l.stopId);
      OccurrencesPositive(ids, l.stopId);
      var tail := if n == 0 then [l] else Repeat(Marked(l, col), n);
      assert RowOk(l, stops, frames);
      forall r | r in tail ensures RowOk(r, stops, frames') && r.stopId == l.stopId {
        forall f | f in frames' ensures f.column in r.levels <==> r.stopId in f.ids {
          if f !in frames {
            assert f == LevelFrame(col, ids);
          }
        }
      }
      assert tail[0] in tail;
      assert RowIds(MatchRows(left, ids, col)) == RowIds(MatchRows(front, ids, col)) + {l.stopId};
      assert RowIds(left) == RowIds(front) + {l.stopId};
    }
  }

  /** Merging one more level frame keeps every row consistent and adds the frame's ids. */
  lemma OuterMergeOk(left: seq<OutRow>, f: LevelFrame, stops: seq<StopCoord>, frames: seq<LevelFrame>)
    requires forall r :: r in left ==> RowOk(r, stops, frames)
    requires f.column !in ColumnsOf(frames)
    requires CoordIds(stops) <= RowIds(left) && FrameIds(frames) <= RowIds(left)
    ensures forall r :: r in OuterMerge(left, f.ids, f.column) ==> RowOk(r, stops, frames + [f])
    ensures RowIds(OuterMerge(left, f.ids, f.column)) == RowIds(left) + (set id | id in f.ids)
  {
    var ids, col := f.ids, f.column;
    assert f == LevelFrame(col, ids);
    var frames' := frames + [f];
    var known := RowIds(left);
    MatchRowsOk(left, ids, col, stops, frames);
    RightOnlyIds(known, ids, col);
    forall r | r in RightOnly(known, ids, col) ensures RowOk(r, stops, frames') {
      forall g | g in frames' ensures g.column in r.levels <==> r.stopId in g.ids {
        if g in frames {
          assert g.column in ColumnsOf(frames);
          assert r.stopId !in g.ids;
        }
      }
    }
    var merged := OuterMerge(left, ids, col);
    assert forall r :: r in merged <==> r in MatchRows(left, ids, col) || r in RightOnly(known, ids, col);
    assert RowIds(merged) == RowIds(MatchRows(left, ids, col)) + RowIds(RightOnly(known, ids, col));
  }

  lemma FrameIdsSnoc(frames: seq<LevelFrame>, f: LevelFrame)
    ensures FrameIds(frames + [f]) == FrameIds(frames) + (set id | id in f.ids)
  {
    var all := frames + [f];
    forall x ensures x in FrameIds(all) <==> x in FrameIds(frames) || x in f.ids {
      if x in FrameIds(all) {
        var g :| g in all && x in g.ids;
      }
      if x in f.ids {
        assert f in all;
      }
      if x in FrameIds(frames) {
        var g :| g in frames && x in g.ids;
        assert g in all;
      }
    }
  }

  /** The cell of a level column; a NaN cell is written empty. */
  function CellOf(r: OutRow, col: Column): string
  {
    if col in r.levels then r.levels[col] else ""
  }

  /** `final_result.reindex(columns=column_order)` on one row. */
  function Reindexed(r: OutRow): CsvRow
  {
    CsvRow(r.stopId,
      seq(|LevelColumns|, i requires 0 <= i < |LevelColumns| => CellOf(r, LevelColumns[i])),
      if r.stop.Some? then Some(r.stop.value.lat) else None,
      if r.stop.Some? then Some(r.stop.value.lon) else None)
  }

  /** `weekday_service.stops[["stop_id", "stop_lat", "stop_lon"]]` as the first frame of the merge. */
  function InitialRows(stops: seq<StopCoord>): (rows: seq<OutRow>)
    ensures |rows| == |stops|
    ensures forall i :: 0 <= i < |stops| ==> rows[i] == OutRow(stops[i].stopId, map[], Some(stops[i]))
  {
    seq(|stops|, i requires 0 <= i < |stops| => OutRow(stops[i].stopId, map[], Some(stops[i])))
  }

  lemma InitialRowsOk(stops: seq<StopCoord>)
    ensures forall r :: r in InitialRows(stops) ==> RowOk(r, stops, [])
    ensures RowIds(InitialRows(stops)) == CoordIds(stops)
  {
    var rows := InitialRows(stops);
    forall x ensures x in RowIds(rows) <==> x in CoordIds(stops) {
      if x in CoordIds(stops) {
        var s :| s in stops && s.stopId == x;
        var i :| 0 <= i < |stops| && stops[i] == s;
        assert rows[i] in rows;
      }
    }
  }

  /**
   * The body of `main`, from the two loaded feeds to the rows of the output file:
   * every weekday stop and every level-1 stop has a row, the `level1`
   * cell is "1" exactly for the stops level 1 keeps, the other level
   * columns are empty, and the coordinates are present exactly for the
   * stops of the weekday feed.
   */
  method ClassifyStops(weekday: Service, weekend: Service) returns (table: seq<CsvRow>)
    requires Tabulated(Level1, weekday, weekend)
    ensures forall s :: s in weekday.stops ==> exists r :: r in table && r.stopId == s.stopId
    ensures forall id :: id in LevelResult(Level1, weekday, weekend) ==> exists r :: r in table && r.stopId == id
    ensures forall r :: r in table ==> CsvRowOk(r, weekday.stops, LevelResult(Level1, weekday, weekend))
  {
    var results: seq<seq<string>> := [];
    for i := 0 to |ServiceLevels|
      invariant |results| == i
      invariant forall j :: 0 <= j < i ==> results[j] == LevelResult(ServiceLevels[j], weekday, weekend)
    {
      var r := ProcessServiceLevel(ServiceLevels[i], weekday, weekend);
      results := results + [r];
    }
    var outputData: seq<LevelFrame> := [];
    for i := 0 to |ServiceLevels|
      invariant |outputData| == i
      invariant forall j :: 0 <= j < i ==> outputData[j] == LevelFrame(ServiceLevels[j].levelColumn, results[j])
    {
      outputData := outputData + [LevelFrame(ServiceLevels[i].levelColumn, results[i])];
    }
    var frames := [LevelFrame("level1", LevelResult(Level1, weekday, weekend))];
    assert outputData == frames;
    var finalResult := MergeLevels(weekday.stops, outputData);
    table := seq(|finalResult|, i requires 0 <= i < |finalResult| => Reindexed(finalResult[i]));
    MainRows(finalResult, table, weekday.stops, frames);
  }

  /** The outer-merge loop of `main`, before `reindex`. */
  method MergeLevels(stops: seq<StopCoord>, outputData: seq<LevelFrame>) returns (finalResult: seq<OutRow>)
    requires forall i, j :: 0 <= i < j < |outputData| ==> outputData[i].column != outputData[j].column
    ensures forall r :: r in finalResult ==> RowOk(r, stops, outputData)
    ensures RowIds(finalResult) == CoordIds(stops) + FrameIds(outputData)
  {
    finalResult := InitialRows(stops);
    InitialRowsOk(stops);
    assert outputData[..0] == [];
    for i := 0 to |outputData|
      invariant MergedSoFar(finalResult, stops, outputData[..i])
    {
      var f := outputData[i];
      NewColumn(outputData, i);
      MergeStep(finalResult, stops, outputData[..i], f);
      TakeSnoc(outputData, i);
      finalResult := OuterMerge(finalResult, f.ids, f.column);
    }
    assert outputData[..|outputData|] == outputData;
  }

  lemma TakeSnoc<T>(s: seq<T>, i: nat)
    requires i < |s|
    ensures s[..i + 1] == s[..i] + [s[i]]
  {
  }

  /** The rows after merging `frames`: each row consistent with them, and one for every stop and every listed id. */
  ghost predicate MergedSoFar(rows: seq<OutRow>, stops: seq<StopCoord>, frames: seq<LevelFrame>)
  {
    && (forall r :: r in rows ==> RowOk(r, stops, frames))
    && RowIds(rows) == CoordIds(stops) + FrameIds(frames)
  }

  /** With distinct columns, no frame before the `i`th has its column. */
  lemma NewColumn(outputData: seq<LevelFrame>, i: nat)
    requires i < |outputData|
    requires forall i, j :: 0 <= i < j < |outputData| ==> outputData[i].column != outputData[j].column
    ensures outputData[i].column !in ColumnsOf(outputData[..i])
  {
    var done := outputData[..i];
    forall j | 0 <= j < i ensures done[j].column != outputData[i].column {
    }
  }

  /** Merging a frame with a new column keeps the rows consistent and adds its ids. */
  lemma MergeStep(rows: seq<OutRow>, stops: seq<StopCoord>, done: seq<LevelFrame>, f: LevelFrame)
    requires f.column !in ColumnsOf(done)
    requires MergedSoFar(rows, stops, done)
    ensures MergedSoFar(OuterMerge(rows, f.ids, f.column), stops, done + [f])
  {
    OuterMergeOk(rows, f, stops, done);
    FrameIdsSnoc(done, f);
  }

  /** One line of the output, given the weekday stops and the level-1 stop ids. */
  predicate CsvRowOk(r: CsvRow, stops: seq<StopCoord>, level1: seq<string>)
  {
    (r.stopId in CoordIds(stops) || r.stopId in level1)
    && (r.stopLat.Some? <==> r.stopId in CoordIds(stops))
    && (r.stopLon.Some? <==> r.stopId in CoordIds(stops))
    && |r.levelCells| == |LevelColumns|
    && r.levelCells[5] == (if r.stopId in level1 then "1" else "")
    && (forall i :: 0 <= i < |LevelColumns| && i != 5 ==> r.levelCells[i] == "")
  }

  lemma ReindexedOk(o: OutRow, stops: seq<StopCoord>, frames: seq<LevelFrame>)
    requires |frames| == 1 && frames[0].column == "level1"
    requires RowOk(o, stops, frames)
    requires o.stopId in CoordIds(stops) + FrameIds(frames)
    ensures CsvRowOk(Reindexed(o), stops, frames[0].ids)
  {
    assert ColumnsOf(frames) == {"level1"};
    assert LevelColumns[5] == "level1";
    assert frames[0] in frames;
    if o.stopId in FrameIds(frames) {
      var f :| f in frames && o.stopId in f.ids;
    }
    if o.stop.Some? {
      assert o.stop.value.stopId in CoordIds(stops);
    }
    var r := Reindexed(o);
    forall j | 0 <= j < |LevelColumns| && j != 5 ensures r.levelCells[j] == "" {
      assert LevelColumns[j] != "level1";
    }
  }

  lemma MainRows(rows: seq<OutRow>, table: seq<CsvRow>, stops: seq<StopCoord>, frames: seq<LevelFrame>)
    requires |frames| == 1 && frames[0].column == "level1"
    requires |table| == |rows| && forall i :: 0 <= i < |rows| ==> table[i] == Reindexed(rows[i])
    requires forall r :: r in rows ==> RowOk(r, stops, frames)
    requires RowIds(rows) == CoordIds(stops) + FrameIds(frames)
    ensures forall s :: s in stops ==> exists r :: r in table && r.stopId == s.stopId
    ensures forall id :: id in frames[0].ids ==> exists r :: r in table && r.stopId == id
    ensures forall r :: r in table ==> CsvRowOk(r, stops, frames[0].ids)
  {
    forall id | id in RowIds(rows) ensures exists r :: r in table && r.stopId == id {
      var o :| o in rows && o.stopId == id;
      var i :| 0 <= i < |rows| && rows[i] == o;
      assert table[i] in table;
    }
    forall s | s in stops ensures s.stopId in RowIds(rows) {
      assert s.stopId in CoordIds(stops);
    }
    forall id | id in frames[0].ids ensures id in RowIds(rows) {
      assert frames[0] in frames;
    }
    forall r | r in table ensures CsvRowOk(r, stops, frames[0].ids) {
      var i :| 0 <= i < |table| && table[i] == r;
      assert rows[i] in rows;
      ReindexedOk(rows[i], stops, frames);
    }
  }
}
