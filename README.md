# Transit scenario analysis — a Dafny model

This project models the schedule-analysis core of a transit planning
application built on GTFS data (stops, routes, trips and their
`stop_times.txt` departures). The modelled core is the service-frequency
tier classifier that sorts stops into WSDOT service levels 1–6 and a night
level, in both the production TypeScript port and its Python reference.
Around it the project models the departure cache those reports read, and
the analytics built on that cache:

- route headway statistics and the choice of a representative stop;
- the route, stop and flex-area filter predicates and the stop visit counters;
- GTFS-Flex area aggregation and the labels shown for flex areas;
- NTD record filtering and the VisionEval report grouping;
- fixture serialisation;
- small string and array utilities;
- the older generation of the same logic (legacy routes, stops, date-time helpers and UI filters).

Each module follows one source file or one group of identical source functions:

| module | file | source |
|---|---|---|
| `Wsdot` | wsdot.dfy | the TypeScript classifier, src/analysis/wsdot/index.ts |
| `WsdotPython` | wsdot_python.dfy | the Python reference, docs/wsdot-python/wsdot.py |
| `WsdotStopsRoutes` | wsdot_stops_routes.dfy | the stops/routes report, src/analysis/wsdot-stops-routes/index.ts |
| `DepartureCache` | departure_cache.dfy | src/tl/departure-cache.ts and the legacy cache of components/departure.ts |
| `RouteHeadway` | route_headway.dfy | src/scenario/route-headway.ts |
| `Sorting` | sorting.dfy | the numeric sort and sum that route-headway.ts relies on |
| `CoreDatetime` | core_datetime.dfy | src/core/datetime.ts |
| `ScenarioFilter` | scenario_filter.dfy | src/scenario/scenario-filter.ts |
| `AgencyAggregation` | agency_aggregation.dfy | the agency grouping shared by scenario-filter.ts, src/scenario.ts and src/scenario-fetcher.ts |
| `Scenario` | scenario.dfy | src/scenario/scenario.ts, src/scenario/scenario-fetcher.ts and components/departure.ts |
| `ScenarioStreaming` | scenario_streaming.dfy | src/scenario-streaming.ts |
| `ScenarioLegacy` | scenario_legacy.dfy | src/scenario.ts and src/scenario-fetcher.ts |
| `ScenarioFixtures` | scenario_fixtures.dfy | src/scenario-fixtures.ts |
| `Flex`, `FlexTypes` | flex.dfy, flex_types.dfy | src/tl/flex.ts, src/flex/types.ts |
| `Ntd`, `VisionEval` | ntd.dfy, visioneval.dfy | src/analysis/ntd/index.ts, src/analysis/visioneval/index.ts |
| `Html`, `Stream` | html.dfy, stream.dfy | escapeHtml and chunkArray |
| `LegacyDatetime` | datetime_legacy.dfy | src/datetime.ts |
| `LegacyRoute` | legacy_route.dfy | src/route.ts |
| `LegacyStop`, `StopCsv` | legacy_stop.dfy, stop_csv.dfy | src/stop.ts and src/tl/stop.ts |
| `LegacyComponents` | legacy_components.dfy | components/stop.ts, components/route.ts, components/departure.ts |
| `Wrappers`, `JsNum`, `Calendar`, `InsertionOrder`, `StableSort` | helpers | Option, JavaScript number parsing and printing, civil dates, insertion-ordered collections, an insertion sort |

State that the source updates in place is modelled as classes with
`modifies` clauses. Examples are the departure cache, the query variables,
the data receivers and legacy routes and stops. Loops become methods proved
against specification functions. Pure code becomes functions and lemmas.

A JavaScript `Date` is a day number with a weekday and a `yyyy-MM-dd`
string. Most maps whose key order the source reads are sequences of keys
beside a map. The exceptions are named under "## Left out".
Pandas frames are sequences of rows.

## Model

| member | source | states |
|---|---|---|
| Wsdot.FirstField | src/analysis/wsdot/index.ts:328 | the first field of `split(':')` is the longest prefix without ':', and ':' follows it when it is shorter than the input |
| Wsdot.ParseHourOfTime | src/analysis/wsdot/index.ts:327-335 | a time whose first field is a run of decimal digits, zero-padded (`08:15:00`) or not, lands in the bucket of that number, less 24 once when it is 24 or more, so the after-midnight hours 24..47 land in 0..23 |
| Wsdot.HistogramSnoc | src/analysis/wsdot/index.ts:286-289 | counting one more departure adds 1 to its own hour bucket and changes no other bucket |
| Wsdot.HistogramTotal | src/analysis/wsdot/index.ts:281-289 | over distinct hours the buckets sum to at most the number of departures, and to exactly that number when the hours name every departure |
| Wsdot.CountValidAll | src/analysis/wsdot/index.ts:403-411 | the counter test `validHours === hours.length` holds iff every listed hour reaches the floor |
| Wsdot.RuleAtThreshold | src/analysis/wsdot/index.ts:403-411 | both tests are inclusive: buckets exactly at the floor that sum exactly to the minimum pass |
| Wsdot.RuleBelowFloor | src/analysis/wsdot/index.ts:403-411 | one trip below the floor in any listed hour fails the rule |
| Wsdot.RuleMonotone | src/analysis/wsdot/index.ts:403-411 | a rule with a higher floor and minimum over the same hours passes only buckets the looser rule passes |
| Wsdot.CheckHours | src/analysis/wsdot/index.ts:400-411 | the shared hour loop passes iff every listed hour (absent = 0) reaches min_tph and the sum reaches min_total |
| Wsdot.DistinctIds | src/analysis/wsdot/index.ts:275-310 | the stop map's keys are the listed stop ids, distinct, in first-occurrence order |
| Wsdot.RoutesSnoc | src/analysis/wsdot/index.ts:292-307 | one more departure updates only its own route+direction entry: one more trip in its hour and in the total, and its stop added |
| Wsdot.TrackRoute | src/analysis/wsdot/index.ts:292-307 | the route step creates the key's entry when absent and then applies exactly that update |
| Wsdot.CountStop | src/analysis/wsdot/index.ts:278-308 | the per-stop loop gives the stop's entry (buckets, total, routes of its departures) and records every departure on its route entry |
| Wsdot.ExtractFrequencyData | src/analysis/wsdot/index.ts:269-325 | the stop and route maps equal the specification of the whole day's departures on `fmtDate(date)` |
| Wsdot.DayVisitsMember | src/analysis/wsdot/index.ts:275-290 | a (stop, departure) pair is visited iff the stop is listed and the departure is in its cache list for the date |
| Wsdot.RouteStopsExact | src/analysis/wsdot/index.ts:292-307 | a route+direction entry exists iff some listed stop departs on it, and its stop ids are exactly those stops |
| Wsdot.StopBucketsSum | src/analysis/wsdot/index.ts:278-290 | a stop's buckets sum to its totalTrips |
| Wsdot.RouteBucketsSum | src/analysis/wsdot/index.ts:304-306 | a route entry's buckets sum to its totalTrips |
| Wsdot.RouteHoursWithinTotal | src/analysis/wsdot/index.ts:304-306 | a route entry's trips over distinct configured hours never exceed its total |
| Wsdot.AnalyzeStopFrequency | src/analysis/wsdot/index.ts:396-417 | the result is exactly the stops whose buckets meet the window rule |
| Wsdot.AnalyzeRouteFrequency | src/analysis/wsdot/index.ts:419-443 | the result is the union of the stop ids of the route+direction entries that meet the window rule |
| Wsdot.AnalyzeRouteFrequencyByTotalTrips | src/analysis/wsdot/index.ts:445-457 | the result is the union of the stop ids of the entries with totalTrips ≥ threshold |
| Wsdot.Intersection | src/analysis/wsdot/index.ts:488-496 | the element-by-element build equals set intersection |
| Wsdot.SumHours | src/analysis/wsdot/index.ts:466-469 | the night loop sums the listed hours' buckets, absent hours as 0 |
| Wsdot.SegmentPass | src/analysis/wsdot/index.ts:462-477 | one segment keeps the stops whose sum reaches its minimum, with no per-hour floor |
| Wsdot.ProcessNightSegments | src/analysis/wsdot/index.ts:459-486 | the result is the intersection of the per-segment sets, each segment evaluated on its own hours, and empty for no segments |
| Wsdot.NightStopsWithin | src/analysis/wsdot/index.ts:459-486 | the night result only holds stops of the map |
| Wsdot.StopLevelSetsMember | src/analysis/wsdot/index.ts:348-366 | stop-level sets are pushed iff the level has a peak, extended or night rule, and a stop is in all of them iff it passes each rule the level has |
| Wsdot.IntersectAll | src/analysis/wsdot/index.ts:368-372 | the merge loop gives the stops in every pushed set, and none when no set was pushed |
| Wsdot.MergedStopLevel | src/analysis/wsdot/index.ts:347-372 | the merged stop-level set is the stops passing every stop-level rule of the level |
| Wsdot.LevelStopsStages | src/analysis/wsdot/index.ts:347-393 | without a threshold, a level is the stop-level set, intersected with the route stops of peak-else-extended, then with weekend stops ∩ weekend route stops only when weekend_required and a weekend rule both exist |
| Wsdot.ProcessServiceLevel | src/analysis/wsdot/index.ts:337-394 | the method computes the level's specified stops: the total-trips result for a threshold level, else the staged intersection |
| Wsdot.LevelWithinComponents | src/analysis/wsdot/index.ts:348-391 | the level's stops lie within every component set it has, and are empty with no stop-level rule |
| Wsdot.ThresholdLevel | src/analysis/wsdot/index.ts:343-345 | a threshold level returns the weekday total-trips result and ignores every other rule and the weekend data |
| Wsdot.NightsIgnoreWeekend | src/analysis/wsdot/index.ts:80-91 | the night level has no weekend rule, so weekend data never changes its stops |
| Wsdot.Level1NightVacuous | src/analysis/wsdot/index.ts:38-43 | level 1's night segments have minimum 0, so every stop of the map passes them |
| Wsdot.StopsMeetingMonotone | src/analysis/wsdot/index.ts:396-417 | a stricter rule over the same hours keeps a subset of the stops |
| Wsdot.RouteStopsMonotone | src/analysis/wsdot/index.ts:419-443 | a stricter rule over the same hours keeps a subset of the route stops |
| Wsdot.Tier12 | src/analysis/wsdot/index.ts:32-53 | every level 1 stop is a level 2 stop |
| Wsdot.Tier23 | src/analysis/wsdot/index.ts:46-61 | every level 2 stop is a level 3 stop |
| Wsdot.Tier34 | src/analysis/wsdot/index.ts:54-67 | every level 3 stop is a level 4 stop |
| Wsdot.Tier45 | src/analysis/wsdot/index.ts:62-73 | every level 4 stop is a level 5 stop when each route entry's total covers its peak trips |
| Wsdot.FrequencyTotalsCover | src/analysis/wsdot/index.ts:304-306 | in the extracted data every route entry's total covers its trips over the peak hours |
| Wsdot.Tier56 | src/analysis/wsdot/index.ts:68-79 | every level 5 stop is a level 6 stop |
| Wsdot.TiersNested | src/analysis/wsdot/index.ts:31-92 | on a day's extracted data the levels nest: level 1 ⊆ level 2 ⊆ … ⊆ level 6 |
| Wsdot.FindStop | src/analysis/wsdot/index.ts:242 | `find` returns a stop with the id, and returns one iff a listed stop has that id |
| Wsdot.RowIds | src/analysis/wsdot/index.ts:241-245 | an id gets a row iff its first listed stop has a geometry, and distinct ids give distinct rows |
| Wsdot.Dedup | src/analysis/wsdot/index.ts:240 | the id set holds each id of either list once |
| Wsdot.BuildRows | src/analysis/wsdot/index.ts:238-260 | one row per row id in order, copying the stop's fields, with each level flag true iff the id is in that level's set |
| Wsdot.ProcessLevels | src/analysis/wsdot/index.ts:213-218 | every level of the table is evaluated and stored under its key |
| Wsdot.Fetch | src/analysis/wsdot/index.ts:198-266 | the report holds each level's specified stops and one row per stop of either day's map that has a geometry |
| Wsdot.ReportRowIds | src/analysis/wsdot/index.ts:240-258 | the report's row ids are distinct, and an id has a row iff it is in either day's stop map and its stop has a geometry |
| WsdotPython.Filter | docs/wsdot-python/wsdot.py:169 | boolean indexing keeps, in order, exactly the rows that satisfy the predicate |
| WsdotPython.FilterFilter | docs/wsdot-python/wsdot.py:168-173 | filtering twice keeps the rows that pass both filters |
| WsdotPython.InnerMergeOccurrences | docs/wsdot-python/wsdot.py:85 | an inner merge on stop_id repeats each key as often as the product of its counts on both sides |
| WsdotPython.InnerMergeMember | docs/wsdot-python/wsdot.py:85 | a key survives an inner merge iff it is on both sides |
| WsdotPython.DropDuplicates | docs/wsdot-python/wsdot.py:241 | `drop_duplicates` keeps each stop id once, and only ids of the input |
| WsdotPython.StopIdsMember | docs/wsdot-python/wsdot.py:79 | the `stop_id` column holds exactly the ids of the frame's rows |
| WsdotPython.RowSumAtLeast | docs/wsdot-python/wsdot.py:172 | rows with every listed hour ≥ min_tph sum to at least min_tph times the number of hours |
| WsdotPython.TotalRuleRedundant | docs/wsdot-python/wsdot.py:168-173 | when min_total ≤ min_tph × hours, the sum test never binds and the hour floors alone decide |
| WsdotPython.AnalyzeStopFrequency | docs/wsdot-python/wsdot.py:163-173 | the cumulative per-hour filters and the sum filter keep exactly the rows at or above min_tph in every listed hour whose sum reaches min_total |
| WsdotPython.NightResults | docs/wsdot-python/wsdot.py:76-80 | one segment result per segment, in order |
| WsdotPython.MergeAllMember | docs/wsdot-python/wsdot.py:83-85 | a chain of inner merges keeps the ids present in every frame |
| WsdotPython.SegmentIdsMember | docs/wsdot-python/wsdot.py:77-79 | a segment keeps a stop iff one of its rows sums to at least min_total over the segment's hours |
| WsdotPython.NightMember | docs/wsdot-python/wsdot.py:72-87 | a stop passes the night rule iff it passes every segment, overlapping segments included |
| WsdotPython.ProcessNightSegments | docs/wsdot-python/wsdot.py:72-87 | the method computes the inner merge of the per-segment results, and needs a first segment to exist |
| WsdotPython.MergeFrames | docs/wsdot-python/wsdot.py:210-213 | the stop-level merge loop computes the inner merge of all frames |
| WsdotPython.Pivot | docs/wsdot-python/wsdot.py:93-94 | the pivot has one entry per (route_id, direction_id) pair of the line table |
| WsdotPython.AnalyzeRouteFrequency | docs/wsdot-python/wsdot.py:89-161 | the method returns the line stops of the representative trips of routes with a qualifying direction, without deduplication |
| WsdotPython.FrequentByHours | docs/wsdot-python/wsdot.py:140-150 | the hour filters then the sum filter keep exactly the route/direction pairs meeting the window rule |
| WsdotPython.RouteStopsMember | docs/wsdot-python/wsdot.py:154-156 | a line stop is returned iff its trip is the representative trip of a line whose route has some frequent direction |
| WsdotPython.DirectionDropped | docs/wsdot-python/wsdot.py:154 | the join on route_id alone brings in the stops of every direction of a route with one frequent direction |
| WsdotPython.ProcessServiceLevel | docs/wsdot-python/wsdot.py:176-244 | the method computes the level's result; total-trips levels return every route stop row undeduplicated, others return distinct ids |
| WsdotPython.PassingIdsMember | docs/wsdot-python/wsdot.py:163-173 | an id is in a stop-frequency result iff one of its rows passes the window |
| WsdotPython.RouteIdsMember | docs/wsdot-python/wsdot.py:89-161 | an id is in a route-frequency result iff the route rule holds for it |
| WsdotPython.StopResultsMember | docs/wsdot-python/wsdot.py:189-213 | a stop is in the merged stop results iff it meets every stop-level rule present |
| WsdotPython.MergedEmpty | docs/wsdot-python/wsdot.py:224 | the merged stop results are empty iff no stop meets every stop-level rule |
| WsdotPython.LevelMember | docs/wsdot-python/wsdot.py:188-241 | without a threshold, a stop is kept iff it is on a frequent route (when a route window exists), meets the stop-level rules (unless none qualifies and the route stops are used), and passes the weekend rule when weekend_required and weekend are set |
| WsdotPython.FallbackToRoutes | docs/wsdot-python/wsdot.py:224-227 | when no stop meets the stop-level rules, the route stops become the result unfiltered, subject only to the weekend check |
| WsdotPython.ThresholdMember | docs/wsdot-python/wsdot.py:181-186 | a total-trips level keeps a stop iff it is a stop of a route/direction whose summed total_trips reaches the threshold |
| WsdotPython.RightOnly | docs/wsdot-python/wsdot.py:287 | outer-merge rows without a left partner carry only the level cell '1' and no coordinates |
| WsdotPython.OuterMergeOk | docs/wsdot-python/wsdot.py:286-287 | merging one more level frame keeps every row consistent and adds the frame's ids |
| WsdotPython.InitialRowsOk | docs/wsdot-python/wsdot.py:282-285 | the first frame has one consistent row per weekday stop |
| WsdotPython.MergeLevels | docs/wsdot-python/wsdot.py:284-287 | after the merge loop every row is consistent and the row ids are the stops' ids plus every level frame's ids |
| WsdotPython.ReindexedOk | docs/wsdot-python/wsdot.py:289-291 | reindexing puts the level-1 cell '1' iff the id is a level-1 stop and empty otherwise, with coordinates from the stop table |
| WsdotPython.ClassifyStops | docs/wsdot-python/wsdot.py:267-291 | every weekday stop and every level-1 stop has an output row, and each row's level cell and coordinates are right |
| WsdotPython.MainRows | docs/wsdot-python/wsdot.py:276-291 | every stop and every level id has a row and every row is correct for the level table |
| WsdotStopsRoutes.LevelLookup | src/analysis/wsdot-stops-routes/index.ts:89-102 | the lookup has an entry exactly for the stop ids of the report rows |
| WsdotStopsRoutes.LevelLookupLast | src/analysis/wsdot-stops-routes/index.ts:91-101 | when rows share a stop id, the lookup holds the flags of the last such row |
| WsdotStopsRoutes.BuildLevelLookup | src/analysis/wsdot-stops-routes/index.ts:88-102 | the loop builds that lookup |
| WsdotStopsRoutes.KeyOrder | src/analysis/wsdot-stops-routes/index.ts:129-137 | the agency keys in first-seen order, each once, exactly the keys of the agency map |
| WsdotStopsRoutes.FirstWith | src/analysis/wsdot-stops-routes/index.ts:129-137 | the first stop or route with a key exists and carries that key |
| WsdotStopsRoutes.AgencyEntry | src/analysis/wsdot-stops-routes/index.ts:129-138 | an agency entry is created once with zero counts and the name and feed of the first stop or route with its key; later ones do not rename it; it counts exactly the stops and routes with the key |
| WsdotStopsRoutes.SumsBump | src/analysis/wsdot-stops-routes/index.ts:138 | incrementing one entry's count raises the sum over the distinct keys by exactly one |
| WsdotStopsRoutes.CountsAddUp | src/analysis/wsdot-stops-routes/index.ts:129-207 | each stop adds 1 to one entry's stopsCount and each route 1 to one entry's routesCount, so the counts sum to the numbers of stops and routes |
| WsdotStopsRoutes.Kept | src/analysis/wsdot-stops-routes/index.ts:105-106 | the kept stops are exactly those with at least one route_stops entry, in input order |
| WsdotStopsRoutes.CountAgency | src/analysis/wsdot-stops-routes/index.ts:129-138 | one callback's update of the agency map creates the entry if new, counts it, and keeps the first-seen key order |
| WsdotStopsRoutes.MapStops | src/analysis/wsdot-stops-routes/index.ts:104-175 | the stop callback yields one result per kept stop and the agency map of those stops |
| WsdotStopsRoutes.MapRoutes | src/analysis/wsdot-stops-routes/index.ts:177-229 | the route callback yields one result per route and continues the agency map |
| WsdotStopsRoutes.ProcessWsdotStopsRoutesReport | src/analysis/wsdot-stops-routes/index.ts:83-251 | the report has one row per kept stop in order, keyed `<feed or 'unknown'>:<first route_stop's agency_id or 'null'>` with the looked-up flags, every route in order, and the agency table in first-seen key order |
| WsdotStopsRoutes.AgencyTotals | src/analysis/wsdot-stops-routes/index.ts:129-207 | over the agency table the stop counts sum to the number of kept stops and the route counts to the number of routes |
| WsdotStopsRoutes.FlagsFromLastRow | src/analysis/wsdot-stops-routes/index.ts:141-167 | a stop's level columns are 1 exactly where the last report row with its id has the flag |
| WsdotStopsRoutes.NoRowNoFlags | src/analysis/wsdot-stops-routes/index.ts:141-167 | a stop with no report row gets 0 in every level column |
| DepartureCache.AppendedLookup | src/tl/departure-cache.ts:15-24 | adding extends exactly the (stop, date) list in order and leaves every other list unchanged; an empty add changes nothing |
| DepartureCache.AppendedKeepsNoEmptyLists | src/tl/departure-cache.ts:16-18 | since an empty add returns early, no stored list is ever empty |
| DepartureCache.StopDepartureCache.constructor | src/tl/departure-cache.ts:8 | a new cache is empty |
| DepartureCache.StopDepartureCache.Get | src/tl/departure-cache.ts:10-13 | get returns the stored list, or [] for an unknown stop or date |
| DepartureCache.StopDepartureCache.Add | src/tl/departure-cache.ts:15-24 | add appends the departures to the (stop, date) list, so get afterwards is the old list followed by them |
| DepartureCache.StopDepartureCache.HasService | src/tl/departure-cache.ts:26-32 | hasService holds iff get is non-empty |
| DepartureCache.OnRouteDirection | src/tl/departure-cache.ts:55-65 | the departures of a list on one route in one direction cache, a sub-list of the input |
| DepartureCache.DirectionsPartition | src/tl/departure-cache.ts:65 | every departure of a route lands in exactly one of the two direction caches |
| DepartureCache.IndexAppendedLookup | src/tl/departure-cache.ts:63-71 | indexing one departure appends it to exactly its (route, date, stop) list |
| DepartureCache.RouteDepartureIndex.constructor | src/tl/departure-cache.ts:42-45 | a new index has two empty direction caches |
| DepartureCache.RouteDepartureIndex.Add | src/tl/departure-cache.ts:63-71 | add appends the departure under route\|date and stop in the cache its direction id selects (cache1 iff the id is truthy), leaving the other cache alone |
| DepartureCache.RouteDepartureIndex.AddDepartures | src/tl/departure-cache.ts:55-57 | the innermost loop indexes one stop's departures on one date, in order |
| DepartureCache.RouteDepartureIndex.AddStop | src/tl/departure-cache.ts:54-58 | the date loop indexes every departure of one stop |
| DepartureCache.RouteDepartureIndex.FromCache | src/tl/departure-cache.ts:51-61 | every departure of the cache is indexed exactly once, under its route and date, in its direction's cache, under its stop, in list order |
| DepartureCache.RouteDepartureIndex.GetRouteDate | src/tl/departure-cache.ts:80-84 | getRouteDate returns exactly the stops indexed for the route, date and direction, each with its non-empty list, and an empty map for an unindexed key |
| RouteHeadway.Headways | src/scenario/route-headway.ts:162-173 | the kept gaps, in order, are all at least 120 s |
| RouteHeadway.HeadwaysMember | src/scenario/route-headway.ts:163-171 | a gap is kept iff it is at least 120 s and lies between two consecutive sorted departures |
| RouteHeadway.HeadwaysEmpty | src/scenario/route-headway.ts:175-177 | no gap survives iff every consecutive gap is under 120 s |
| RouteHeadway.CalculateHeadwayStats | src/scenario/route-headway.ts:150-186 | the loop over a sorted copy computes the specified statistics |
| RouteHeadway.StatsAbsent | src/scenario/route-headway.ts:155-177 | there are no statistics iff fewer than 2 departures are given or no consecutive sorted gap reaches 120 s |
| RouteHeadway.StatsBounds | src/scenario/route-headway.ts:179-185 | fastest is the minimum kept gap, slowest the maximum and average the mean, so 120 ≤ fastest ≤ average ≤ slowest |
| RouteHeadway.SortExtremes | src/scenario/route-headway.ts:179-185 | the first and last elements of the sorted gaps are the least and greatest gaps |
| RouteHeadway.MeanBetween | src/scenario/route-headway.ts:182 | a mean of values between lo and hi lies between lo and hi |
| RouteHeadway.StatsOrderIndependent | src/scenario/route-headway.ts:160 | the statistics depend only on which departures are given, not on their order |
| RouteHeadway.Representative | src/scenario/route-headway.ts:57-66 | the representative stop has at least as many departures as every stop of the date |
| RouteHeadway.RepresentativeFirstLongest | src/scenario/route-headway.ts:61-66 | the representative is the first stop with strictly the most departures, or stop 0 with none when all lists are empty |
| RouteHeadway.PickRepresentative | src/scenario/route-headway.ts:57-66 | the loop keeping the strictly longer list picks that representative |
| RouteHeadway.GetRouteDate | src/scenario/route-headway.ts:60 | an unindexed route/direction/date has no stops |
| RouteHeadway.InWindow | src/scenario/route-headway.ts:69-70 | the window filter keeps each departure with start ≤ t ≤ end, as often as it occurs, and drops the rest |
| RouteHeadway.DateDepartures | src/scenario/route-headway.ts:68-71 | a date contributes the representative stop's departures inside the inclusive window, ascending |
| RouteHeadway.NewRouteHeadwaySummary | src/scenario/route-headway.ts:115-136 | the empty summary has a total and seven day buckets |
| RouteHeadway.Bucket | src/scenario/route-headway.ts:74-106 | every departure in a bucket lies inside the window |
| RouteHeadway.RouteHeadwaysOf | src/scenario/route-headway.ts:41-110 | the summary has a total and seven day buckets |
| RouteHeadway.DayOfSummary | src/scenario/route-headway.ts:78-106 | each day bucket holds the departures of that weekday's dates in both directions |
| RouteHeadway.DayStep | src/scenario/route-headway.ts:78-106 | one more date changes only the day bucket of its own weekday |
| RouteHeadway.SummaryStep | src/scenario/route-headway.ts:74-106 | one more date of a direction appends its departures to the total and to its weekday's bucket, setting their stop ids, and changes nothing else |
| RouteHeadway.RouteHeadways | src/scenario/route-headway.ts:41-110 | the nested direction and date loops compute the specified summary |
| RouteHeadway.NoIndexEmpty | src/scenario/route-headway.ts:48-51 | without an index the total and all seven day buckets are empty with stop 0 in both directions |
| RouteHeadway.DayBucketSnoc | src/scenario/route-headway.ts:78-106 | one more date adds its departures to a weekday's bucket exactly when it falls on that weekday |
| RouteHeadway.DayBucketsSnoc | src/scenario/route-headway.ts:78-106 | one more date adds its departures to its own weekday's bucket and to no other |
| RouteHeadway.UnionOfStep | src/scenario/route-headway.ts:74-106 | when one bucket alone grows by some departures, the buckets taken together grow by exactly those |
| RouteHeadway.TotalIsUnionOfDays | src/scenario/route-headway.ts:74-106 | the total holds exactly the departures of the seven day buckets together |
| Sorting.Insert | src/scenario/route-headway.ts:71 | inserting into a sorted list keeps it sorted and adds exactly the element |
| Sorting.Sort | src/scenario/route-headway.ts:160 | the numeric sort is ascending and a permutation of its input |
| Sorting.SortedHeadIsMin | src/scenario/route-headway.ts:183 | the first element of a sorted list is its minimum |
| Sorting.SortedUnique | src/scenario/route-headway.ts:160 | two sorted lists with the same elements are the same list |
| Sorting.SortOrderIndependent | src/scenario/route-headway.ts:160 | the sort depends only on which numbers occur how often |
| Sorting.SumBounds | src/scenario/route-headway.ts:182 | a sum of n numbers between lo and hi lies between n·lo and n·hi |
| CoreDatetime.Split | src/core/datetime.ts:140 | `split(':')` gives at least one piece, none containing the separator |
| CoreDatetime.JoinSplit | src/core/datetime.ts:140 | joining the pieces of a split with the separator gives the string back |
| CoreDatetime.SplitJoin | src/core/datetime.ts:140 | splitting the join of separator-free pieces gives the pieces back |
| CoreDatetime.ParseHMS | src/core/datetime.ts:139-147 | parseHMS is −1 for undefined, for '', when the split does not give exactly three parts, and when any part is not a number |
| CoreDatetime.ParseHMSOfFields | src/core/datetime.ts:139-147 | any three non-negative numbers written `h:m:s` parse to h·3600 + m·60 + s, with no range check, so '25:00:00' gives 90000 |
| CoreDatetime.DateToSeconds | src/core/datetime.ts:154-157 | dateToSeconds maps undefined to undefined and a valid time of day to a count in 0..86399 |
| CoreDatetime.DateToSecondsInverse | src/core/datetime.ts:154-157 | the seconds count of a valid time of day determines the hours, minutes and seconds |
| JsNum.ParseIntOfNatToString | src/core/datetime.ts:141 | `parseInt(String(n))` is n, with and without radix 10 |
| JsNum.ParseIntOfDigits | src/core/datetime.ts:141 | a run of decimal digits followed by a non-digit parses as the digits' value |
| JsNum.NatToString | src/core/datetime.ts:141 | `String(n)` of a non-negative integer is a non-empty run of digits, one digit iff n < 10 |
| JsNum.DigitsValueOfNatToString | src/core/datetime.ts:141 | reading back the digits of `String(n)` gives n |
| JsNum.Pad2 | src/tl/flex.ts:163-168 | `padStart(2, '0')` puts a 0 before a single digit and leaves longer numbers alone |
| JsNum.ParseIntOfPad2 | src/tl/flex.ts:163-168 | a padded field reads back with parseInt as its number |
| JsNum.JsRem | src/tl/flex.ts:165-166 | JavaScript `%` agrees with the mathematical remainder on non-negative operands; for a negative dividend the remainder is at most 0 and differs from the dividend by a multiple of the divisor |
| Calendar.Weekday | src/scenario/scenario.ts:76-86 | `getDay()` is in 0..6 |
| Calendar.WeekdayOfNextDay | src/scenario/scenario.ts:76-86 | advancing a date by one day advances its weekday by one, modulo 7 |
| Wrappers.OrElse | src/core/datetime.ts:140 | `x \|\| d` on an optional string is x when it is a non-empty string and d otherwise |
| ScenarioFilter.DayIndex | src/scenario/scenario-filter.ts:157-171 | a weekday name selects its `getDay()` bucket, and any other string selects none |
| ScenarioFilter.DayIndexOfDayName | src/scenario/scenario-filter.ts:223 | each day name selects the bucket at its position in the list of day names |
| ScenarioFilter.Route.constructor | src/scenario/scenario-filter.ts:71-133 | a route starts marked, without frequencies, with the empty headway summary |
| ScenarioFilter.RouteMarked | src/scenario/scenario-filter.ts:136-221 | the weekday loop with its hasAny/hasAll flags and the later early returns compute the specified marking |
| ScenarioFilter.RouteWeekdaySelection | src/scenario/scenario-filter.ts:147-151 | selectedWeekdays = [] unmarks every route, and null skips the weekday check |
| ScenarioFilter.RouteWeekdayModes | src/scenario/scenario-filter.ts:179-189 | with weekdays selected, a mode other than 'Any' and 'All' unmarks, and 'All' implies 'Any' |
| ScenarioFilter.RouteOtherFilters | src/scenario/scenario-filter.ts:192-216 | route-type and agency filters pass on null and otherwise need membership; frequency bounds apply only with a cache and reject a missing or zero average |
| ScenarioFilter.BusierDirection | src/scenario/scenario-filter.ts:95-99 | the frequencies come from direction 1 only when it has strictly more departures |
| ScenarioFilter.RouteSetDerived | src/scenario/scenario-filter.ts:71-133 | with departure data the headways are recomputed and the frequencies are the statistics of the busier direction, all cleared when there are none; the route is then marked by routeMarked |
| ScenarioFilter.SetFrequencies | src/scenario/scenario-filter.ts:101-120 | the three frequencies are the statistics, or all cleared, and the headways are untouched |
| ScenarioFilter.DerivedFrequenciesOrdered | src/scenario/scenario-filter.ts:101-105 | derived frequencies satisfy 120 ≤ fastest ≤ average ≤ slowest, so a present average is never 0 |
| ScenarioFilter.CacheForIndexFails | src/scenario/scenario-filter.ts:85-92 | handed the stop departure cache, routeHeadways fails for any selected date, while over a departure index it yields the representative departures |
| ScenarioFilter.NewStopVisitSummary | src/scenario/scenario-filter.ts:266-277 | a fresh summary has a total and seven day buckets, all zero with all_date_service true |
| ScenarioFilter.CheckDiv | src/scenario/scenario-filter.ts:426-428 | checkDiv(a, 0) is 0 |
| ScenarioFilter.CheckDivInverse | src/scenario/scenario-filter.ts:426-428 | for a non-zero divisor the quotient times the divisor gives the dividend back |
| ScenarioFilter.CountInWindow | src/scenario/scenario-filter.ts:300-305 | the count of departures within the window never exceeds the number of departures |
| ScenarioFilter.CountIsInWindowTimes | src/scenario/scenario-filter.ts:300-305 | the count is the number of departures with start ≤ t ≤ end |
| ScenarioFilter.CountDepartures | src/scenario/scenario-filter.ts:300-305 | the counting loop computes that count |
| ScenarioFilter.CountDate | src/scenario/scenario-filter.ts:306-338 | one counted date adds its count to the total and to its weekday bucket, one date to each, updates their averages, and clears all_date_service when the count is 0 |
| ScenarioFilter.StopVisits | src/scenario/scenario-filter.ts:279-342 | without a cache the fresh summary; otherwise the counts over the dates whose weekday is selected, of departures within the window |
| ScenarioFilter.SumsOfUpdate | src/scenario/scenario-filter.ts:333-334 | replacing one bucket changes the bucket sums by the difference of its counters |
| ScenarioFilter.VisitTotalsAreSumsOfDays | src/scenario/scenario-filter.ts:293-339 | the total's dates and visits are the sums of the seven day buckets, it counts exactly the dates whose weekday is selected, and its all_date_service is never cleared |
| ScenarioFilter.AllDateServiceIff | src/scenario/scenario-filter.ts:336-338 | a day bucket's all_date_service is false iff some counted date of that weekday had no departure in the window |
| ScenarioFilter.VisitAveragesConsistent | src/scenario/scenario-filter.ts:306-335 | every bucket's average is its visits over its dates, and undefined while no date is counted |
| ScenarioFilter.NoWeekdaysNoVisits | src/scenario/scenario-filter.ts:295-297 | with no weekday selection, or an empty one, no date is counted and the summary stays fresh |
| ScenarioFilter.Stop.constructor | src/scenario/scenario-filter.ts:229-264 | a stop starts marked, without visits |
| ScenarioFilter.DayCounts | src/scenario/scenario-filter.ts:364-380 | a weekday name reads that day's counters when the stop has visits, and any other name reads none |
| ScenarioFilter.StopMarked | src/scenario/scenario-filter.ts:345-415 | the weekday loop and the marked-route check compute the specified marking |
| ScenarioFilter.StopWeekdaySelection | src/scenario/scenario-filter.ts:356-400 | selectedWeekdays = [] passes in 'All' mode (nothing clears hasAll) and fails in 'Any' mode; any other mode fails |
| ScenarioFilter.StopMarkedRouteCheck | src/scenario/scenario-filter.ts:402-410 | a marked route is required only when a route-level filter is non-null, and then a stop with no marked route is unmarked |
| ScenarioFilter.StopSetDerived | src/scenario/scenario-filter.ts:229-264 | the visits are counted first and the stop is then marked from them |
| ScenarioFilter.FlexAreaMarked | src/scenario/scenario-filter.ts:438-458 | null selects every area, [] none, and otherwise an area passes iff one of its agency names is selected |
| AgencyAggregation.KeyOf | src/scenario/scenario-filter.ts:547-551 | a route stop is recorded iff its agency_id is truthy |
| AgencyAggregation.Record | src/scenario/scenario-filter.ts:552-562 | the loop body creates the agency's group if new and keeps every other group |
| AgencyAggregation.DataMap | src/scenario/scenario-filter.ts:544-564 | after the loop there is a group exactly for each truthy agency_id seen |
| AgencyAggregation.AgencyOrder | src/scenario/scenario-filter.ts:574 | the groups come in the Map's insertion order, each agency id once |
| AgencyAggregation.GroupRoutes | src/scenario/scenario-filter.ts:559 | a group's route set is the set of route ids seen under its agency id |
| AgencyAggregation.GroupStops | src/scenario/scenario-filter.ts:561 | a group's stop set is the set of stop ids seen under its agency id |
| AgencyAggregation.GroupModes | src/scenario/scenario-filter.ts:560 | a group's modes are the route types seen under its agency id, once each, in first-seen order |
| AgencyAggregation.GroupAgency | src/scenario/scenario-filter.ts:552-558 | a group keeps its agency id and the first agency seen under it |
| AgencyAggregation.RecordRouteStop | src/scenario/scenario-filter.ts:546-563 | one route stop is skipped without a truthy agency id and recorded otherwise |
| AgencyAggregation.CollectAgencyData | src/scenario/scenario-filter.ts:544-564 | the nested loops compute the specified groups and their order |
| AgencyAggregation.MarkedAgenciesMembers | src/scenario/scenario-filter.ts:565-573 | an agency id is marked iff a marked stop has a route stop of that agency or a marked route belongs to it |
| AgencyAggregation.CollectMarkedAgencies | src/scenario/scenario-filter.ts:565-573 | the two loops compute that set |
| AgencyAggregation.AggregateAgencies | src/scenario/scenario-filter.ts:543-592 | the aggregation computes the specified agency list |
| AgencyAggregation.KeyedFromStops | src/scenario/scenario-filter.ts:545-551 | a recorded entry comes from a route stop of some stop, and every route stop with a truthy agency_id gives one |
| AgencyAggregation.RoutesOfStops | src/scenario/scenario-filter.ts:559 | a group's routes are the route ids of the route stops of that agency over all stops |
| AgencyAggregation.StopsOfStops | src/scenario/scenario-filter.ts:561 | a group's stops are the ids of the stops with a route stop of that agency |
| AgencyAggregation.AgencyListKeys | src/scenario/scenario-filter.ts:544-574 | the list has an entry for an agency_id iff that id is found, truthy, on some route stop of some stop |
| AgencyAggregation.AgencyListDistinct | src/scenario/scenario-filter.ts:574 | no agency id has two entries |
| AgencyAggregation.AgencyEntryId | src/scenario/scenario-filter.ts:552-558 | the entry of agency id k carries the first agency seen under k, whose agency_id is k |
| AgencyAggregation.AgencyListEntry | src/scenario/scenario-filter.ts:575-592 | each entry counts the distinct routes and distinct stops of its agency id, names its route types once each, and carries the first agency's fields |
| AgencyAggregation.AgencyListMarked | src/scenario/scenario-filter.ts:578 | an entry is marked iff its agency's id is on a route stop of a marked stop or is a marked route's agency |
| Scenario.SelectedDateRange | src/scenario/scenario.ts:76-86 | the selected dates are exactly the days from the start date (today when missing) to the end date (today when missing), consecutive, and none when the start is after the end |
| Scenario.ConvertBbox | src/scenario/scenario-fetcher.ts:448-455 | without a box all four bounds are null; with one they are its south-west and north-east corner coordinates |
| Scenario.Create | src/scenario/scenario.ts:145-154 | the seven-slot tuple built by create reads back each argument through its accessor |
| Scenario.CreateShort | src/scenario/scenario-fetcher.ts:77-86 | the older six-slot tuple reads back each argument through its accessor |
| Scenario.CreateOfAccessors | src/scenario/scenario.ts:145-171 | a well-typed tuple is rebuilt exactly by create from its own accessors, in both wire formats |
| Scenario.FromStopTime | src/scenario/scenario.ts:155-163 | the tuple made from a departure gives the receiver back that same departure, stop id, date and trip_id |
| Scenario.FromStopTimeShort | src/scenario/scenario-fetcher.ts:87-94 | the older tuple made from a departure gives back that departure, stop id and date |
| Scenario.StopDepartureQueryVars.constructor | src/scenario/scenario.ts:177-192 | a new variable set has no ids, every weekday date empty and every include flag false |
| Scenario.StopDepartureQueryVars.Get | src/scenario/scenario.ts:194-212 | get of a weekday name is that weekday's date field; any other name gives the empty string |
| Scenario.StopDepartureQueryVars.SetDay | src/scenario/scenario.ts:214-246 | setDay stores the formatted date under the date's own weekday and includes it; every other weekday and the ids are unchanged |
| Scenario.StopDepartureQueryVars.SetWeekday | src/scenario/scenario.ts:216-245 | the weekday switch writes exactly the chosen weekday's date and include flag |
| Scenario.DeparturesFor | src/scenario/scenario.ts:629-648 | the departures carried for one stop and date are at most as many as the tuples |
| Scenario.AccumulatedLookup | src/scenario/scenario.ts:629-648 | after caching a batch of tuples, each stop and date holds its earlier list followed by exactly that batch's departures for it, in tuple order |
| Scenario.AccumulatedHasService | src/scenario/scenario.ts:629-648 | every departure of the batch is found under its own stop and date afterwards |
| Scenario.ScenarioDataReceiver.constructor | src/scenario/scenario.ts:602-611 | a new receiver holds empty stops, routes and feed versions, a fresh empty departure cache, and has made no callback |
| Scenario.ScenarioDataReceiver.OnProgress | src/scenario/scenario.ts:615-653 | with partial data, stops, routes and feed versions are appended in order and the cache gains each tuple's departure; without it nothing changes; the event is forwarded exactly when there is an onProgress callback |
| Scenario.ScenarioDataReceiver.OnComplete | src/scenario/scenario.ts:658-660 | completion is forwarded exactly when there is an onComplete callback, and the accumulated data is untouched |
| Scenario.ScenarioDataReceiver.OnError | src/scenario/scenario.ts:665-667 | the error is forwarded exactly when there is an onError callback, and the accumulated data is untouched |
| Scenario.ScenarioDataReceiver.GetCurrentData | src/scenario/scenario.ts:672-674 | the snapshot holds the accumulated lists and shares the receiver's own cache object |
| ScenarioStreaming.ScenarioDataReceiver.constructor | src/scenario-streaming.ts:27-36 | a new streaming receiver holds empty lists, a fresh empty cache, is not complete and has made no callback |
| ScenarioStreaming.ScenarioDataReceiver.OnProgress | src/scenario-streaming.ts:41-62 | partial data appends its stops, routes and feed versions in order (an empty list changes nothing), departure tuples are not cached, completion is unchanged, and the event is forwarded exactly when there is an onProgress callback |
| ScenarioStreaming.ScenarioDataReceiver.OnComplete | src/scenario-streaming.ts:67-71 | completion marks the data complete, keeps the lists, and is forwarded exactly when there is an onComplete callback |
| ScenarioStreaming.ScenarioDataReceiver.OnError | src/scenario-streaming.ts:76-78 | an error leaves the data and its completion as they were and is forwarded exactly when there is an onError callback |
| ScenarioStreaming.ScenarioDataReceiver.GetCurrentData | src/scenario-streaming.ts:83-85 | the snapshot holds the same lists and completion flag and shares the receiver's cache object |
| ScenarioStreaming.Replay | src/scenario-streaming.ts:109-121 | feeding a new receiver a run of progress events and then completion accumulates the concatenation of their stops, routes and feed versions, in event order, and ends complete |
| ScenarioLegacy.FrequencySentinel | src/scenario.ts:713-714 | the bound handed to the route filter is -1 (no bound) exactly when the filter is disabled, the value is missing, or it is zero or -1; otherwise it is the enabled, non-zero value itself |
| ScenarioLegacy.IdEntries | src/scenario.ts:339-345 | the map entries set for a route list are its (id, route) pairs, in list order |
| ScenarioLegacy.Ids | src/scenario.ts:333 | the id list of a route list has one id per route, in order |
| ScenarioLegacy.LastValuesKeyed | src/scenario.ts:339-346 | every value the id index keeps is one of the routes, under its own id |
| ScenarioLegacy.MergeByIdIds | src/scenario.ts:339-346 | the merged routes hold each id of the held and fetched routes exactly once, in order of first appearance |
| ScenarioLegacy.MergeByIdLaterWins | src/scenario.ts:339-346 | for each id, the last route carrying it (a fetched one over a held one) is the one kept |
| ScenarioLegacy.MergeByIdFrom | src/scenario.ts:339-346 | every merged route is one of the held or fetched routes |
| ScenarioLegacy.NotHeld | src/scenario.ts:333-334 | the ids to fetch are exactly the ids of the route fetch task not already held |
| ScenarioLegacy.QueryIds | src/scenario.ts:333-335 | the query asks for every task id not held, only those, or the dummy id 0 when all are held |
| ScenarioLegacy.ScenarioFetcher.constructor | src/scenario.ts:167 | a new fetcher holds no routes |
| ScenarioLegacy.ScenarioFetcher.FetchRoutes | src/scenario.ts:331-346 | fetchRoutes queries the not-yet-held ids (or the dummy) and replaces the held routes with the merge by id of the held and the answered routes |
| ScenarioLegacy.CheckStopsFound | src/scenario-fetcher.ts:136-138 | fetching fails exactly when no stop was found, and otherwise passes the stops on |
| ScenarioLegacy.QueryingFetcher.constructor | src/scenario-fetcher.ts:100-116 | a new fetcher has counted no query, holds the given configuration and no routes |
| ScenarioLegacy.QueryingFetcher.CheckQueryLimit | src/scenario-fetcher.ts:502-508 | each check counts one query and fails exactly once the count exceeds 10000, leaving configuration and routes alone |
| ScenarioLegacy.QueryingFetcher.FetchRoutes | src/scenario-fetcher.ts:225-255 | fetchRoutes counts a query and fails past the limit without touching the routes; with no new id it queries nothing and keeps the routes; otherwise it asks for exactly the new ids and merges the answer in by id |
| ScenarioLegacy.QueryingFetcher.UpdateConfig | src/scenario-fetcher.ts:516-518 | the new configuration has every given field with its given value and every other old field unchanged |
| ScenarioLegacy.QueryingFetcher.GetConfig | src/scenario-fetcher.ts:521-523 | the copy returned equals the configuration |
| ScenarioFixtures.SerializeNested | src/scenario-fixtures.ts:104-107 | a nested map becomes one [key, entries] pair per outer key, in insertion order |
| ScenarioFixtures.DeserializeNested | src/scenario-fixtures.ts:126-131 | rebuilding maps from entry lists yields well-formed insertion-ordered maps |
| ScenarioFixtures.LastValuesFrom | src/scenario-fixtures.ts:126-131 | every value of a map built from entries is the value of one of those entries |
| ScenarioFixtures.NestedRoundTrip | src/scenario-fixtures.ts:102-146 | deserializing a serialized nested map gives back the same keys, key order and values at both levels |
| ScenarioFixtures.SerializeCache | src/scenario-fixtures.ts:102-117 | the serialized departure cache has one entry per stop of the cache |
| ScenarioFixtures.DeserializeCache | src/scenario-fixtures.ts:122-149 | the rebuilt cache's three maps are well formed |
| ScenarioFixtures.CacheRoundTrip | src/scenario-fixtures.ts:102-149 | a departure cache, with both route caches, survives serialization unchanged |
| ScenarioFixtures.SerializeData | src/scenario-fixtures.ts:76-84 | serialized scenario data keeps the routes, stops, feed versions and completion flag |
| ScenarioFixtures.DeserializeData | src/scenario-fixtures.ts:89-97 | deserialized scenario data keeps the lists and flag and has a well-formed cache |
| ScenarioFixtures.DataRoundTrip | src/scenario-fixtures.ts:76-97 | scenario data survives serialization whole: lists, completion flag and all three cache maps |
| ScenarioFixtures.SerializeConfig | src/scenario-fixtures.ts:176-185 | both dates are always written (empty when unset) and bbox, schedule flag, geography ids and stop limit are copied |
| ScenarioFixtures.DeserializeConfig | src/scenario-fixtures.ts:190-199 | the non-date fields are copied back and maxConcurrentDepartures is never set |
| ScenarioFixtures.ConfigRoundTrip | src/scenario-fixtures.ts:176-199 | the non-date fields of a config round-trip, an unset date stays unset, a set one comes back as the parse of its yyyy-MM-dd text, and maxConcurrentDepartures is lost |
| ScenarioFixtures.ConfigExact | src/scenario-fixtures.ts:176-199 | with a date parser that inverts the rendering and no maxConcurrentDepartures, a config round-trips exactly |
| ScenarioFixtures.SerializeFilter | src/scenario-fixtures.ts:204-218 | both times are always written (empty when unset) |
| ScenarioFixtures.FilterRoundTrip | src/scenario-fixtures.ts:204-237 | every non-time field of a filter round-trips, an unset time stays unset and a set one comes back as the parse of its HH:mm:ss text |
| ScenarioFixtures.FilterExact | src/scenario-fixtures.ts:204-237 | with a time parser that inverts the rendering, a filter round-trips exactly |
| ScenarioFixtures.SerializeFixture | src/scenario-fixtures.ts:154-160 | the serialized fixture keeps the data's completion flag |
| ScenarioFixtures.DeserializeFixture | src/scenario-fixtures.ts:165-171 | the deserialized fixture has a well-formed cache |
| ScenarioFixtures.FixtureRoundTrip | src/scenario-fixtures.ts:154-171 | when the date and time parsers invert the renderings and no maxConcurrentDepartures is set, a whole test fixture round-trips exactly |
| Flex.FormatSecondsFields | src/tl/flex.ts:163-168 | for a non-negative count of seconds the rendering splits at ':' into exactly the padded hours, minutes and seconds |
| Flex.FormatSecondsRoundTrip | src/tl/flex.ts:163-168 | the rendering has three fields with two-digit minutes and seconds, and reading it back as h:m:s gives the same number of seconds, past 24 hours included |
| Flex.HoursMinutesSeconds | src/tl/flex.ts:164-166 | hours, minutes and seconds recombine to the count and the minutes are below 60 |
| Flex.TransformBookingRule | src/tl/flex.ts:173-186 | the shown fields are copied and the formatted last booking time is present exactly when that time is present and not 0 |
| Flex.BookingRuleTimeRoundTrip | src/tl/flex.ts:181-184 | a positive last booking time is rendered as a time that reads back as the same number of seconds |
| Flex.AgencyEntries | src/tl/flex.ts:202-212 | one (agency_id, agency) entry per stop time, in stop-time order |
| Flex.RouteEntries | src/tl/flex.ts:216-227 | one (route_id, route) entry per stop time, in stop-time order |
| Flex.RuleEntries | src/tl/flex.ts:244-257 | only the stop times that carry a booking rule contribute an entry |
| Flex.RuleEntriesKeys | src/tl/flex.ts:244-257 | a booking rule id is kept exactly when some stop time carries a rule with that id |
| Flex.RuleEntriesFirst | src/tl/flex.ts:244-257 | the rule kept for an id is the first stop time's rule with that id, transformed |
| Flex.RuleEntriesPrefix | src/tl/flex.ts:247-249 | later stop times never replace the rule already kept for an id |
| Flex.FirstValuesAppend | src/tl/flex.ts:204-211 | once a key is in a first-wins map, further entries leave its value alone |
| Flex.PickupRules | src/tl/flex.ts:245 | the pickup booking rule of each stop time, in order |
| Flex.DropOffRules | src/tl/flex.ts:251 | the drop-off booking rule of each stop time, in order |
| Flex.PickupTypes | src/tl/flex.ts:235 | the pickup_type of each stop time, in order |
| Flex.DropOffTypes | src/tl/flex.ts:236 | the drop_off_type of each stop time, in order |
| Flex.TripIds | src/tl/flex.ts:276 | the trip_id of each stop time, in order |
| Flex.RouteTypes | src/tl/flex.ts:291 | the route_type of each listed route, in order |
| Flex.EarliestStartIsMinimum | src/tl/flex.ts:262-267 | the earliest start is undefined exactly when no stop time defines a start; otherwise it is one of the starts and no start is smaller |
| Flex.LatestEndIsMaximum | src/tl/flex.ts:268-272 | the latest end is undefined exactly when no stop time defines an end; otherwise it is one of the ends and no end is greater |
| Flex.TransformLocationToFlexArea | src/tl/flex.ts:197-327 | the loops building a location's feature compute exactly the feature the specification function describes |
| Flex.TimeWindow | src/tl/flex.ts:260-273 | the window loop ends with the earliest defined start and the latest defined end |
| Flex.AgenciesFirstWins | src/tl/flex.ts:201-212 | agencies are listed once per id, in order of first appearance, with the fields of the first stop time naming them, and agency_ids lists exactly their ids |
| Flex.AgencyKeyedById | src/tl/flex.ts:204-210 | the agency kept under an id carries that id |
| Flex.RouteKeyedById | src/tl/flex.ts:218-225 | the route kept under an id carries that id |
| Flex.FirstIndex | src/tl/flex.ts:204 | a key present in the entries has a first position |
| Flex.RoutesFirstWins | src/tl/flex.ts:215-227 | routes are listed once per id, first occurrence winning, and route_ids lists exactly their ids |
| Flex.RouteTypesOfRoutes | src/tl/flex.ts:291 | route_types holds each listed route's type exactly once |
| Flex.AvailabilityFromTypes | src/tl/flex.ts:232-239 | pickup is available exactly when some stop time has pickup_type 2, and drop-off exactly when some has drop_off_type 2 |
| Flex.HasTwo | src/tl/flex.ts:238-239 | 2 is among the collected types exactly when some stop time has type 2 |
| Flex.PickupRulesFirstWins | src/tl/flex.ts:245-250 | pickup booking rules are one per booking_rule_id, listed with their ids, and each is the first stop time's rule with that id |
| Flex.DropOffRulesFirstWins | src/tl/flex.ts:251-256 | drop-off booking rules likewise |
| Flex.TimeWindowBounds | src/tl/flex.ts:259-313 | the feature's window is the earliest defined start and latest defined end, each undefined with no rendering when no stop time defines one |
| Flex.TripsAndCounts | src/tl/flex.ts:276-326 | trip ids are each stop time's trip exactly once, trip_count is their number, stop_time_count the number of stop times, and the feature id is feed and location id joined by ':' |
| Flex.TransformLocationsToFlexAreas | src/tl/flex.ts:333-337 | the features are exactly the transforms of the locations that have stop times |
| Flex.TransformLocationsInOrder | src/tl/flex.ts:333-337 | the features keep the locations' order: a run of locations followed by another gives their features concatenated |
| FlexTypes.GetFlexAreaType | src/flex/types.ts:181-194 | 'PU only' exactly when only pickup is available, 'DO only' exactly when only drop-off is, and 'PU and DO' when both or neither are |
| FlexTypes.BookingTypeToAdvanceNotice | src/flex/types.ts:208-219 | booking type 0 is 'On-demand', 2 is 'More than 24 hours', and every other type is 'Same day' |
| FlexTypes.GetFlexAdvanceNotice | src/flex/types.ts:227-244 | the first pickup rule decides the notice, else the first drop-off rule, else 'Same day' |
| FlexTypes.GetFlexAgencyName | src/flex/types.ts:252-254 | the first agency's name when there is one and it is non-empty, else 'Unknown Agency'; never empty |
| FlexTypes.GetFlexAgencyNames | src/flex/types.ts:261-263 | every agency's name, in order |
| FlexTypes.AgencyNameIsFirstName | src/flex/types.ts:252-263 | the primary agency name is the first of the agency names whenever that name is non-empty |
| FlexTypes.IsBookingAvailableOnDay | src/flex/types.ts:279-289 | booking is available without booking-day information or for a day number outside 0..6; otherwise it is that day's flag, Sunday being 0 |
| FlexTypes.BookingUnavailableOnlyOnUnflaggedDay | src/flex/types.ts:279-289 | booking is unavailable exactly on an in-range day whose flag is off |
| FlexTypes.Available | src/flex/types.ts:309-317 | the availability list has one flag per weekday |
| FlexTypes.ActiveDays | src/flex/types.ts:329 | the active days are names from the list, at most as many, and none exactly when no day is available |
| FlexTypes.FormatBookingDays | src/flex/types.ts:305-333 | no information reads 'Any day'; any result other than the four labels is the available days joined by ', ' from Monday to Sunday |
| FlexTypes.AvailablePatterns | src/flex/types.ts:320-322 | the every-day, weekdays-only and weekend-only tests hold exactly for their patterns of days |
| FlexTypes.FormatBookingDaysLabels | src/flex/types.ts:305-333 | each label stands for exactly its pattern of days: 'Any day' every day, 'No days' none, 'Mon-Fri' exactly the weekdays, 'Sat-Sun' exactly the weekend |
| FlexTypes.JoinShape | src/flex/types.ts:332 | a list of three-letter day names joins to a name, followed by a comma when there are more |
| FlexTypes.ShortDayNamesShort | src/flex/types.ts:308 | every short day name is three letters starting with M, T, W, F or S |
| FlexTypes.ShortNamesNotSpecial | src/flex/types.ts:329-332 | a non-empty list of day names never joins to one of the four labels |
| FlexTypes.ListedDaysNotALabel | src/flex/types.ts:324-332 | text shaped like a day list is none of the four labels |
| Ntd.FieldText | src/analysis/ntd/index.ts:194 | a missing or falsy field reads as the empty string |
| Ntd.FieldYear | src/analysis/ntd/index.ts:202 | a missing or falsy year field reads as year 0 |
| Ntd.UpperChar | src/analysis/ntd/index.ts:155 | an upper-cased character is never a lower-case ASCII letter |
| Ntd.Upper | src/analysis/ntd/index.ts:155 | upper-casing keeps the length and upper-cases every character in place |
| Ntd.UpperIdempotent | src/analysis/ntd/index.ts:155 | upper-casing twice is upper-casing once |
| Ntd.ResolveFields | src/analysis/ntd/index.ts:147 | each field name the caller gives overrides the default, and the defaults apply otherwise |
| Ntd.StateFilter | src/analysis/ntd/index.ts:155 | a state filter applies exactly when a non-empty state is given |
| Ntd.YearSet | src/analysis/ntd/index.ts:156-160 | a list of years gives the set of its years; otherwise a non-zero single year gives just that year; otherwise no year filter |
| Ntd.FilterValues | src/analysis/ntd/index.ts:188-238 | filtering keeps at most the records it is given |
| Ntd.FilterValuesMember | src/analysis/ntd/index.ts:188-238 | a record is kept exactly when it was fetched and passes every active filter |
| Ntd.FilterValuesConcat | src/analysis/ntd/index.ts:164-238 | the records kept from two batches are those of the first followed by those of the second |
| Ntd.YearsTakePrecedence | src/analysis/ntd/index.ts:156-160 | with a list of years, the single year setting has no effect |
| Ntd.YearZeroIsNoFilter | src/analysis/ntd/index.ts:158 | a year of 0 filters exactly like no year |
| Ntd.EmptyYearsKeepNothing | src/analysis/ntd/index.ts:156-157 | an empty list of years, unlike an absent one, keeps no record |
| Ntd.StateCaseInsensitive | src/analysis/ntd/index.ts:193-198 | the state is matched without regard to the case of its letters |
| Ntd.NonUzaExcluded | src/analysis/ntd/index.ts:225-230 | with excludeNonUZA, a record whose urbanized area is empty, 'N/A' or contains 'Non-UZA' is dropped |
| Ntd.NoFilterKeepsAll | src/analysis/ntd/index.ts:192-237 | with no filter configured every record is kept |
| Ntd.Consumed | src/analysis/ntd/index.ts:164-241 | the pages read are at most the responses available |
| Ntd.ConsumedSplit | src/analysis/ntd/index.ts:164-241 | the pages read are the pages that said there is more, followed by the stopping page when it has edges |
| Ntd.AllEdgesSnoc | src/analysis/ntd/index.ts:188 | reading one more page adds exactly its edges, after the earlier ones |
| Ntd.AfterSnoc | src/analysis/ntd/index.ts:170-172 | the cursors of earlier requests do not change when a page is read |
| Ntd.RequestsSnoc | src/analysis/ntd/index.ts:170-172 | after a page is read every earlier request still carries the cursor of the page before it |
| Ntd.ReadEdges | src/analysis/ntd/index.ts:188-238 | reading a page's edges counts every edge and keeps exactly the ones that pass, after those kept before |
| Ntd.ReadPage | src/analysis/ntd/index.ts:188-238 | after a page, the kept records and the count cover all edges read so far |
| Ntd.FetchNtdData | src/analysis/ntd/index.ts:138-241 | fetchNTDData reads pages until one has no edges or no next page, returns exactly the records of those pages that pass the filters, counts every record read, and sends each request with the previous page's non-empty end cursor |
| VisionEval.LookupEntry | src/analysis/visioneval/index.ts:25-36 | a mode has a mapping exactly when the table has an entry for it, and the mapping is that entry's |
| VisionEval.VisionEvalModeDomain | src/analysis/visioneval/index.ts:25-36 | exactly the ten NTD modes DR, VP, MB, CB, MG, SR, TB, HR, LR and CR are mapped |
| VisionEval.VisionEvalModeRemaps | src/analysis/visioneval/index.ts:29-34 | commuter bus becomes bus rapid transit, trolleybus streetcar rail, and light rail heavy rail |
| VisionEval.LookupFirst | src/analysis/visioneval/index.ts:25-36 | a mode listed in the table maps to the value listed with it |
| VisionEval.VisionEvalModeValues | src/analysis/visioneval/index.ts:25-47 | every other mapped mode keeps its code, and every mapped mode is one of the eight VisionEval modes |
| VisionEval.ModeTableEntry | src/analysis/visioneval/index.ts:25-47 | each table entry maps to a VisionEval mode, and only CB, TB and LR change their code |
| VisionEval.ResolveFields | src/analysis/visioneval/index.ts:148-158 | without field overrides the default NTD field names are used |
| VisionEval.Amount | src/analysis/visioneval/index.ts:172-173 | a missing or falsy amount field reads as 0 |
| VisionEval.RecordOf | src/analysis/visioneval/index.ts:160-185 | a record's state is upper-cased and a missing NTD id or area name reads as the empty string |
| VisionEval.ProcessNtdValues | src/analysis/visioneval/index.ts:144-189 | processNTDValues yields one record per fetched value, in order, each read with the resolved field names |
| VisionEval.RecordDefaults | src/analysis/visioneval/index.ts:168-173 | missing miles and expenses are 0 and a missing state is the empty string |
| VisionEval.MappedRecords | src/analysis/visioneval/index.ts:200-205 | the records kept for the tables are at most the records given |
| VisionEval.MappedRecordsSnoc | src/analysis/visioneval/index.ts:200-205 | one more record adds one kept entry, with its mapped mode, exactly when its mode maps |
| VisionEval.MappedRecordsMember | src/analysis/visioneval/index.ts:200-205 | an entry is kept exactly for a record whose mode maps, paired with the mode it maps to |
| VisionEval.MareaKeys | src/analysis/visioneval/index.ts:207 | the (area, year) group of each kept record, in order |
| VisionEval.MareaRows | src/analysis/visioneval/index.ts:196-233 | one row per distinct (area, year) group, in first-seen order |
| VisionEval.MareaCmpAntisymmetric | src/analysis/visioneval/index.ts:236-240 | the area-then-year comparator is antisymmetric when the string comparison is |
| VisionEval.LocaleZero | src/analysis/visioneval/index.ts:237 | an antisymmetric string comparison finds two names equal in both orders or in neither |
| VisionEval.DistinctAppend | src/analysis/visioneval/index.ts:208-210 | a new key is appended to the insertion order and a known one leaves it unchanged |
| VisionEval.MilesOfAbsentKey | src/analysis/visioneval/index.ts:213 | a group no kept record belongs to has no miles |
| VisionEval.MareaStep | src/analysis/visioneval/index.ts:207-214 | one kept record adds its miles to its group and mode, and its group is appended when new |
| VisionEval.MareaOrderStep | src/analysis/visioneval/index.ts:208-210 | the group order grows by the record's group exactly when that group is new |
| VisionEval.MareaSumsStep | src/analysis/visioneval/index.ts:211-214 | after one record every group's per-mode sums equal the miles of the records read so far |
| VisionEval.AddMarea | src/analysis/visioneval/index.ts:200-215 | one turn of the grouping loop keeps the sums and order equal to those of the records read |
| VisionEval.GenerateMareaTransitService | src/analysis/visioneval/index.ts:196-243 | generateMareaTransitService returns the grouped rows sorted by area name and then year |
| VisionEval.MareaRowsOf | src/analysis/visioneval/index.ts:218-233 | converting the grouping map gives the rows of the grouping in insertion order |
| VisionEval.RowKeys | src/analysis/visioneval/index.ts:221-223 | the (area, year) of each row, in order |
| VisionEval.MareaKeysMember | src/analysis/visioneval/index.ts:200-210 | a group is present exactly when some record of it has a mapped mode |
| VisionEval.MareaTableSorted | src/analysis/visioneval/index.ts:236-240 | the marea table is sorted by area then year and is a permutation of the grouped rows |
| VisionEval.MareaTableRows | src/analysis/visioneval/index.ts:196-233 | there is one row per distinct (area, year) of the records with a mapped mode, each mode column holding that group's miles in that mode |
| VisionEval.AbsentModeIsZero | src/analysis/visioneval/index.ts:224-231 | a mode no record of a group maps to has 0 miles in that group's row |
| VisionEval.MilesOfNoEntry | src/analysis/visioneval/index.ts:213-214 | without an entry of a group and mode, its miles are 0 |
| VisionEval.UnmappedIgnored | src/analysis/visioneval/index.ts:203-205 | a record whose mode is not mapped changes no row of either table |
| VisionEval.ReadMareaKeyPlain | src/analysis/visioneval/index.ts:207-223 | an area name without '\|' is read back from the group key with its year |
| VisionEval.ReadMareaKeyOfBarName | src/analysis/visioneval/index.ts:207-223 | for any area name a\|b (with no bar in a or b), splitting the group key gives back area a, and the year read is parseInt(b) instead of the year |
| VisionEval.ReadMareaKeyWithBar | src/analysis/visioneval/index.ts:207-223 | the example "A\|B" of 2024 reads back as area "A" with no year (NaN) |
| VisionEval.CostKeys | src/analysis/visioneval/index.ts:259 | the (year, mode) group of each kept record, in order |
| VisionEval.CostPerMile | src/analysis/visioneval/index.ts:273 | the cost per mile times the miles is the expenses when there are miles, and 0 otherwise |
| VisionEval.CostRows | src/analysis/visioneval/index.ts:270-279 | one row per distinct (year, mode) group, in first-seen order |
| VisionEval.CostCmpAntisymmetric | src/analysis/visioneval/index.ts:282-286 | the year-then-mode comparator, which gives 0 whenever a year is NaN as the sort reads the NaN it returns, is antisymmetric when the string comparison is |
| VisionEval.CostTotalsOfAbsentKey | src/analysis/visioneval/index.ts:261-263 | a group no kept record belongs to has no expenses and no miles |
| VisionEval.CostStep | src/analysis/visioneval/index.ts:259-266 | one kept record adds its expenses and miles to its group, which is appended when new |
| VisionEval.CostOrderStep | src/analysis/visioneval/index.ts:261-263 | the group order grows by the record's group exactly when that group is new |
| VisionEval.CostTotalsStep | src/analysis/visioneval/index.ts:264-266 | after one record every group's totals equal the sums over the records read so far |
| VisionEval.AddCost | src/analysis/visioneval/index.ts:254-267 | one turn of the grouping loop keeps the totals and order equal to those of the records read |
| VisionEval.GenerateCostPerRevenueMile | src/analysis/visioneval/index.ts:250-289 | generateCostPerRevenueMile returns the grouped rows sorted by year and then mode |
| VisionEval.CostRowsOf | src/analysis/visioneval/index.ts:270-279 | converting the grouping map gives the rows of the grouping in insertion order |
| VisionEval.CostRowKeys | src/analysis/visioneval/index.ts:274-276 | the (year, mode) of each row, in order |
| VisionEval.CostKeysMember | src/analysis/visioneval/index.ts:254-260 | a (year, mode) group is present exactly when some record of that year has an NTD mode mapping to that mode |
| VisionEval.CostTableSorted | src/analysis/visioneval/index.ts:282-286 | the cost table is sorted under that comparator and is a permutation of the grouped rows |
| VisionEval.CostNaNYearsKeepOrder | src/analysis/visioneval/index.ts:282-286 | rows whose years are all NaN never reach the mode comparison and keep their grouping order |
| VisionEval.CostTableRows | src/analysis/visioneval/index.ts:250-279 | there is one row per distinct (year, VisionEval mode) of the records, holding that group's expenses over its miles, or 0 without miles |
| VisionEval.NtdIdColumn | src/analysis/visioneval/index.ts:302 | the NTD id of every record, in order |
| VisionEval.UzaNameColumn | src/analysis/visioneval/index.ts:303 | the area name of every record, in order |
| VisionEval.Summarize | src/analysis/visioneval/index.ts:302-311 | there are no more distinct agencies or areas than records, and none exactly when there are no records |
| VisionEval.ElementsBounds | src/analysis/visioneval/index.ts:302-303 | a column has at most as many distinct values as entries, and at least one when it is not empty |
| VisionEval.SummaryIgnoresModes | src/analysis/visioneval/index.ts:301-311 | the summary counts every record, whatever its mode |
| VisionEval.GenerateVisionEvalReport | src/analysis/visioneval/index.ts:294-320 | the report holds both sorted tables, the summary and the records themselves |
| Html.ReplaceAll | src/core/html.ts:16-20 | replacing a character that does not occur leaves the text unchanged |
| Html.EscapeHtml | src/core/html.ts:12-21 | null or undefined escapes to the empty string; any other value is its string form with each special character replaced by its entity |
| Html.EscapeChar | src/core/html.ts:16-20 | a character other than & < > " ' is kept as it is |
| Html.ReplaceAllConcat | src/core/html.ts:16-20 | a global replace of two texts joined is the replace of each, joined |
| Html.ReplacedConcat | src/core/html.ts:15-20 | the chain of five replaces distributes over concatenation |
| Html.ReplacedChar | src/core/html.ts:15-20 | the chain of replaces turns one character into its entity, or leaves it alone |
| Html.PassesThrough | src/core/html.ts:17-20 | the later replaces leave an entity produced by an earlier one untouched |
| Html.EscapedIsReplaced | src/core/html.ts:15-20 | the five chained replaces, & first, escape each character independently |
| Html.EntityAt | src/core/html.ts:16-20 | an entity found at the front of a text is a prefix of it starting with '&' |
| Html.EntityAtOfPiece | src/core/html.ts:16-20 | an escaped special character is read back as one entity at the front, and a plain one as none |
| Html.EscapedCons | src/core/html.ts:15-20 | escaping a character followed by text is its escape followed by the text's |
| Html.EscapeDecodeEntity | src/core/html.ts:16-20 | an entity found in escaped text decodes to the character that escapes to it |
| Html.EscapedIsEntitySafe | src/core/html.ts:15-20 | every '&' in escaped text begins one of the five entities |
| Html.UnescapeEscaped | src/core/html.ts:15-20 | decoding the entities of escaped text gives back the original text: no information is lost |
| Html.EscapedUnescape | src/core/html.ts:15-20 | any text whose '&'s all begin entities is the escape of exactly one text |
| Html.EscapeHtmlProperties | src/core/html.ts:12-21 | the output of escapeHtml has no bare < > " or ', every '&' begins an entity, and it decodes back to the input's string form |
| Html.NoBareSpecials | src/core/html.ts:17-20 | text whose '&'s all begin entities contains no bare < > " or ' |
| Html.EscapeHtmlIdentity | src/core/html.ts:12-21 | a string without special characters is returned unchanged |
| Html.EscapedPlain | src/core/html.ts:15-20 | escaping text without special characters changes nothing |
| Stream.ChunkCount | src/core/stream.ts:164 | the loop runs once per chunk: the ceiling of the length over the chunk size |
| Stream.MulMonotone | src/core/stream.ts:164 | a larger chunk index starts no earlier |
| Stream.ChunkArray | src/core/stream.ts:162-168 | the chunks concatenate back to the input, all but the last are exactly chunkSize long, the last is non-empty and at most chunkSize, their number is the ceiling of length over size, and there are none exactly for an empty input |
| StableSort.InsertBy | src/analysis/visioneval/index.ts:236-240 | inserting into a sorted list adds one element and puts either it or the old last element last |
| StableSort.SortBy | src/analysis/visioneval/index.ts:236-240 | sorting keeps the length |
| StableSort.InsertByPermutes | src/analysis/visioneval/index.ts:236-240 | inserting adds exactly the one element to the multiset |
| StableSort.InsertBySorted | src/analysis/visioneval/index.ts:236-240 | inserting into a sorted list under an antisymmetric comparator keeps it sorted |
| StableSort.SortBySorted | src/analysis/visioneval/index.ts:282-286 | Array.prototype.sort under an antisymmetric comparator yields a sorted permutation of its input |
| StableSort.SortBySortedUnchanged | src/analysis/visioneval/index.ts:282-286 | a list already in order, ties included, comes out of the sort unchanged |
| InsertionOrder.Distinct | src/tl/flex.ts:276 | [...new Set(xs)] holds each element of xs exactly once, and nothing else |
| InsertionOrder.Keys | src/tl/flex.ts:286 | the key of each entry, in entry order |
| InsertionOrder.FirstValues | src/tl/flex.ts:204-211 | a has-then-set map holds exactly the keys of its entries |
| InsertionOrder.FirstValuesFirst | src/tl/flex.ts:204-211 | with has-then-set, the value kept for a key is that of its first entry |
| InsertionOrder.ValuesInOrder | src/tl/flex.ts:285 | [...map.values()] lists the value of each key in insertion order |
| InsertionOrder.DistinctSnoc | src/tl/flex.ts:276 | one more element is appended to the distinct list exactly when it is new |
| InsertionOrder.FirstValuesSnoc | src/tl/flex.ts:204-211 | one more entry is added to a has-then-set map only when its key is new |
| InsertionOrder.CollectFirst | src/tl/flex.ts:201-212 | the has-then-set loop builds the keys in insertion order and each key's first value |
| InsertionOrder.CollectLast | src/scenario.ts:339-346 | the set loop builds the keys in first-insertion order and each key's last value |
| InsertionOrder.CollectDistinct | src/tl/flex.ts:232-237 | the Set-building loop yields each element once, in first-seen order |
| InsertionOrder.LastValues | src/scenario.ts:339-346 | a map filled by set holds exactly the keys of its entries |
| InsertionOrder.LastValuesLast | src/scenario.ts:339-346 | with set, the value kept for a key is that of its last entry |
| InsertionOrder.LastValuesSnoc | src/scenario.ts:339-346 | one more set overrides the value of its key |
| InsertionOrder.DistinctOfNoDuplicates | src/tl/flex.ts:286 | a list without duplicates is its own distinct list |
| InsertionOrder.Entries | src/scenario-fixtures.ts:104-107 | Array.from(map.entries()) lists each key in insertion order with its value |
| InsertionOrder.FromEntries | src/scenario-fixtures.ts:126-131 | new Map(entries) is a well-formed insertion-ordered map |
| InsertionOrder.LastValuesOfEntries | src/scenario-fixtures.ts:126-131 | rebuilding from a prefix of a map's entries gives the map restricted to those keys |
| InsertionOrder.FromEntriesOfEntries | src/scenario-fixtures.ts:104-131 | new Map(Array.from(m.entries())) is m again, order included |
| InsertionOrder.RestrictToOrder | src/scenario-fixtures.ts:126-131 | a well-formed map's values are exactly those of its ordered keys |
| LegacyDatetime.FmtDateNonEmpty | src/datetime.ts:13-18 | formatting a date never gives the empty string |
| LegacyDatetime.ParseDate | src/datetime.ts:6-11 | an empty string parses to null and any other string to the parser's date |
| LegacyDatetime.FmtDate | src/datetime.ts:13-18 | the empty string exactly for a missing date |
| LegacyDatetime.FmtClock | src/datetime.ts:27-32 | a time of day renders as at least HH:mm:ss |
| LegacyDatetime.ParseTime | src/datetime.ts:20-25 | an empty string parses to null and any other string to the parser's time |
| LegacyDatetime.FmtTime | src/datetime.ts:27-32 | the empty string exactly for a missing time |
| LegacyDatetime.ParseFmtDate | src/datetime.ts:6-18 | a missing date round-trips to null and a present one to the parse of its rendering |
| LegacyDatetime.ParseFmtTime | src/datetime.ts:20-32 | a missing time round-trips to null and a present one to the parse of its rendering |
| LegacyDatetime.ParseHMS | src/datetime.ts:44-52 | -1 unless the text splits into exactly three parts; NaN exactly when one of the three parts is not a number |
| LegacyDatetime.ParseHMSAgainstCore | src/datetime.ts:44-52 | the legacy parseHMS agrees with the current one except on a non-numeric part, where it gives NaN and the current one -1 |
| LegacyDatetime.ParseHMSOfFields | src/datetime.ts:44-52 | h:m:s reads as h*3600 + m*60 + s |
| LegacyRoute.Window | src/route.ts:230-232 | a NaN bound keeps no departure; otherwise exactly the departures inside the closed window, with their multiplicities |
| LegacyRoute.Gaps | src/route.ts:235-238 | one headway fewer than departures (none for an empty list) |
| LegacyRoute.GapsAt | src/route.ts:235-238 | headway i is departure i+1 minus departure i |
| LegacyRoute.GapsSum | src/route.ts:235-238 | the headways of a date add up to its last departure minus its first |
| LegacyRoute.GapsOfSorted | src/route.ts:233-238 | headways of sorted departures are never negative |
| LegacyRoute.ComputeGaps | src/route.ts:235-238 | the loop pushes exactly the consecutive differences |
| LegacyRoute.DateSeconds | src/route.ts:218-233 | the windowed departures of the busiest stop of a date come out sorted |
| LegacyRoute.DateHeadways | src/route.ts:235-239 | the headways of a date are sorted, non-negative and a permutation of the consecutive gaps |
| LegacyRoute.DateHeadwaysSpan | src/route.ts:230-239 | a date with n departures gives n-1 headways that add up to its first-to-last span |
| LegacyRoute.SumOfPermutation | src/route.ts:144 | reordering headways does not change their sum, so sorting leaves the average alone |
| LegacyRoute.SumRemove | src/route.ts:144 | removing one headway lowers the sum by exactly that headway |
| LegacyRoute.SumSplit | src/route.ts:144 | the sum of concatenated headway lists is the sum of the sums |
| LegacyRoute.NewRouteHeadwaySummary | src/route.ts:280-291 | a fresh summary has a total and one bucket per weekday |
| LegacyRoute.Bucket | src/route.ts:241-274 | every headway collected into a bucket is non-negative |
| LegacyRoute.SummaryAfter | src/route.ts:216-276 | the summary part-way through the loop still has one bucket per weekday |
| LegacyRoute.RouteHeadwaysOf | src/route.ts:203-278 | the result of routeHeadways has one bucket per weekday |
| LegacyRoute.SummaryAfterNone | src/route.ts:210 | before any date the summary is the fresh one |
| LegacyRoute.BucketStep | src/route.ts:241-274 | one more date appends its headways and stop id to a bucket exactly when the date belongs to it |
| LegacyRoute.DayOfSummary | src/route.ts:246-274 | the weekday bucket holds the headways of that weekday's dates, per direction |
| LegacyRoute.DayStep | src/route.ts:246-274 | one more date changes only the bucket of its own weekday |
| LegacyRoute.SummaryStep | src/route.ts:241-274 | one more date updates the total and its weekday bucket of one direction and nothing else |
| LegacyRoute.RouteHeadways | src/route.ts:203-278 | the nested loops build exactly the summary of per-date headways, total and per weekday |
| LegacyRoute.NoCacheEmpty | src/route.ts:211-213 | without a cache every bucket is empty with stop id 0 |
| LegacyRoute.NaNWindowEmpty | src/route.ts:214-232 | an unparseable window bound collects no headways at all |
| LegacyRoute.BusierHeadways | src/route.ts:139-142 | the direction with more headways is used, direction 0 on a tie |
| LegacyRoute.FrequenciesAsWritten | src/route.ts:143-151 | as written fastest and slowest are the first and last of the headway list, all null for none |
| LegacyRoute.FrequenciesOf | src/route.ts:143-151 | corrected: the mean of the headways and two present extremes, all null for none |
| LegacyRoute.FrequenciesBounds | src/route.ts:145-146 | corrected fastest and slowest are headways that bound every other headway |
| LegacyRoute.AsWrittenAgreesWhenSorted | src/route.ts:143-151 | the two readings agree whenever the headway list is sorted |
| LegacyRoute.SingleDateAgrees | src/route.ts:239 | over a single date the list is sorted, so the two readings agree |
| LegacyRoute.OneGapDate | src/route.ts:218-239 | a date whose only stop departs twice gives that stop and one headway |
| LegacyRoute.WholeDayKeepsBoth | src/route.ts:230-233 | a whole-day window keeps both departures in order |
| LegacyRoute.FirstLastNotExtremes | src/route.ts:143-151 | two dates with headways 600 then 300: as written fastest is 600 and slowest 300, the corrected ones 300 and 600 |
| LegacyRoute.ExampleTotal | src/route.ts:241-244 | the total concatenates per-date sorted lists, so [600, 300] is unsorted |
| LegacyRoute.ExampleBucket | src/route.ts:241-244 | the all-dates bucket of the example is [600, 300] |
| LegacyRoute.TotalOfCache | src/route.ts:214-244 | with a cache the total of direction 0 is the all-dates bucket under the parsed window |
| LegacyRoute.ExampleLookups | src/route.ts:221 | the example cache answers each date with its own stop departures |
| LegacyRoute.TwoDatesTotal | src/route.ts:217-244 | over two dates the total is the first date's headways followed by the second's |
| LegacyRoute.TwoHeadways | src/route.ts:145-146 | for the list [long, short] the as-written extremes are swapped against the corrected ones |
| LegacyRoute.Route.constructor | src/route.ts:68-78 | a route keeps its id, type and agency name and starts marked with all three frequencies null |
| LegacyRoute.RouteMarked | src/route.ts:165-201 | marked exactly when route type, agency and both frequency bounds pass; an empty list or a negative bound is no filter |
| LegacyRoute.NoFilters | src/route.ts:165-201 | with no lists and no active bound every route is marked |
| LegacyRoute.ZeroBoundIsActive | src/route.ts:187-191 | a zero lower bound is active and drops a route with no or zero average |
| LegacyRoute.MarkedWithinBounds | src/route.ts:187-197 | a marked route under both active bounds has an average between them in seconds |
| LegacyRoute.LooserBoundsKeepMarked | src/route.ts:187-197 | loosening either bound never unmarks a route |
| LegacyRoute.RouteSetDerived | src/route.ts:118-162 | with a cache the frequencies come from the busier direction; without one they stay; then the route is marked by the filter |
| LegacyRoute.SetFrequencies | src/route.ts:143-151 | the three frequency fields become the corrected frequencies of the headways |
| LegacyStop.LegacyTimes | src/stop.ts:219 | one parsed time per departure, each the legacy parseHMS of its departure time |
| LegacyStop.CountInWindow | src/stop.ts:220-225 | a date never counts more visits than it has departures |
| LegacyStop.CountIsInWindowTimes | src/stop.ts:220-225 | the count is the number of departures whose time lies in the closed window |
| LegacyStop.NaNBoundCountsNothing | src/stop.ts:211-225 | a start or end time that parses to NaN counts no visit |
| LegacyStop.CountAgainstCore | src/stop.ts:220-225 | on numeric times the legacy count equals the count of the current stop filter |
| LegacyStop.CountDepartures | src/stop.ts:220-225 | the counting loop gives exactly the in-window count |
| LegacyStop.StopVisits | src/stop.ts:199-262 | without a cache the fresh summary; otherwise every selected-weekday date adds its in-window count to the total and its weekday |
| LegacyStop.NoVisitsOnAnyDate | src/stop.ts:226-258 | with no visit on any date, a weekday keeps all-date service exactly when none of its dates was counted |
| LegacyStop.NaNWindowNoVisits | src/stop.ts:211-258 | a NaN window bound leaves every counter at zero visits |
| LegacyStop.Stop.constructor | src/stop.ts:65-67 | a stop keeps its id and route stops and starts unmarked without visits |
| LegacyStop.StopMarked | src/stop.ts:265-333 | marked exactly when the weekday check of the selected mode passes (with a cache) and, under a route-level filter, one of its routes is marked |
| LegacyStop.StopSetDerived | src/stop.ts:150-184 | visits are counted first and the mark is then taken from those visits |
| LegacyStop.MarkWithoutFilters | src/stop.ts:308-332 | with no cache and no filter every stop is kept; with a cache an unknown day mode drops every stop |
| LegacyStop.ZeroBoundKeepsStops | src/stop.ts:323 | a frequency bound of 0 is no route-level filter for stops, a positive one is |
| LegacyStop.NaNWindowMarks | src/stop.ts:276-318 | with a NaN window no stop passes in Any mode, and in All mode only one whose selected weekdays had no dates |
| StopCsv.Round | src/stop.ts:451 | Math.round gives the integer within half of the value, halves rounded up |
| StopCsv.RoundOr | src/stop.ts:445-452 | null exactly for a missing value |
| StopCsv.RoundOrBounds | src/stop.ts:445-452 | a rounded value lies within half a hundredth of the value, and rounding it again changes nothing |
| StopCsv.RouteTypes | src/stop.ts:380-384 | the route type of each route stop, in order |
| StopCsv.RouteIdsMember | src/stop.ts:382 | a route id is in the set exactly when some route stop has it |
| StopCsv.AgencyIdsMember | src/stop.ts:409 | an agency id is in the set exactly when some route stop's route has it |
| StopCsv.AgencyIdsBound | src/stop.ts:433 | a stop never counts more agencies than route stops |
| StopCsv.ModeName | src/stop.ts:411 | a name exactly for route types 0 to 4, the name of the route-type table |
| StopCsv.KnownModeNamesMember | src/stop.ts:410-414 | a name is collected exactly when some route stop has a known route type with that name |
| StopCsv.JoinWith | src/stop.ts:432 | joining no parts gives the empty text and one part gives that part |
| StopCsv.DayAverage | src/stop.ts:435-441 | no weekday average without visits |
| StopCsv.TotalAverage | src/stop.ts:434 | no daily average without visits |
| StopCsv.StopToStopCsv | src/stop.ts:404-443 | the row copies id, mark and GTFS fields, counts every route stop and the distinct agencies, lists distinct mode names and rounds the averages |
| StopCsv.StopModes | src/stop.ts:406-432 | the mode names of a row are distinct, at most five, and exactly the names of its known route types |
| StopCsv.DistinctWithin | src/stop.ts:406-432 | a repeat-free list drawn from a set is no longer than the set |
| StopCsv.LayerGeographies | src/stop.ts:366 | exactly the stop's geographies of the chosen layer |
| StopCsv.StopHitsSnoc | src/stop.ts:367 | the inner loop visits the layer geographies of a stop one by one in order |
| StopCsv.HitsMember | src/stop.ts:365-367 | a pass of the nested loops is a stop with one of its geographies of the layer |
| StopCsv.GeoIds | src/stop.ts:385 | the geoid of each pass, in order |
| StopCsv.AbsorbRoutes | src/stop.ts:380-384 | a stop's route stops add their routes and agencies to the sets and leave the rest alone |
| StopCsv.AggOf | src/stop.ts:368-385 | a geoid has an accumulator exactly when some pass had that geoid |
| StopCsv.GeoAggregate | src/stop.ts:352-402 | one row per geoid, in order of first sight |
| StopCsv.AddHit | src/stop.ts:368-385 | one inner-loop pass keeps the map equal to the accumulators of all passes so far, keys in insertion order |
| StopCsv.AddStop | src/stop.ts:366-386 | one stop's passes keep the map equal to the accumulators of all passes so far |
| StopCsv.RowsOfState | src/stop.ts:388-401 | reading the finished map in insertion order gives the rows of the aggregate |
| StopCsv.StopGeoAggregateCsv | src/stop.ts:352-402 | the nested loops and the row mapping give exactly one row per geoid in order of first sight |
| StopCsv.GeoRowsDistinct | src/stop.ts:353-401 | no two rows share a geoid |
| StopCsv.GeoRowsCover | src/stop.ts:365-401 | there is a row for a geoid exactly when some stop lies in a geography of the layer with that geoid |
| StopCsv.AggFirst | src/stop.ts:368-377 | a row's layer name and name are those of the first geography with its geoid |
| StopCsv.AggStops | src/stop.ts:378 | a row counts exactly the stops of the passes with its geoid |
| StopCsv.AggRoutes | src/stop.ts:382 | a row counts exactly the routes of those stops |
| StopCsv.AggAgencies | src/stop.ts:381 | a row counts exactly the agencies of those routes |
| StopCsv.AbsorbModes | src/stop.ts:383 | adding route types keeps the mode list the distinct types in order of first sight |
| StopCsv.AggModes | src/stop.ts:383-389 | a row's modes are its route types, each once, in order of first sight |
| StopCsv.AggModesFirst | src/stop.ts:368-383 | the first pass of a geoid starts its modes from its own route types |
| StopCsv.TypesAtAbsent | src/stop.ts:368-377 | a geoid with no pass has no route types |
| LegacyComponents.NatToStringInjective | components/route.ts:78 | different non-negative route types never print the same |
| LegacyComponents.IntToStringInjective | components/route.ts:78 | different route types never print the same, so comparing their strings compares the numbers |
| LegacyComponents.RouteFilter | components/route.ts:75-88 | a type selection decides alone, else an agency selection, else the route is kept |
| LegacyComponents.RouteTypeDecidesAlone | components/route.ts:77-79 | under a type selection the agency is never consulted, and the selection of one type keeps exactly that type |
| LegacyComponents.DaysPassMeaning | components/stop.ts:106-121 | Any means service on some selected date of the range, All on every selected date of the range |
| LegacyComponents.FindRouteType | components/stop.ts:138-149 | found exactly when some route of the stop has a selected type |
| LegacyComponents.FindAgency | components/stop.ts:153-164 | found exactly when some route of the stop has a selected agency name |
| LegacyComponents.CheckDays | components/stop.ts:100-134 | the date loop and the mode give exactly the Any or All day check; any other mode fails |
| LegacyComponents.StopFilter | components/stop.ts:90-168 | kept exactly when the day check (with weekdays and a cache), the type check and the agency check each pass where selected |
| LegacyComponents.StopFilterAppliesBoth | components/stop.ts:136-164 | unlike routeFilter the stop filter needs both the type and the agency of a route |
| LegacyComponents.NoSelectedDateInRange | components/stop.ts:100-134 | no weekday selection means no day check; with no selected date in range All passes and Any fails |
| LegacyComponents.StubRouteHeadways | components/departure.ts:185-188 | routeHeadways over the stub lookup, whose `{}` has no `entries`, fails exactly when some date is selected |
| LegacyComponents.StubAgreesWithoutDates | src/route.ts:203-222 | with no date selected the stub gives the same fresh summary as any route index |
| LegacyComponents.StubFrequencies | src/route.ts:131-146 | with the stub, routeSetDerived fails for a selected date and otherwise leaves all three frequencies null |
| Wsdot.Histogram | src/analysis/wsdot/index.ts:281-289 | an hour has a bucket exactly when some departure falls in it |
| Wsdot.DepartureHours | src/analysis/wsdot/index.ts:281-289 | one hour per departure of the stop |
| Wsdot.CountValid | src/analysis/wsdot/index.ts:403-411 | the valid-hour counter never exceeds the number of listed hours |
| ScenarioFilter.VisitsOf | src/scenario/scenario-filter.ts:278-342 | the visit summary after any prefix of the dates keeps a bucket per weekday |
| ScenarioFilter.DepartureTimes | src/scenario/scenario-filter.ts:299 | one parsed time per departure, each the parseHMS of its departure time |
| WsdotStopsRoutes.StopResults | src/analysis/wsdot-stops-routes/index.ts:104-175 | one result per kept stop, in order, each built from that stop and the level lookup |
| WsdotStopsRoutes.RouteResults | src/analysis/wsdot-stops-routes/index.ts:177-229 | one result per route, in order, each built from that route |
| WsdotPython.InitialRows | docs/wsdot-python/wsdot.py:282-285 | one row per weekday stop, in order, with its coordinates and no level cells |

Several source files carry the same code, and one member models every copy; each row above cites the primary copy. The other copies are:

- `DepartureCache.StopDepartureCache.Get`: components/departure.ts:161-164.
- `DepartureCache.StopDepartureCache.Add`: components/departure.ts:166-175.
- `DepartureCache.StopDepartureCache.HasService`: components/departure.ts:177-183.
- `AgencyAggregation.AggregateAgencies`: src/scenario.ts:772-821, src/scenario-fetcher.ts:443-494.
- `AgencyAggregation.AgencyListKeys`: src/scenario.ts:773-803.
- `AgencyAggregation.AgencyListEntry`: src/scenario.ts:803-821, src/scenario-fetcher.ts:475-494.
- `AgencyAggregation.AgencyListMarked`: src/scenario.ts:794-807, src/scenario-fetcher.ts:466-476.
- `Scenario.SelectedDateRange`: src/scenario/scenario-fetcher.ts:457-467.
- `Scenario.StopDepartureQueryVars.Get`: components/departure.ts:102-120.
- `Scenario.StopDepartureQueryVars.SetDay`: components/departure.ts:122-154.
- `Scenario.ScenarioDataReceiver.OnProgress`: src/scenario/scenario-fetcher.ts:387-424.
- `ScenarioLegacy.FrequencySentinel`: src/scenario-fetcher.ts:373-374.
- `StopCsv.StopToStopCsv`: src/tl/stop.ts:213-252.
- `StopCsv.StopGeoAggregateCsv`: src/tl/stop.ts:161-211.

## Left out

- Network and fetch orchestration are not modelled: the GraphQL clients, the ScenarioFetcher pipelines, the NTD GraphQL query and its `onProgress` callbacks. The NTD page loop reads a given sequence of page responses instead.
- The task queue and its concurrency are not modelled, and neither is the streaming plumbing (stream senders and receivers, multiplexing, the scenario streamers and clients).
- Census and geography fetching are not modelled: they are network calls over floating-point area ratios.
- Floating point is not modelled. Amounts and averages are exact reals and counts are unbounded integers, so the 2^53 precision limit of JavaScript numbers is absent.
- StopCsv.RoundOr: the rounding is exact `Math.round(x * 100) / 100` over reals, with no binary floating-point error.
- VisionEval.MareaRows: the revenue miles are summed without `Math.round`.
- VisionEval.CostRows: the cost per mile is not rounded to two decimals.
- VisionEval.CostTableRows: the cost per mile is not rounded to two decimals.
- VisionEval.ProcessNtdValues: `parseFloat` is a parameter of the model, because the text-to-number conversion is floating point.
- VisionEval.MareaTableSorted: `localeCompare` is a parameter of the model, assumed only to have an antisymmetric sign; collation itself is not modelled.
- Date-fns `parse`, `format` and `Date` arithmetic are abstracted. A date is a day number with its weekday and its `yyyy-MM-dd` text; daylight saving and time zones are not modelled.
- LegacyDatetime.ParseDate: date-fns `parse`, which resolves text against today's date, is a parameter.
- LegacyDatetime.ParseTime: date-fns `parse`, which resolves text against today's date, is a parameter.
- FlexTypes.IsBookingAvailableOnDay: `isBookingAvailableToday` reads the clock through `new Date()`, so the model takes the weekday as a parameter.
- Ntd.Upper: `toUpperCase` is modelled on ASCII letters only; Unicode case mapping is not.
- Stream.ChunkArray: requires a chunk size of at least 1. With a size of 0 or less the JavaScript loop never ends.
- Stream: only `chunkArray` is modelled from src/core/stream.ts; the stream classes are I/O.
- Scenario.ScenarioDataReceiver.OnProgress: `trip_trip_id` is not kept, because the modelled departure record has no trip id field.
- VisionEval.GenerateMareaTransitService: the in-place `sort` is modelled as an insertion sort on a sequence, and the mode columns are left unrounded as for MareaRows. The engine's own sort algorithm and its update in place are not modelled.
- VisionEval.GenerateCostPerRevenueMile: the in-place `sort` is modelled as an insertion sort on a sequence, as above.
- StableSort.SortBy: that rows comparing equal keep their input order is proved only for an input already in order (`StableSort.SortBySortedUnchanged`), not in general.
- VisionEval.MareaTableRows: the mode columns are the unrounded sums; the source rounds each with `Math.round`.
- VisionEval.GenerateVisionEvalReport: it carries the unrounded marea mode columns and the unrounded cost per mile of the two tables above.
- JavaScript objects used as dictionaries are modelled as maps, so prototype keys such as `__proto__` are not modelled.
- src/departure-cache.ts is not part of this model. The legacy route and stop filters read the cache through `DepartureCache.StopDepartureCache`, which has the same `get` and `hasService`.
- LegacyRoute.RouteHeadwaysOf: the route lookup of the legacy cache is an index value that holds each departure as seconds. In src/route.ts:230-232 the lookup holds `StopTime` records, and each `departure_time` goes through `parseHMS`, which can give NaN. That per-departure parse is not modelled. A NaN departure fails both window comparisons, so the source drops it, while the model has no such departure. The stub of components/departure.ts that returns `{}` is modelled separately by `LegacyComponents.StubRouteHeadways`.
- DepartureCache.RouteDepartureIndex.FromCache: each route|date entry of the two caches is a plain map from stop to departures, so the order in which stops enter it is not kept. src/tl/departure-cache.ts:53-69 walks the stop cache in insertion order, so each route|date Map lists its stops in that order.
- DepartureCache.RouteDepartureIndex.GetRouteDate: the returned map has no stop order. src/scenario/route-headway.ts:61-66 scans that Map in insertion order and keeps the first stop with strictly more departures, so on a tie the order decides `stop_id` and whose departures are used. `RouteHeadway` takes the stops as an ordered list (`RouteHeadway.Representative`), but no lemma derives that list from this index.
- RouteHeadway.RouteHeadwaysOf: the route index is read as stop → departure times in seconds, which is what src/scenario/route-headway.ts:58 and :68 assume. The `RouteDepartureIndex` of src/tl/departure-cache.ts:40-85 holds `StopTime` records, each with a string `departure_time` (`DepartureCache.RouteDepartureIndex.GetRouteDate` returns them). As written, src/scenario/route-headway.ts:70 compares those records with numbers. Such a comparison is false, so on a real index the window keeps no departure. No lemma connects the two index types, and the conversion from `StopTime` to seconds is not modelled.
- Wsdot.Fetch: each level's stop list is a set. src/analysis/wsdot/index.ts:216 stores `Array.from(qualifyingStops)`, an array in the set's insertion order. The model keeps membership but not that order.
- Logging is not modelled: the `console.log` calls (in `getRouteDate`, `stopMarked` and elsewhere) only write to the console.
- src/core/index.ts is not part of this model. The route type names used by src/tl/stop.ts are taken to be the table of src/constants.ts, five types named for 0 to 4.
- routeToRouteCsv in src/route.ts is not modelled: it is a field copy.
- WsdotPython.MergeLevels: the row order of the pandas outer merge is not modelled; membership and cell values are.
- WsdotPython.ProcessServiceLevel: the transit_service_analyst and pandas readers are given tables, and a missing hour column, which would be a KeyError, is excluded by a precondition.
- WsdotPython.ProcessNightSegments: requires a non-empty segment list. Python raises IndexError on an empty one, and the only caller passes the non-empty list of the level table.
- docs/wsdot-python/wsdot-orig.py is not modelled: it does not parse, since an `if` at line 642 has no indented body.
- The debug block of docs/wsdot-python/wsdot.py, its command-line arguments and its CSV writing are I/O and are not modelled.
- The orchestration of applyScenarioResultFilter is not modelled as one operation: its route marking, stop marking, flex-area marking and agency aggregation are modelled one by one.
- UI components, server endpoints, the colour scales and the geometry helpers are not modelled.

## Behaviour kept as coded

Where a comment in the source says one thing and the code does another, the model follows the code:

- src/scenario/scenario-filter.ts:11 says an empty array selects nothing. For the stop weekday check (356-400), an empty weekday list still passes in 'All' mode, because nothing clears `hasAll`. See `ScenarioFilter.StopWeekdaySelection`.
- src/flex/types.ts:285 treats a day number outside 0 to 6 as bookable instead of rejecting it. See `FlexTypes.IsBookingAvailableOnDay`.
- src/scenario-streaming.ts:70 calls `onComplete` with no argument, so the callback never receives the final data. See `ScenarioStreaming.ScenarioDataReceiver.OnComplete`.
- components/departure.ts:185-188 stubs `getRouteDate` with a plain `{}`, so `routeHeadways` (src/route.ts:222) fails on the first selected date when it calls `.entries()`. See `LegacyComponents.StubRouteHeadways`.
- src/analysis/visioneval/index.ts:283-284 returns the year difference whenever it is not 0, and NaN is not 0: a NaN year ends the comparison with NaN, which the sort reads as 0, so the modes are never compared. See `VisionEval.CostNaNYearsKeepOrder`.
- src/datetime.ts:44-52 has no NaN check: a part that is not a number makes the time NaN, which then fails every window comparison. See `LegacyDatetime.ParseHMSAgainstCore`, `LegacyStop.NaNBoundCountsNothing` and `LegacyRoute.NaNWindowEmpty`.

## Findings

| source | as written | input that shows it | evidently intended | confidence | as-written member | corrected member |
|---|---|---|---|---|---|---|
| src/route.ts:145-146 | fastest and slowest are the first and last headway of the busier direction's total. The total concatenates per-date lists that are each sorted, so over several dates it is not sorted. | two dates whose only stop departs at 0 s and 600 s, then at 0 s and 300 s, with the window 0:0:0 to 24:0:0. The total is [600, 300], so fastest is 600 and slowest 300. | fastest is the shortest headway and slowest the longest | not executed | LegacyRoute.FirstLastNotExtremes | LegacyRoute.FrequenciesBounds |
| src/analysis/visioneval/index.ts:207-223 | the group key `${uzaName}\|${year}` is split back on '\|', taking the first two pieces | an area named "A\|B" in 2024 reads back as area "A" with year "B", which parses to NaN | each group reads back as its own area name and year | not executed | VisionEval.ReadMareaKeyWithBar | VisionEval.MareaRows |
| src/scenario/scenario-filter.ts:85-92 | routeSetDerived passes the stop departure cache to routeHeadways, which expects a route departure index and calls its getRouteDate | any non-empty date range: the first lookup fails, because the cache has no getRouteDate | routeHeadways reads the route departure index built from the loaded departures | not executed | ScenarioFilter.CacheForIndexFails | ScenarioFilter.RouteSetDerived |
