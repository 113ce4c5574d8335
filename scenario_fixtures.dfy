/**
 * The JSON fixture format of src/scenario-fixtures.ts: each `Map` of the
 * departure cache becomes its entry list (nested maps become nested entry
 * lists), dates and times become strings, and everything else is copied.
 */
module ScenarioFixtures {
  import opened Wrappers
  import opened InsertionOrder
  import Calendar
  import CoreDatetime
  import DepartureCache
  import Scenario
  import LegacyDatetime

  // ---------------------------------------------------------------------
  // Nested maps
  // ---------------------------------------------------------------------

  /** The outer map and every inner map are well formed. */
  predicate NestedWellFormed<K(==,!new), K2(==,!new), V>(m: OrderedMap<K, OrderedMap<K2, V>>)
  {
    WellFormed(m) && forall k :: k in m.values ==> WellFormed(m.values[k])
  }

  /** `Array.from(m.entries()).map(([k, inner]) => [k, Array.from(inner.entries())])`. */
  function SerializeNested<K(==,!new), K2(==,!new), V>(m: OrderedMap<K, OrderedMap<K2, V>>): (r: seq<(K, seq<(K2, V)>)>)
    requires NestedWellFormed(m)
    ensures |r| == |m.order| && forall i :: 0 <= i < |r| ==> r[i].0 == m.order[i]
  {
    var es := Entries(m);
    seq(|es|, i requires 0 <= i < |es| => (es[i].0, Entries(es[i].1)))
  }

  /** `new Map(s.map(([k, entries]) => [k, new Map(entries)]))`. */
  function DeserializeNested<K(==,!new), K2(==,!new), V>(s: seq<(K, seq<(K2, V)>)>): (r: OrderedMap<K, OrderedMap<K2, V>>)
    ensures NestedWellFormed(r)
  {
    var es := seq(|s|, i requires 0 <= i < |s| => (s[i].0, FromEntries(s[i].1)));
    assert forall k :: k in LastValues(es) ==> WellFormed(LastValues(es)[k]) by {
      forall k | k in LastValues(es)
        ensures WellFormed(LastValues(es)[k])
      {
        LastValuesFrom(es, k);
      }
    }
    FromEntries(es)
  }

  /** Every value of `LastValues(es)` is the value of some entry. */
  lemma {:induction false} LastValuesFrom<K(!new), V>(es: seq<(K, V)>, k: K)
    requires k in LastValues(es)
    ensures exists i :: 0 <= i < |es| && es[i].1 == LastValues(es)[k]
  {
    var p := es[..|es| - 1];
    var e := es[|es| - 1];
    if k != e.0 {
      LastValuesFrom(p, k);
      var i :| 0 <= i < |p| && p[i].1 == LastValues(p)[k];
      assert es[i] == p[i];
    } else {
      assert es[|es| - 1].1 == LastValues(es)[k];
    }
  }

  /** Deserializing a serialized nested map gives back the same keys, order and values at both levels. */
  lemma NestedRoundTrip<K(!new), K2(!new), V>(m: OrderedMap<K, OrderedMap<K2, V>>)
    requires NestedWellFormed(m)
    ensures DeserializeNested(SerializeNested(m)) == m
  {
    var s := SerializeNested(m);
    var es := seq(|s|, i requires 0 <= i < |s| => (s[i].0, FromEntries(s[i].1)));
    forall i | 0 <= i < |s|
      ensures es[i] == Entries(m)[i]
    {
      FromEntriesOfEntries(Entries(m)[i].1);
    }
    assert es == Entries(m);
    FromEntriesOfEntries(m);
  }

  // ---------------------------------------------------------------------
  // The departure cache
  // ---------------------------------------------------------------------

  /** The three maps of the departure cache: stop -> date -> departures, and route|date -> stop -> departures per direction. */
  datatype CacheMaps = CacheMaps(
    cache: OrderedMap<int, OrderedMap<string, seq<DepartureCache.StopTime>>>,
    routeCache0: OrderedMap<string, OrderedMap<int, seq<DepartureCache.StopTime>>>,
    routeCache1: OrderedMap<string, OrderedMap<int, seq<DepartureCache.StopTime>>>)
  {
    predicate WellFormed()
    {
      NestedWellFormed(cache) && NestedWellFormed(routeCache0) && NestedWellFormed(routeCache1)
    }
  }

  datatype SerializableCache = SerializableCache(
    cache: seq<(int, seq<(string, seq<DepartureCache.StopTime>)>)>,
    routeCache0: seq<(string, seq<(int, seq<DepartureCache.StopTime>)>)>,
    routeCache1: seq<(string, seq<(int, seq<DepartureCache.StopTime>)>)>)

  /** `serializeStopDepartureCache`. */
  function SerializeCache(c: CacheMaps): (r: SerializableCache)
    requires c.WellFormed()
    ensures |r.cache| == |c.cache.order|
  {
    SerializableCache(SerializeNested(c.cache), SerializeNested(c.routeCache0), SerializeNested(c.routeCache1))
  }

  /** `deserializeStopDepartureCache`: a fresh cache whose three maps are rebuilt from the entry lists. */
  function DeserializeCache(s: SerializableCache): (r: CacheMaps)
    ensures r.WellFormed()
  {
    CacheMaps(DeserializeNested(s.cache), DeserializeNested(s.routeCache0), DeserializeNested(s.routeCache1))
  }

  lemma CacheRoundTrip(c: CacheMaps)
    requires c.WellFormed()
    ensures DeserializeCache(SerializeCache(c)) == c
  {
    NestedRoundTrip(c.cache);
    NestedRoundTrip(c.routeCache0);
    NestedRoundTrip(c.routeCache1);
  }

  // ---------------------------------------------------------------------
  // Scenario data
  // ---------------------------------------------------------------------

  datatype ScenarioData = ScenarioData(routes: seq<Scenario.RouteGql>, stops: seq<Scenario.StopGql>,
                                       feedVersions: seq<Scenario.FeedVersion>, stopDepartureCache: CacheMaps, isComplete: bool)

  datatype SerializableData = SerializableData(routes: seq<Scenario.RouteGql>, stops: seq<Scenario.StopGql>,
                                               feedVersions: seq<Scenario.FeedVersion>, stopDepartureCache: SerializableCache, isComplete: bool)

  function SerializeData(d: ScenarioData): (r: SerializableData)
    requires d.stopDepartureCache.WellFormed()
    ensures r.routes == d.routes && r.stops == d.stops && r.feedVersions == d.feedVersions && r.isComplete == d.isComplete
  {
    SerializableData(d.routes, d.stops, d.feedVersions, SerializeCache(d.stopDepartureCache), d.isComplete)
  }

  function DeserializeData(s: SerializableData): (r: ScenarioData)
    ensures r.routes == s.routes && r.stops == s.stops && r.feedVersions == s.feedVersions && r.isComplete == s.isComplete
    ensures r.stopDepartureCache.WellFormed()
  {
    ScenarioData(s.routes, s.stops, s.feedVersions, DeserializeCache(s.stopDepartureCache), s.isComplete)
  }

  /** Scenario data survives serialization whole: lists, completion flag and all three cache maps. */
  lemma DataRoundTrip(d: ScenarioData)
    requires d.stopDepartureCache.WellFormed()
    ensures DeserializeData(SerializeData(d)) == d
  {
    CacheRoundTrip(d.stopDepartureCache);
  }

  // ---------------------------------------------------------------------
  // Config and filter
  // ---------------------------------------------------------------------

  datatype ScenarioConfig = ScenarioConfig(bbox: Option<Scenario.Bbox>, scheduleEnabled: bool,
                                           startDate: Option<Calendar.Date>, endDate: Option<Calendar.Date>,
                                           geographyIds: Option<seq<int>>, stopLimit: Option<int>,
                                           maxConcurrentDepartures: Option<int>)

  datatype SerializableConfig = SerializableConfig(bbox: Option<Scenario.Bbox>, scheduleEnabled: bool,
                                                   startDate: Option<string>, endDate: Option<string>,
                                                   geographyIds: Option<seq<int>>, stopLimit: Option<int>)

  /** `serializeScenarioConfig`: dates as `yyyy-MM-dd` (`''` when unset); `maxConcurrentDepartures` is not written. */
  function SerializeConfig(c: ScenarioConfig): (r: SerializableConfig)
    ensures r.startDate.Some? && r.endDate.Some?
    ensures r.bbox == c.bbox && r.scheduleEnabled == c.scheduleEnabled
    ensures r.geographyIds == c.geographyIds && r.stopLimit == c.stopLimit
  {
    SerializableConfig(c.bbox, c.scheduleEnabled, Some(LegacyDatetime.FmtDate(c.startDate)),
                       Some(LegacyDatetime.FmtDate(c.endDate)), c.geographyIds, c.stopLimit)
  }

  /** `deserializeScenarioConfig`: `parseDate(s || '')` for each date. */
  function DeserializeConfig(s: SerializableConfig, parseDate: string -> Calendar.Date): (r: ScenarioConfig)
    ensures r.maxConcurrentDepartures.None?
    ensures r.bbox == s.bbox && r.scheduleEnabled == s.scheduleEnabled
    ensures r.geographyIds == s.geographyIds && r.stopLimit == s.stopLimit
  {
    ScenarioConfig(s.bbox, s.scheduleEnabled,
                   LegacyDatetime.ParseDate(OrElse(s.startDate, ""), parseDate),
                   LegacyDatetime.ParseDate(OrElse(s.endDate, ""), parseDate),
                   s.geographyIds, s.stopLimit, None)
  }

  /**
   * The non-date fields of a config round-trip; an unset date stays unset
   * and a set one comes back as the parse of its rendering;
   * `maxConcurrentDepartures` is lost.
   */
  lemma ConfigRoundTrip(c: ScenarioConfig, parseDate: string -> Calendar.Date)
    ensures var r := DeserializeConfig(SerializeConfig(c), parseDate);
      r.bbox == c.bbox && r.scheduleEnabled == c.scheduleEnabled &&
      r.geographyIds == c.geographyIds && r.stopLimit == c.stopLimit &&
      r.maxConcurrentDepartures.None? &&
      r.startDate == (if c.startDate.None? then None else Some(parseDate(Calendar.FmtDate(c.startDate.value)))) &&
      r.endDate == (if c.endDate.None? then None else Some(parseDate(Calendar.FmtDate(c.endDate.value))))
  {
    LegacyDatetime.ParseFmtDate(c.startDate, parseDate);
    LegacyDatetime.ParseFmtDate(c.endDate, parseDate);
  }

  datatype ScenarioFilter = ScenarioFilter(
    startTime: Option<CoreDatetime.TimeOfDay>, endTime: Option<CoreDatetime.TimeOfDay>,
    selectedRouteTypes: seq<int>, selectedDays: seq<string>, selectedAgencies: seq<string>,
    selectedDayOfWeekMode: string, selectedTimeOfDayMode: string,
    frequencyUnder: Option<int>, frequencyOver: Option<int>,
    frequencyUnderEnabled: bool, frequencyOverEnabled: bool)

  datatype SerializableFilter = SerializableFilter(
    startTime: Option<string>, endTime: Option<string>,
    selectedRouteTypes: seq<int>, selectedDays: seq<string>, selectedAgencies: seq<string>,
    selectedDayOfWeekMode: string, selectedTimeOfDayMode: string,
    frequencyUnder: Option<int>, frequencyOver: Option<int>,
    frequencyUnderEnabled: bool, frequencyOverEnabled: bool)

  /** `serializeScenarioFilter`: times as `HH:mm:ss` (`''` when unset), the rest copied. */
  function SerializeFilter(f: ScenarioFilter): (r: SerializableFilter)
    ensures r.startTime.Some? && r.endTime.Some?
  {
    SerializableFilter(Some(LegacyDatetime.FmtTime(f.startTime)), Some(LegacyDatetime.FmtTime(f.endTime)),
                       f.selectedRouteTypes, f.selectedDays, f.selectedAgencies,
                       f.selectedDayOfWeekMode, f.selectedTimeOfDayMode,
                       f.frequencyUnder, f.frequencyOver, f.frequencyUnderEnabled, f.frequencyOverEnabled)
  }

  /** `deserializeScenarioFilter`: `parseTime(s || '')` for each time, the rest copied. */
  function DeserializeFilter(s: SerializableFilter, parseTime: string -> CoreDatetime.TimeOfDay): (r: ScenarioFilter)
  {
    ScenarioFilter(LegacyDatetime.ParseTime(OrElse(s.startTime, ""), parseTime),
                   LegacyDatetime.ParseTime(OrElse(s.endTime, ""), parseTime),
                   s.selectedRouteTypes, s.selectedDays, s.selectedAgencies,
                   s.selectedDayOfWeekMode, s.selectedTimeOfDayMode,
                   s.frequencyUnder, s.frequencyOver, s.frequencyUnderEnabled, s.frequencyOverEnabled)
  }

  /** Every non-time field of a filter round-trips; an unset time stays unset. */
  lemma FilterRoundTrip(f: ScenarioFilter, parseTime: string -> CoreDatetime.TimeOfDay)
    ensures var r := DeserializeFilter(SerializeFilter(f), parseTime);
      r.selectedRouteTypes == f.selectedRouteTypes && r.selectedDays == f.selectedDays &&
      r.selectedAgencies == f.selectedAgencies && r.selectedDayOfWeekMode == f.selectedDayOfWeekMode &&
      r.selectedTimeOfDayMode == f.selectedTimeOfDayMode &&
      r.frequencyUnder == f.frequencyUnder && r.frequencyOver == f.frequencyOver &&
      r.frequencyUnderEnabled == f.frequencyUnderEnabled && r.frequencyOverEnabled == f.frequencyOverEnabled &&
      r.startTime == (if f.startTime.None? then None else Some(parseTime(LegacyDatetime.FmtClock(f.startTime.value)))) &&
      r.endTime == (if f.endTime.None? then None else Some(parseTime(LegacyDatetime.FmtClock(f.endTime.value))))
  {
    LegacyDatetime.ParseFmtTime(f.startTime, parseTime);
    LegacyDatetime.ParseFmtTime(f.endTime, parseTime);
  }

  // ---------------------------------------------------------------------
  // The whole fixture
  // ---------------------------------------------------------------------

  datatype Fixture = Fixture(config: ScenarioConfig, filter: ScenarioFilter, data: ScenarioData)

  datatype SerializableFixture = SerializableFixture(config: SerializableConfig, filter: SerializableFilter, data: SerializableData)

  /** `serializeScenarioTestFixture`. */
  function SerializeFixture(f: Fixture): (r: SerializableFixture)
    requires f.data.stopDepartureCache.WellFormed()
    ensures r.data.isComplete == f.data.isComplete
  {
    SerializableFixture(SerializeConfig(f.config), SerializeFilter(f.filter), SerializeData(f.data))
  }

  /** `deserializeScenarioTestFixture`. */
  function DeserializeFixture(s: SerializableFixture, parseDate: string -> Calendar.Date,
                              parseTime: string -> CoreDatetime.TimeOfDay): (r: Fixture)
    ensures r.data.stopDepartureCache.WellFormed()
  {
    Fixture(DeserializeConfig(s.config, parseDate), DeserializeFilter(s.filter, parseTime), DeserializeData(s.data))
  }

  /**
   * When the date and time parsers invert the renderings, and the config
   * sets no `maxConcurrentDepartures`, a fixture round-trips exactly.
   */
  lemma FixtureRoundTrip(f: Fixture, parseDate: string -> Calendar.Date, parseTime: string -> CoreDatetime.TimeOfDay)
    requires f.data.stopDepartureCache.WellFormed()
    requires forall d :: parseDate(Calendar.FmtDate(d)) == d
    requires forall t :: parseTime(LegacyDatetime.FmtClock(t)) == t
    requires f.config.maxConcurrentDepartures.None?
    ensures DeserializeFixture(SerializeFixture(f), parseDate, parseTime) == f
  {
    DataRoundTrip(f.data);
    ConfigExact(f.config, parseDate);
    FilterExact(f.filter, parseTime);
  }

  lemma ConfigExact(c: ScenarioConfig, parseDate: string -> Calendar.Date)
    requires forall d :: parseDate(Calendar.FmtDate(d)) == d
    requires c.maxConcurrentDepartures.None?
    ensures DeserializeConfig(SerializeConfig(c), parseDate) == c
  {
    ConfigRoundTrip(c, parseDate);
  }

  lemma FilterExact(f: ScenarioFilter, parseTime: string -> CoreDatetime.TimeOfDay)
    requires forall t :: parseTime(LegacyDatetime.FmtClock(t)) == t
    ensures DeserializeFilter(SerializeFilter(f), parseTime) == f
  {
    FilterRoundTrip(f, parseTime);
  }
}
