/**
 * The older scenario pipeline of src/scenario.ts and src/scenario-fetcher.ts:
 * the frequency sentinel of the result filter, the by-id merge of fetched
 * routes, and the fetcher's query counter and configuration.
 */
module ScenarioLegacy {
  import opened Wrappers
  import opened InsertionOrder
  import Scenario

  // ---------------------------------------------------------------------
  // The frequency sentinel of applyScenarioResultFilter
  // ---------------------------------------------------------------------

  /**
   * `(enabled ? value : -1) || -1`: the frequency bound handed to the
   * route filter, `-1` meaning "no bound".  A disabled, missing or zero
   * value all become `-1`; any other value passes through.
   */
  function FrequencySentinel(enabled: bool, value: Option<int>): (r: int)
    ensures r == -1 <==> !enabled || value.None? || value.value == 0 || value.value == -1
    ensures r != -1 ==> enabled && value == Some(r) && r != 0
  {
    var v := if enabled then value else Some(-1);
    if v.Some? && v.value != 0 then v.value else -1
  }

  // ---------------------------------------------------------------------
  // Merging fetched routes by id
  // ---------------------------------------------------------------------

  function IdEntries(routes: seq<Scenario.RouteGql>): (r: seq<(int, Scenario.RouteGql)>)
    ensures |r| == |routes| && forall i :: 0 <= i < |r| ==> r[i] == (routes[i].id, routes[i])
  {
    seq(|routes|, i requires 0 <= i < |routes| => (routes[i].id, routes[i]))
  }

  function Ids(routes: seq<Scenario.RouteGql>): (r: seq<int>)
    ensures |r| == |routes| && forall i :: 0 <= i < |r| ==> r[i] == routes[i].id
  {
    Keys(IdEntries(routes))
  }

  /**
   * `routeIdx.set(route.id, route)` for the held routes and then the
   * fetched ones, read back as `[...routeIdx.values()]`.
   */
  function MergeById(held: seq<Scenario.RouteGql>, fetched: seq<Scenario.RouteGql>): (r: seq<Scenario.RouteGql>)
  {
    var es := IdEntries(held + fetched);
    ValuesInOrder(Distinct(Keys(es)), LastValues(es))
  }

  /** Every value `LastValues` keeps for an id-keyed list is a route with that id. */
  lemma {:induction false} LastValuesKeyed(routes: seq<Scenario.RouteGql>, k: int)
    requires k in LastValues(IdEntries(routes))
    ensures LastValues(IdEntries(routes))[k].id == k
    ensures LastValues(IdEntries(routes))[k] in routes
  {
    var p := routes[..|routes| - 1];
    assert IdEntries(routes)[..|routes| - 1] == IdEntries(p);
    if k != routes[|routes| - 1].id {
      LastValuesKeyed(p, k);
    }
  }

  /** The merged list holds each id of the held and fetched routes exactly once, in order of first appearance. */
  lemma MergeByIdIds(held: seq<Scenario.RouteGql>, fetched: seq<Scenario.RouteGql>)
    ensures Ids(MergeById(held, fetched)) == Distinct(Ids(held + fetched))
    ensures NoDuplicates(Ids(MergeById(held, fetched)))
    ensures forall id :: id in Ids(MergeById(held, fetched)) <==> id in Ids(held) || id in Ids(fetched)
  {
    MergeOrder(held, fetched);
    IdsConcat(held, fetched);
  }

  lemma MergeOrder(held: seq<Scenario.RouteGql>, fetched: seq<Scenario.RouteGql>)
    ensures Ids(MergeById(held, fetched)) == Distinct(Ids(held + fetched))
  {
    var all := held + fetched;
    var r := MergeById(held, fetched);
    var order := Distinct(Keys(IdEntries(all)));
    forall i | 0 <= i < |r|
      ensures r[i].id == order[i]
    {
      LastValuesKeyed(all, order[i]);
    }
    assert Ids(r) == order;
  }

  lemma IdsConcat(a: seq<Scenario.RouteGql>, b: seq<Scenario.RouteGql>)
    ensures Ids(a + b) == Ids(a) + Ids(b)
  {
    var ab := a + b;
    assert forall i :: 0 <= i < |ab| ==> Ids(ab)[i] == (Ids(a) + Ids(b))[i];
  }

  /** A later route wins: the last route of `held + fetched` with a given id is the one kept. */
  lemma MergeByIdLaterWins(held: seq<Scenario.RouteGql>, fetched: seq<Scenario.RouteGql>, j: nat)
    requires j < |held + fetched|
    requires forall j' :: j < j' < |held + fetched| ==> (held + fetched)[j'].id != (held + fetched)[j].id
    ensures (held + fetched)[j] in MergeById(held, fetched)
  {
    var all := held + fetched;
    var es := IdEntries(all);
    LastValuesLast(es, j);
    var order := Distinct(Keys(es));
    assert all[j].id in Keys(es);
    var i :| 0 <= i < |order| && order[i] == all[j].id;
    assert MergeById(held, fetched)[i] == LastValues(es)[all[j].id];
  }

  /** Every merged route is one of the held or fetched routes. */
  lemma MergeByIdFrom(held: seq<Scenario.RouteGql>, fetched: seq<Scenario.RouteGql>, i: nat)
    requires i < |MergeById(held, fetched)|
    ensures MergeById(held, fetched)[i] in held || MergeById(held, fetched)[i] in fetched
  {
    var all := held + fetched;
    var order := Distinct(Keys(IdEntries(all)));
    LastValuesKeyed(all, order[i]);
  }

  /**
   * The ids `fetchRoutes` of src/scenario.ts asks for: those of the fetch task
   * not held yet, or `[0]` (a dummy id) when every id is held.
   */
  function QueryIds(held: seq<Scenario.RouteGql>, taskIds: seq<int>): (r: seq<int>)
    ensures forall id :: id in taskIds && id !in Ids(held) ==> id in r
    ensures r != [0] ==> r != [] && r[0] in taskIds && r[0] !in Ids(held)
    ensures r != [0] ==> forall id :: id in r ==> id in taskIds && id !in Ids(held)
  {
    var missing := NotHeld(held, taskIds);
    if missing != [] then missing else [0]
  }

  /** `task.ids.filter(id => !currentRouteIds.has(id))`. */
  function NotHeld(held: seq<Scenario.RouteGql>, taskIds: seq<int>): (r: seq<int>)
    ensures forall id :: id in r <==> id in taskIds && id !in Ids(held)
    ensures r != [] ==> r[0] in taskIds && r[0] !in Ids(held)
  {
    if taskIds == [] then []
    else
      var p := NotHeld(held, taskIds[..|taskIds| - 1]);
      var id := taskIds[|taskIds| - 1];
      assert taskIds == taskIds[..|taskIds| - 1] + [id];
      if id in Ids(held) then p else p + [id]
  }

  /** The route-fetching side of the `ScenarioFetcher` of src/scenario.ts. */
  class ScenarioFetcher {
    var routeResults: seq<Scenario.RouteGql>

    constructor ()
      ensures routeResults == []
    {
      routeResults := [];
    }

    /**
     * `fetchRoutes(task)`: queries the ids not held yet (`routeQuery` is the
     * server's answer to a list of ids) and merges the answer into the held
     * routes by id, the fetched route winning.
     */
    method FetchRoutes(taskIds: seq<int>, routeQuery: seq<int> -> seq<Scenario.RouteGql>) returns (requested: seq<int>)
      modifies this
      ensures requested == QueryIds(old(routeResults), taskIds)
      ensures routeResults == MergeById(old(routeResults), routeQuery(requested))
    {
      requested := QueryIds(routeResults, taskIds);
      var routeData := routeQuery(requested);
      var order, values := CollectLast(IdEntries(routeResults + routeData));
      routeResults := ValuesInOrder(order, values);
    }
  }

  // ---------------------------------------------------------------------
  // The ScenarioFetcher of src/scenario-fetcher.ts
  // ---------------------------------------------------------------------

  const MaxQueryLimit := 10000

  /** `fetch()` fails when no stop was found. */
  function CheckStopsFound(stops: seq<Scenario.StopGql>): (r: Result<seq<Scenario.StopGql>, string>)
    ensures r.Err? <==> |stops| == 0
    ensures r.Ok? ==> r.value == stops
  {
    if |stops| == 0 then Err("No transit stops found in the specified geographic area. Please check your bounding box or geography IDs.")
    else Ok(stops)
  }

  /** A configuration as the set of its present fields, each with its value's JSON text. */
  type Config = map<string, string>

  class QueryingFetcher {
    var queryCount: nat
    var config: Config
    var routeResultFixed: seq<Scenario.RouteGql>

    constructor (config: Config)
      ensures queryCount == 0 && this.config == config && routeResultFixed == []
    {
      queryCount := 0;
      this.config := config;
      routeResultFixed := [];
    }

    /** `checkQueryLimit()`: counts the query and fails once the count exceeds 10000. */
    method CheckQueryLimit() returns (r: Result<(), string>)
      modifies this
      ensures queryCount == old(queryCount) + 1
      ensures r.Err? <==> queryCount > MaxQueryLimit
      ensures config == old(config) && routeResultFixed == old(routeResultFixed)
    {
      queryCount := queryCount + 1;
      if queryCount > MaxQueryLimit {
        return Err("Query limit exceeded");
      }
      return Ok(());
    }

    /**
     * `fetchRoutes(task)`: counts the query; asks for the ids not held yet,
     * and only when there are some, merging the answer in by id.
     */
    method FetchRoutes(taskIds: seq<int>, routeQuery: seq<int> -> seq<Scenario.RouteGql>)
      returns (r: Result<Option<seq<int>>, string>)
      modifies this
      ensures queryCount == old(queryCount) + 1
      ensures r.Err? <==> queryCount > MaxQueryLimit
      ensures r.Err? ==> routeResultFixed == old(routeResultFixed)
      ensures r.Ok? && r.value.None? ==> NotHeld(old(routeResultFixed), taskIds) == [] && routeResultFixed == old(routeResultFixed)
      ensures r.Ok? && r.value.Some? ==>
        r.value.value == NotHeld(old(routeResultFixed), taskIds) && r.value.value != [] &&
        routeResultFixed == MergeById(old(routeResultFixed), routeQuery(r.value.value))
      ensures config == old(config)
    {
      var check := CheckQueryLimit();
      if check.Err? {
        return Err(check.error);
      }
      var fetchRouteIds := NotHeld(routeResultFixed, taskIds);
      if |fetchRouteIds| == 0 {
        return Ok(None);
      }
      var routeData := routeQuery(fetchRouteIds);
      var order, values := CollectLast(IdEntries(routeResultFixed + routeData));
      routeResultFixed := ValuesInOrder(order, values);
      return Ok(Some(fetchRouteIds));
    }

    /** `updateConfig(partial)`: `{ ...config, ...partial }`, the given fields overriding. */
    method UpdateConfig(partial: Config)
      modifies this
      ensures config.Keys == old(config).Keys + partial.Keys
      ensures forall k :: k in partial ==> config[k] == partial[k]
      ensures forall k :: k in old(config) && k !in partial ==> config[k] == old(config)[k]
      ensures queryCount == old(queryCount) && routeResultFixed == old(routeResultFixed)
    {
      config := config + partial;
    }

    /** `getConfig()`: a copy equal to the configuration. */
    function GetConfig(): (r: Config)
      reads this
      ensures r == config
    {
      config
    }
  }
}
