/**
 * The receiver of src/scenario-streaming.ts (repeated, with an optional
 * output file, in src/scenario.ts): it appends the stops, routes and feed
 * versions of each progress event, never touches its departure cache,
 * and records completion.
 */
module ScenarioStreaming {
  import opened Wrappers
  import DepartureCache
  import Scenario

  datatype ScenarioData = ScenarioData(stops: seq<Scenario.StopGql>, routes: seq<Scenario.RouteGql>,
                                       feedVersions: seq<Scenario.FeedVersion>,
                                       stopDepartureCache: DepartureCache.StopDepartureCache, isComplete: bool)

  class ScenarioDataReceiver {
    var stops: seq<Scenario.StopGql>
    var routes: seq<Scenario.RouteGql>
    var feedVersions: seq<Scenario.FeedVersion>
    const stopDepartureCache: DepartureCache.StopDepartureCache
    var isComplete: bool
    const callbacks: Scenario.Callbacks
    /** The callback invocations made so far, oldest first. */
    var calls: seq<Scenario.CallbackCall>

    constructor (callbacks: Scenario.Callbacks)
      ensures fresh(stopDepartureCache) && stopDepartureCache.cache == map[]
      ensures stops == [] && routes == [] && feedVersions == [] && !isComplete
      ensures this.callbacks == callbacks && calls == []
    {
      this.callbacks := callbacks;
      stops, routes, feedVersions := [], [], [];
      stopDepartureCache := new DepartureCache.StopDepartureCache();
      isComplete := false;
      calls := [];
    }

    /**
     * `onProgress(progress)`: appends each non-empty list of the partial
     * data (an empty one would append nothing anyway), leaves the departure
     * tuples alone, and forwards the event.
     */
    method OnProgress(progress: Scenario.ScenarioProgress)
      modifies this
      ensures progress.partialData.Some? ==>
        var pd := progress.partialData.value;
        stops == old(stops) + pd.stops && routes == old(routes) + pd.routes &&
        feedVersions == old(feedVersions) + pd.feedVersions
      ensures progress.partialData.None? ==>
        stops == old(stops) && routes == old(routes) && feedVersions == old(feedVersions)
      ensures isComplete == old(isComplete)
      ensures calls == old(calls) + if callbacks.hasOnProgress then [Scenario.ProgressCall(progress)] else []
    {
      if progress.partialData.Some? {
        var pd := progress.partialData.value;
        if |pd.stops| > 0 {
          stops := stops + pd.stops;
        }
        if |pd.routes| > 0 {
          routes := routes + pd.routes;
        }
        if |pd.feedVersions| > 0 {
          feedVersions := feedVersions + pd.feedVersions;
        }
      }
      if callbacks.hasOnProgress {
        calls := calls + [Scenario.ProgressCall(progress)];
      }
    }

    /** `onComplete()`: marks the data complete, then calls `onComplete` with no argument. */
    method OnComplete()
      modifies this
      ensures isComplete
      ensures stops == old(stops) && routes == old(routes) && feedVersions == old(feedVersions)
      ensures calls == old(calls) + if callbacks.hasOnComplete then [Scenario.CompleteCall] else []
    {
      isComplete := true;
      if callbacks.hasOnComplete {
        calls := calls + [Scenario.CompleteCall];
      }
    }

    /** `onError(error)`: forwards the error; the data is left as it was. */
    method OnError(error: string)
      modifies this
      ensures isComplete == old(isComplete)
      ensures stops == old(stops) && routes == old(routes) && feedVersions == old(feedVersions)
      ensures calls == old(calls) + if callbacks.hasOnError then [Scenario.ErrorCall(error)] else []
    {
      if callbacks.hasOnError {
        calls := calls + [Scenario.ErrorCall(error)];
      }
    }

    /** `getCurrentData()`: a shallow copy: the same lists and flag, the very same cache object. */
    function GetCurrentData(): (r: ScenarioData)
      reads this
      ensures r.stops == stops && r.routes == routes && r.feedVersions == feedVersions
      ensures r.stopDepartureCache == stopDepartureCache && r.isComplete == isComplete
    {
      ScenarioData(stops, routes, feedVersions, stopDepartureCache, isComplete)
    }
  }

  /**
   * Feeding a receiver a run of events (then completing it) accumulates the
   * concatenation of their partial data, in order, and ends complete.
   */
  method Replay(callbacks: Scenario.Callbacks, events: seq<Scenario.ScenarioProgress>) returns (data: ScenarioData)
    ensures data.stops == StopsOf(events) && data.routes == RoutesOf(events) && data.feedVersions == FeedVersionsOf(events)
    ensures data.isComplete
  {
    var receiver := new ScenarioDataReceiver(callbacks);
    for i := 0 to |events|
      invariant receiver.stops == StopsOf(events[..i]) && receiver.routes == RoutesOf(events[..i])
      invariant receiver.feedVersions == FeedVersionsOf(events[..i])
    {
      assert events[..i + 1][..i] == events[..i];
      receiver.OnProgress(events[i]);
    }
    assert events[..|events|] == events;
    receiver.OnComplete();
    data := receiver.GetCurrentData();
  }

  function StopsOf(events: seq<Scenario.ScenarioProgress>): seq<Scenario.StopGql>
  {
    if events == [] then []
    else
      var e := events[|events| - 1];
      StopsOf(events[..|events| - 1]) + (if e.partialData.Some? then e.partialData.value.stops else [])
  }

  function RoutesOf(events: seq<Scenario.ScenarioProgress>): seq<Scenario.RouteGql>
  {
    if events == [] then []
    else
      var e := events[|events| - 1];
      RoutesOf(events[..|events| - 1]) + (if e.partialData.Some? then e.partialData.value.routes else [])
  }

  function FeedVersionsOf(events: seq<Scenario.ScenarioProgress>): seq<Scenario.FeedVersion>
  {
    if events == [] then []
    else
      var e := events[|events| - 1];
      FeedVersionsOf(events[..|events| - 1]) + (if e.partialData.Some? then e.partialData.value.feedVersions else [])
  }
}
