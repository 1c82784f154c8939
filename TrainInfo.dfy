/**
 * The dashboard's state and its refresh cycle (`loadData`): the five state
 * cells, set to "loading" when a cycle starts, replaced together when both
 * feeds arrive, and left alone when a request or its parsing fails.
 */
module TrainInfo {
  import opened Wrappers
  import opened LiveBoard
  import opened RouteFilter
  import opened Statistics

  /**
   * What the two requests yield: both feed lists (each possibly missing from
   * its response), or a failure of either request or of its parsing.
   */
  datatype FetchOutcome =
    | Fetched(departureList: Option<seq<Event>>, arrivalList: Option<seq<Event>>)
    | FetchFailed

  class Dashboard {
    var departures: seq<Event>
    var arrivals: seq<Event>
    var stats: Stats
    var loading: bool
    /** The time stamp of the last successful cycle; `None` before the first one. */
    var lastUpdate: Option<int>
    /** The clock reading `now` of the cycle that produced the shown lists. */
    ghost var snapshotNow: int

    /**
     * The shown lists and statistics always come from one and the same cycle:
     * the lists passed that cycle's filters and the statistics were computed
     * from them; before any success everything is empty.
     */
    ghost predicate Valid()
      reads this
    {
      && (forall t :: t in departures ==> Kept(t, snapshotNow))
      && (forall t :: t in arrivals ==> Kept(t, snapshotNow))
      && stats == ComputeStats(departures, arrivals, snapshotNow)
      && (lastUpdate == None ==> departures == [] && arrivals == [])
    }

    /** The initial state: empty lists, zero statistics, loading, never updated. */
    constructor ()
      ensures Valid()
      ensures departures == [] && arrivals == []
      ensures stats == Stats(0.0, 0.0)
      ensures loading && lastUpdate == None
    {
      departures := [];
      arrivals := [];
      stats := Stats(0.0, 0.0);
      loading := true;
      lastUpdate := None;
      snapshotNow := 0;
    }

    /** `setLoading(true)`; nothing else changes. There is no check for a cycle already running. */
    method BeginCycle()
      requires Valid()
      modifies this
      ensures Valid()
      ensures loading
      ensures departures == old(departures) && arrivals == old(arrivals)
      ensures stats == old(stats) && lastUpdate == old(lastUpdate)
    {
      loading := true;
    }

    /**
     * Both feeds arrived: filter them, publish the lists, then the statistics,
     * then the time stamp, and clear `loading`.
     */
    method CompleteCycle(departureList: Option<seq<Event>>, arrivalList: Option<seq<Event>>, now: int, stamp: int)
      modifies this
      ensures Valid()
      ensures departures == KeptEvents(departureList, now)
      ensures arrivals == KeptEvents(arrivalList, now)
      ensures stats.avgDelayNextHour == AvgDelay(NextHour(departures, arrivals, now))
      ensures stats.cancelledPercentLast3h == CancelledPercent(departures + arrivals)
      ensures lastUpdate == Some(stamp) && !loading
    {
      var dep := KeptEvents(departureList, now);
      var arr := KeptEvents(arrivalList, now);
      departures := dep;
      arrivals := arr;
      var computed := ComputeStats(dep, arr, now);
      RecentIsEverything(departureList, arrivalList, now);
      stats := computed;
      lastUpdate := Some(stamp);
      snapshotNow := now;
      loading := false;
    }

    /** A request or its parsing failed: the error is logged and only `loading` is cleared. */
    method FailCycle()
      requires Valid()
      modifies this
      ensures Valid()
      ensures !loading
      ensures departures == old(departures) && arrivals == old(arrivals)
      ensures stats == old(stats) && lastUpdate == old(lastUpdate)
    {
      loading := false;
    }

    /**
     * `loadData`: one whole cycle. On success every published field is
     * replaced; on failure the previous lists, statistics and time stamp stay.
     * Either way `loading` ends false.
     */
    method LoadData(outcome: FetchOutcome, now: int, stamp: int)
      requires Valid()
      modifies this
      ensures Valid()
      ensures !loading
      ensures outcome.Fetched? ==>
        && departures == KeptEvents(outcome.departureList, now)
        && arrivals == KeptEvents(outcome.arrivalList, now)
        && stats == Stats(AvgDelay(NextHour(departures, arrivals, now)), CancelledPercent(departures + arrivals))
        && lastUpdate == Some(stamp)
      ensures outcome.FetchFailed? ==>
        && departures == old(departures) && arrivals == old(arrivals)
        && stats == old(stats) && lastUpdate == old(lastUpdate)
    {
      BeginCycle();
      match outcome {
        case Fetched(departureList, arrivalList) =>
          CompleteCycle(departureList, arrivalList, now, stamp);
        case FetchFailed =>
          FailCycle();
      }
    }
  }
}
