// The request dashboard page: loads one page of stored requests and the
// statistics of the last 24 hours into its properties, and falls back to
// empty collections when anything on the way throws.

module RequestDashboard {
  import opened Basics
  import opened RequestLogModel
  import opened DashboardQueries
  import opened RequestTracking

  /** The page and page size a request without query parameters asks for. */
  const DefaultPage: Int32 := 1
  const DefaultPageSize: Int32 := 50

  /** Where loading the dashboard throws, in the order the steps run. */
  datatype LoadFault =
    | PageQueryFault     // the paged query against the store fails
    | ClockFault         // `AddDays(-1)` leaves the representable range
    | WindowQueryFault   // the 24-hour query against the store fails
    | AverageOverflow    // `Average` overflows its 64-bit running sum

  /**
   * The first step of the load that throws, if any; the store's own
   * failures are inputs, since the store is not part of this model.
   */
  function FirstFault(logs: seq<RequestLog>, now: Ticks, pageQueryFails: bool, windowQueryFails: bool): (r: Option<LoadFault>)
    ensures r.None? <==>
      && !pageQueryFails && TicksPerDay <= now && !windowQueryFails
      && AverageProcessingTime(Window(logs, now - TicksPerDay)).Some?
    ensures r == Some(AverageOverflow) ==>
      now >= TicksPerDay && AverageProcessingTime(Window(logs, now - TicksPerDay)).None?
  {
    if pageQueryFails then Some(PageQueryFault)
    else if WindowStart(now).None? then Some(ClockFault)
    else if windowQueryFails then Some(WindowQueryFault)
    else if AverageProcessingTime(Window(logs, now - TicksPerDay)).None? then Some(AverageOverflow)
    else None
  }

  /** The records of the 24 hours before `now` (and any stamped later). */
  function LastDay(logs: seq<RequestLog>, now: Ticks): seq<RequestLog> {
    Window(logs, now - TicksPerDay)
  }

  /** `RequestDashboardModel`: the properties the page renders. */
  class RequestDashboardModel {
    var recentRequests: seq<RequestLog>
    var userAgentStats: map<UserAgentType, nat>
    var topClients: map<string, nat>
    var topPaths: map<string, nat>
    var totalRequests: int
    var averageProcessingTime: real

    /** Every collection starts empty and both numbers at zero. */
    constructor ()
      ensures recentRequests == [] && userAgentStats == map[] && topClients == map[] && topPaths == map[]
      ensures totalRequests == 0 && averageProcessingTime == 0.0
    {
      recentRequests := [];
      userAgentStats := map[];
      topClients := map[];
      topPaths := map[];
      totalRequests := 0;
      averageProcessingTime := 0.0;
    }

    /** The `catch` block: the four collections are emptied, the numbers are left alone. */
    method ResetCollections()
      modifies this
      ensures recentRequests == [] && userAgentStats == map[] && topClients == map[] && topPaths == map[]
      ensures totalRequests == old(totalRequests) && averageProcessingTime == old(averageProcessingTime)
    {
      recentRequests := [];
      userAgentStats := map[];
      topClients := map[];
      topPaths := map[];
    }

    /** The paged query: `RecentRequests` is one page of the store, newest first. */
    method ShowRecentRequests(logs: seq<RequestLog>, page: Int32, pageSize: Int32)
      modifies this
      ensures recentRequests == RecentRequests(logs, page, pageSize)
      ensures userAgentStats == old(userAgentStats) && topClients == old(topClients) && topPaths == old(topPaths)
      ensures totalRequests == old(totalRequests) && averageProcessingTime == old(averageProcessingTime)
    {
      recentRequests := RecentRequests(logs, page, pageSize);
    }

    /** The type distribution of the window. */
    method ShowUserAgentStats(recentLogs: seq<RequestLog>)
      modifies this
      ensures userAgentStats == UserAgentStats(recentLogs)
      ensures recentRequests == old(recentRequests) && topClients == old(topClients) && topPaths == old(topPaths)
      ensures totalRequests == old(totalRequests) && averageProcessingTime == old(averageProcessingTime)
    {
      userAgentStats := UserAgentStats(recentLogs);
    }

    /** The ten most frequent clients of the window. */
    method ShowTopClients(recentLogs: seq<RequestLog>)
      modifies this
      ensures topClients == TopClients(recentLogs)
      ensures recentRequests == old(recentRequests) && userAgentStats == old(userAgentStats) && topPaths == old(topPaths)
      ensures totalRequests == old(totalRequests) && averageProcessingTime == old(averageProcessingTime)
    {
      topClients := TopClients(recentLogs);
    }

    /** The ten most requested paths of the window. */
    method ShowTopPaths(recentLogs: seq<RequestLog>)
      modifies this
      ensures topPaths == TopPaths(recentLogs)
      ensures recentRequests == old(recentRequests) && userAgentStats == old(userAgentStats) && topClients == old(topClients)
      ensures totalRequests == old(totalRequests) && averageProcessingTime == old(averageProcessingTime)
    {
      topPaths := TopPaths(recentLogs);
    }

    /** `TotalRequests`: the number of records in the window. */
    method ShowTotalRequests(recentLogs: seq<RequestLog>)
      modifies this
      ensures totalRequests == |recentLogs|
      ensures recentRequests == old(recentRequests) && userAgentStats == old(userAgentStats)
      ensures topClients == old(topClients) && topPaths == old(topPaths)
      ensures averageProcessingTime == old(averageProcessingTime)
    {
      totalRequests := |recentLogs|;
    }

    /** `AverageProcessingTime` once the average has been computed. */
    method ShowAverage(average: real)
      modifies this
      ensures averageProcessingTime == average
      ensures recentRequests == old(recentRequests) && userAgentStats == old(userAgentStats)
      ensures topClients == old(topClients) && topPaths == old(topPaths)
      ensures totalRequests == old(totalRequests)
    {
      averageProcessingTime := average;
    }

    /**
     * `OnGetAsync(page, pageSize)` at instant `now`. Without a fault every
     * property holds its query over the store; on a fault the collections
     * are empty, the average keeps its old value, and the total holds the
     * window's size only when the fault is the average's overflow, which
     * is the one step that runs after the total is assigned.
     */
    method OnGetAsync(store: RequestStore, now: Ticks, page: Int32, pageSize: Int32,
                      pageQueryFails: bool, windowQueryFails: bool)
      modifies this
      ensures var fault := FirstFault(store.logs, now, pageQueryFails, windowQueryFails);
        fault.None? ==>
          && recentRequests == RecentRequests(store.logs, page, pageSize)
          && userAgentStats == UserAgentStats(LastDay(store.logs, now))
          && topClients == TopClients(LastDay(store.logs, now))
          && topPaths == TopPaths(LastDay(store.logs, now))
          && totalRequests == |LastDay(store.logs, now)|
          && averageProcessingTime == AverageProcessingTime(LastDay(store.logs, now)).value
      ensures var fault := FirstFault(store.logs, now, pageQueryFails, windowQueryFails);
        fault.Some? ==>
          && recentRequests == [] && userAgentStats == map[] && topClients == map[] && topPaths == map[]
          && averageProcessingTime == old(averageProcessingTime)
          && totalRequests == (if fault == Some(AverageOverflow) then |LastDay(store.logs, now)| else old(totalRequests))
      ensures FirstFault(store.logs, now, pageQueryFails, windowQueryFails).None? ==>
        TotalOver(userAgentStats, AllTypes) == totalRequests
    {
      if pageQueryFails {
        ResetCollections();
        return;
      }
      ShowRecentRequests(store.logs, page, pageSize);

      var yesterday := WindowStart(now);
      if yesterday.None? || windowQueryFails {
        ResetCollections();
        return;
      }
      var recentLogs := Window(store.logs, yesterday.value);
      assert recentLogs == LastDay(store.logs, now);
      ShowUserAgentStats(recentLogs);
      ShowTopClients(recentLogs);
      ShowTopPaths(recentLogs);
      ShowTotalRequests(recentLogs);
      StatsAddUpToTotal(recentLogs);

      var average := AverageProcessingTime(recentLogs);
      if average.None? {
        ResetCollections();
        return;
      }
      ShowAverage(average.value);
    }
  }

  /**
   * With the default parameters the page shows the fifty newest records,
   * or all of them when there are fewer.
   */
  lemma DefaultPageIsNewestFifty(logs: seq<RequestLog>)
    ensures RecentRequests(logs, DefaultPage, DefaultPageSize) == NewestFirst(logs)[..Min(50, |logs|)]
  {
    var r := RecentRequests(logs, DefaultPage, DefaultPageSize);
    assert PageOffset(DefaultPage, DefaultPageSize) == 0;
    assert |r| == Min(50, |logs|);
  }
}
