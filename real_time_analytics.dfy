/** The live chart of the real-time analytics panel: each fetch appends one point and keeps the
    latest twenty; a failed fetch only marks the connection as lost. */
module RealTimeAnalytics {
  import opened Wrappers

  /** Points kept on the chart. */
  const WindowSize: nat := 20

  datatype RealTimeMetrics = RealTimeMetrics(activeTransactions: real, successRate: real, peakeCoinPrice: real, marketCap: real)

  datatype LiveDataPoint = LiveDataPoint(timestamp: string, transactions: real, volume: real, efficiency: real, peakeCoinPrice: real)

  datatype Panel = Panel(metrics: Option<RealTimeMetrics>, liveData: seq<LiveDataPoint>, isConnected: bool)

  /** The chart point made from one fetch; `time` is the local time text of the fetch. */
  function NewDataPoint(metrics: RealTimeMetrics, time: string): (r: LiveDataPoint)
    ensures r.transactions == metrics.activeTransactions && r.peakeCoinPrice == metrics.peakeCoinPrice
    ensures r.volume * 1000.0 == metrics.marketCap
    ensures r.efficiency == metrics.successRate * 0.95
  {
    LiveDataPoint(time, metrics.activeTransactions, metrics.marketCap / 1000.0, (metrics.successRate / 100.0) * 95.0, metrics.peakeCoinPrice)
  }

  /** `[...prev, p].slice(-20)`. */
  function Slide(prev: seq<LiveDataPoint>, p: LiveDataPoint): (r: seq<LiveDataPoint>)
    ensures |r| <= WindowSize && |r| > 0 && r[|r| - 1] == p
    ensures |prev| < WindowSize ==> r == prev + [p]
    ensures |prev| >= WindowSize ==> |r| == WindowSize && r == prev[|prev| - (WindowSize - 1)..] + [p]
  {
    var all := prev + [p];
    if |all| <= WindowSize then all
    else
      assert all[|all| - WindowSize..] == prev[|prev| - (WindowSize - 1)..] + [p];
      all[|all| - WindowSize..]
  }

  /** The last `min(20, |s|)` elements of `s`. */
  function Latest(s: seq<LiveDataPoint>): seq<LiveDataPoint> {
    if |s| <= WindowSize then s else s[|s| - WindowSize..]
  }

  /** The window after pushing every point of `ps` onto an empty chart, one fetch at a time. */
  function Replay(ps: seq<LiveDataPoint>): seq<LiveDataPoint> {
    if ps == [] then [] else Slide(Replay(ps[..|ps| - 1]), ps[|ps| - 1])
  }

  /** Sliding a point onto the latest twenty of a history gives the latest twenty of the
      extended history. */
  lemma SlideLatest(init: seq<LiveDataPoint>, x: LiveDataPoint)
    ensures Slide(Latest(init), x) == Latest(init + [x])
  {
    var ps := init + [x];
    if |init| >= WindowSize {
      var tail := init[|init| - (WindowSize - 1)..];
      assert Latest(init)[|Latest(init)| - (WindowSize - 1)..] == tail;
      assert ps[|ps| - WindowSize..] == tail + [x];
    }
  }

  /** However many fetches have run, the chart shows exactly the latest twenty points, oldest
      first, in the order they arrived. */
  lemma {:induction false} ReplayKeepsLatest(ps: seq<LiveDataPoint>)
    ensures Replay(ps) == Latest(ps)
  {
    if ps != [] {
      var init, x := ps[..|ps| - 1], ps[|ps| - 1];
      assert init + [x] == ps;
      ReplayKeepsLatest(init);
      assert Replay(ps) == Slide(Replay(init), x);
      SlideLatest(init, x);
    }
  }

  /** One run of `fetchRealTimeData`: `fetched` is the metrics, or None when the fetch threw. */
  function AfterFetch(panel: Panel, fetched: Option<RealTimeMetrics>, time: string): (r: Panel)
    ensures r.isConnected <==> fetched.Some?
    ensures fetched.None? ==> r.liveData == panel.liveData && r.metrics == panel.metrics
    ensures fetched.Some? ==> r.metrics == fetched && r.liveData == Slide(panel.liveData, NewDataPoint(fetched.value, time))
  {
    match fetched
    case None => panel.(isConnected := false)
    case Some(m) => Panel(fetched, Slide(panel.liveData, NewDataPoint(m, time)), true)
  }

  datatype StatusColor = Green | Red

  /** `getStatusColor` (and `getStatusIcon`): green exactly when the value reaches the threshold. */
  function GetStatusColor(value: real, threshold: real): (r: StatusColor)
    ensures r == Green <==> value >= threshold
  {
    if value >= threshold then Green else Red
  }
}
