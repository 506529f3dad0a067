/** The period tables of the blockchain analytics service, the per-period series it generates
    from random draws, and the summary sums of the exported report. */
module BlockchainAnalytics {
  import opened Strings
  import opened Numbers

  /** `getPeriodsForTimeframe`. */
  function PeriodsForTimeframe(timeframe: string): (r: nat)
    ensures timeframe == "24h" ==> r == 24
    ensures timeframe == "30d" ==> r == 30
    ensures timeframe in {"90d", "1y"} ==> r == 12
    ensures timeframe !in {"24h", "30d", "90d", "1y"} ==> r == 7
    ensures 7 <= r <= 30
  {
    match timeframe
    case "24h" => 24
    case "7d" => 7
    case "30d" => 30
    case "90d" => 12
    case "1y" => 12
    case _ => 7
  }

  /** `getPeriodLabel`; `dateLabel` renders the weekday, day or month label of the date branches. */
  function PeriodLabel(timeframe: string, index: nat, dateLabel: (string, nat) -> string): (r: string)
    ensures timeframe == "24h" ==> r == NatToString(index) + ":00"
    ensures timeframe == "90d" ==> r == "Week " + NatToString(index + 1)
    ensures timeframe in {"7d", "30d", "1y"} ==> r == dateLabel(timeframe, index)
    ensures timeframe !in {"24h", "7d", "30d", "90d", "1y"} ==> r == "Period " + NatToString(index + 1)
  {
    match timeframe
    case "24h" => NatToString(index) + ":00"
    case "7d" => dateLabel(timeframe, index)
    case "30d" => dateLabel(timeframe, index)
    case "90d" => "Week " + NatToString(index + 1)
    case "1y" => dateLabel(timeframe, index)
    case _ => "Period " + NatToString(index + 1)
  }

  datatype Analytics = Analytics(
    timeframe: string, totalTransactions: real, hiveVolume: real, hbdVolume: real, peakeCoinVolume: real,
    averageTransactionCost: real, gasEfficiency: real, networkUtilization: real, peakeCoinRewardsDistributed: real)

  /** The eight `Math.random()` draws one period uses, in the order the source makes them. */
  datatype Draws = Draws(transactions: real, hive: real, hbd: real, peake: real, cost: real, efficiency: real,
                         utilization: real, rewards: real)

  predicate InUnit(x: real) { 0.0 <= x < 1.0 }

  predicate ValidDraws(d: Draws) {
    InUnit(d.transactions) && InUnit(d.hive) && InUnit(d.hbd) && InUnit(d.peake) && InUnit(d.cost)
    && InUnit(d.efficiency) && InUnit(d.utilization) && InUnit(d.rewards)
  }

  function Floor(x: real): real { x.Floor as real }

  /** The 5% growth per period. */
  function GrowthFactor(i: nat): (r: real)
    ensures r >= 1.0 && (r == 1.0 <==> i == 0)
  {
    1.0 + i as real * 0.05
  }

  /** The entry for period `i`. */
  function Period(timeframe: string, i: nat, d: Draws, dateLabel: (string, nat) -> string): Analytics {
    var growth := GrowthFactor(i);
    Analytics(PeriodLabel(timeframe, i, dateLabel),
              Floor((100.0 + d.transactions * 200.0) * growth),
              Floor(15000.0 + d.hive * 10000.0) * growth,
              Floor(12000.0 + d.hbd * 8000.0) * growth,
              Floor(5000.0 + d.peake * 3000.0) * growth,
              0.001 + d.cost * 0.005,
              85.0 + d.efficiency * 10.0,
              60.0 + d.utilization * 25.0,
              Floor(200.0 + d.rewards * 300.0) * growth)
  }

  /** Each period's cost, efficiency and utilisation stay in their ranges. */
  lemma PeriodRanges(timeframe: string, i: nat, d: Draws, dateLabel: (string, nat) -> string)
    requires ValidDraws(d)
    ensures var a := Period(timeframe, i, d, dateLabel);
      85.0 <= a.gasEfficiency < 95.0 && 60.0 <= a.networkUtilization < 85.0
      && 0.001 <= a.averageTransactionCost < 0.006
  {
  }

  /** The growth factor is at least 1 and rises by 5% of the base per period. */
  lemma GrowthFactorRises(i: nat)
    ensures GrowthFactor(i) >= 1.0 && GrowthFactor(i + 1) == GrowthFactor(i) + 0.05
  {
  }

  /** The HIVE volume of period `i` is a whole base amount between 15000 and 25000 grown by the
      period's factor. */
  lemma HiveVolumeGrows(timeframe: string, i: nat, d: Draws, dateLabel: (string, nat) -> string)
    requires ValidDraws(d)
    ensures var base := Floor(15000.0 + d.hive * 10000.0);
      Period(timeframe, i, d, dateLabel).hiveVolume == base * GrowthFactor(i)
      && 15000.0 <= base < 25000.0 && base == base.Floor as real
  {
    var x := 15000.0 + d.hive * 10000.0;
    assert 15000.0 <= x < 25000.0;
    WholeBetween(x, 15000.0, 25000.0);
  }

  lemma WholeBetween(x: real, lo: real, hi: real)
    requires lo <= x < hi && lo == lo.Floor as real
    ensures lo <= Floor(x) < hi && Floor(x) == Floor(x).Floor as real
  {
  }

  /** `getBlockchainAnalytics`: one entry per period, in order; `draws(i)` are the random draws
      of period `i`. */
  method GetBlockchainAnalytics(timeframe: string, draws: nat -> Draws, dateLabel: (string, nat) -> string)
    returns (data: seq<Analytics>)
    ensures |data| == PeriodsForTimeframe(timeframe)
    ensures forall i :: 0 <= i < |data| ==> data[i] == Period(timeframe, i, draws(i), dateLabel)
  {
    data := [];
    var periods := PeriodsForTimeframe(timeframe);
    for i := 0 to periods
      invariant |data| == i
      invariant forall k :: 0 <= k < i ==> data[k] == Period(timeframe, k, draws(k), dateLabel)
    {
      data := data + [Period(timeframe, i, draws(i), dateLabel)];
    }
  }

  // Report summary

  function SumTransactions(a: seq<Analytics>): (r: real)
    ensures (forall k :: 0 <= k < |a| ==> a[k].totalTransactions >= 0.0) ==> r >= 0.0
  {
    if a == [] then 0.0 else SumTransactions(a[..|a| - 1]) + a[|a| - 1].totalTransactions
  }

  function SumVolume(a: seq<Analytics>): (r: real)
    ensures (forall k :: 0 <= k < |a| ==> a[k].hiveVolume >= 0.0 && a[k].hbdVolume >= 0.0) ==> r >= 0.0
  {
    if a == [] then 0.0 else SumVolume(a[..|a| - 1]) + a[|a| - 1].hiveVolume + a[|a| - 1].hbdVolume
  }

  function SumEfficiency(a: seq<Analytics>): real {
    if a == [] then 0.0 else SumEfficiency(a[..|a| - 1]) + a[|a| - 1].gasEfficiency
  }

  function SumRewards(a: seq<Analytics>): (r: real)
    ensures (forall k :: 0 <= k < |a| ==> a[k].peakeCoinRewardsDistributed >= 0.0) ==> r >= 0.0
  {
    if a == [] then 0.0 else SumRewards(a[..|a| - 1]) + a[|a| - 1].peakeCoinRewardsDistributed
  }

  datatype Summary = Summary(totalTransactions: real, totalVolume: real, averageEfficiency: Num, totalPeakeCoinRewards: real)

  /** The `summary` of `exportAnalyticsReport`; the average of an empty list is 0/0, NaN. */
  function ReportSummary(a: seq<Analytics>): (r: Summary)
    ensures r.averageEfficiency.NaN? <==> a == []
    ensures a != [] ==> r.averageEfficiency.value * |a| as real == SumEfficiency(a)
  {
    Summary(SumTransactions(a), SumVolume(a),
            if a == [] then NaN else Finite(SumEfficiency(a) / |a| as real),
            SumRewards(a))
  }

  lemma {:induction false} EfficiencySumBounds(a: seq<Analytics>, lo: real, hi: real)
    requires forall i :: 0 <= i < |a| ==> lo <= a[i].gasEfficiency < hi
    ensures lo * |a| as real <= SumEfficiency(a) && (a == [] || SumEfficiency(a) < hi * |a| as real)
  {
    if a != [] {
      EfficiencySumBounds(a[..|a| - 1], lo, hi);
    }
  }

  /** The report's average efficiency over a generated series lies between 85 and 95. */
  lemma ReportAverageInRange(timeframe: string, draws: nat -> Draws, dateLabel: (string, nat) -> string, data: seq<Analytics>)
    requires forall i :: ValidDraws(draws(i))
    requires |data| == PeriodsForTimeframe(timeframe)
    requires forall i :: 0 <= i < |data| ==> data[i] == Period(timeframe, i, draws(i), dateLabel)
    ensures ReportSummary(data).averageEfficiency.Finite?
    ensures 85.0 <= ReportSummary(data).averageEfficiency.value < 95.0
  {
    EfficienciesInRange(timeframe, draws, dateLabel, data);
    AverageInRange(data, 85.0, 95.0);
  }

  /** Entries whose efficiencies all lie in `[lo, hi)` average in `[lo, hi)`. */
  lemma AverageInRange(data: seq<Analytics>, lo: real, hi: real)
    requires data != []
    requires forall i :: 0 <= i < |data| ==> lo <= data[i].gasEfficiency < hi
    ensures ReportSummary(data).averageEfficiency.Finite?
    ensures lo <= ReportSummary(data).averageEfficiency.value < hi
  {
    EfficiencySumBounds(data, lo, hi);
    QuotientBetween(SumEfficiency(data), |data| as real, lo, hi);
  }

  lemma EfficienciesInRange(timeframe: string, draws: nat -> Draws, dateLabel: (string, nat) -> string, data: seq<Analytics>)
    requires forall i :: ValidDraws(draws(i))
    requires forall i :: 0 <= i < |data| ==> data[i] == Period(timeframe, i, draws(i), dateLabel)
    ensures forall i :: 0 <= i < |data| ==> 85.0 <= data[i].gasEfficiency < 95.0
  {
    forall i | 0 <= i < |data| ensures 85.0 <= data[i].gasEfficiency < 95.0 {
      PeriodRanges(timeframe, i, draws(i), dateLabel);
    }
  }

  /** A sum between `lo·n` and `hi·n` over `n > 0` items averages between `lo` and `hi`. */
  lemma QuotientBetween(sum: real, n: real, lo: real, hi: real)
    requires n > 0.0 && lo * n <= sum < hi * n
    ensures lo <= sum / n < hi
  {
    assert sum / n * n == sum;
  }
}
