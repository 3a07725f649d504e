/** The aggregate statistics card of the backtest results page
    (frontend/src/components/BacktestResults/StatisticsPanel.tsx): averages of the
    per-result metrics, the total number of trades, and the colour a value is shown in. */
module StatisticsPanel {
  import opened Columns
  import opened Metrics

  /** The object `calculateStats` returns. */
  datatype Stats = Stats(
    totalReturn: real,
    annualReturn: real,
    maxDrawdown: real,
    sharpeRatio: real,
    sortinoRatio: real,
    calmarRatio: real,
    winRate: real,
    profitFactor: real,
    totalTrades: real,
    volatility: real,
    var95: real,
    cvar95: real)

  /** The statistic computed from metric `m`. */
  function StatOf(s: Stats, m: Metric): real {
    match m
    case FinalReturn => s.totalReturn
    case AnnualReturn => s.annualReturn
    case MaxDrawdown => s.maxDrawdown
    case SharpeRatio => s.sharpeRatio
    case SortinoRatio => s.sortinoRatio
    case CalmarRatio => s.calmarRatio
    case WinRate => s.winRate
    case ProfitFactor => s.profitFactor
    case TotalTrades => s.totalTrades
    case Volatility => s.volatility
    case Var95 => s.var95
    case Cvar95 => s.cvar95
  }

  /** One statistic: 0 without results, the sum for the trade count, the mean otherwise. */
  function Stat(results: seq<BacktestResult>, m: Metric): (r: real)
    ensures results == [] ==> r == 0.0
    ensures m == TotalTrades ==> r == Sum(Column(results, m, 1.0))
    ensures results != [] && m != TotalTrades ==>
      var c := Column(results, m, 1.0);
      MinOf(c) <= r <= MaxOf(c) && r * (|results| as real) == Sum(c)
  {
    var c := Column(results, m, 1.0);
    if results == [] then 0.0
    else if m == TotalTrades then Sum(c)
    else
      MeanWithinExtremes(c);
      Mean(c)
  }

  /** `calculateStats`. */
  function CalculateStats(results: seq<BacktestResult>): (s: Stats)
    ensures forall m :: StatOf(s, m) == Stat(results, m)
  {
    Stats(
      Stat(results, FinalReturn), Stat(results, AnnualReturn), Stat(results, MaxDrawdown),
      Stat(results, SharpeRatio), Stat(results, SortinoRatio), Stat(results, CalmarRatio),
      Stat(results, WinRate), Stat(results, ProfitFactor), Stat(results, TotalTrades),
      Stat(results, Volatility), Stat(results, Var95), Stat(results, Cvar95))
  }

  /** Without results every statistic is 0. */
  lemma EmptyStatsAreZero()
    ensures CalculateStats([]) == Stats(0.0, 0.0, 0.0, 0.0, 0.0, 0.0, 0.0, 0.0, 0.0, 0.0, 0.0, 0.0)
  {
    var s := CalculateStats([]);
    assert StatOf(s, FinalReturn) == 0.0 && StatOf(s, AnnualReturn) == 0.0 && StatOf(s, MaxDrawdown) == 0.0;
    assert StatOf(s, SharpeRatio) == 0.0 && StatOf(s, SortinoRatio) == 0.0 && StatOf(s, CalmarRatio) == 0.0;
    assert StatOf(s, WinRate) == 0.0 && StatOf(s, ProfitFactor) == 0.0 && StatOf(s, TotalTrades) == 0.0;
    assert StatOf(s, Volatility) == 0.0 && StatOf(s, Var95) == 0.0 && StatOf(s, Cvar95) == 0.0;
  }

  /** Each averaged statistic lies between the smallest and the largest value of its metric. */
  lemma AverageWithinRange(results: seq<BacktestResult>, m: Metric)
    requires m != TotalTrades && results != []
    ensures exists j :: 0 <= j < |results| && Value(results[j], m) <= StatOf(CalculateStats(results), m)
    ensures exists j :: 0 <= j < |results| && StatOf(CalculateStats(results), m) <= Value(results[j], m)
  {
    var c := Column(results, m, 1.0);
    MinOfIsMin(c);
    MaxOfIsMax(c);
    var lo :| 0 <= lo < |c| && c[lo] == MinOf(c);
    var hi :| 0 <= hi < |c| && c[hi] == MaxOf(c);
    assert Value(results[lo], m) <= StatOf(CalculateStats(results), m);
    assert StatOf(CalculateStats(results), m) <= Value(results[hi], m);
  }

  /** The trade count is a sum: one more result adds its trades to it. */
  lemma TotalTradesAdds(results: seq<BacktestResult>, r: BacktestResult)
    ensures CalculateStats(results + [r]).totalTrades == CalculateStats(results).totalTrades + r.totalTrades as real
  {
    var c := Column(results + [r], TotalTrades, 1.0);
    assert c[..|c| - 1] == Column(results, TotalTrades, 1.0);
    assert StatOf(CalculateStats(results + [r]), TotalTrades) == Sum(c);
    assert StatOf(CalculateStats(results), TotalTrades) == Sum(Column(results, TotalTrades, 1.0));
  }

  // ---------------------------------------------------------------- colours

  const Green := "#00ff88"
  const Red := "#ff4757"

  function Neutral(isDark: bool): string {
    if isDark then "#a0a9c0" else "#666666"
  }

  /** `getValueColor`: neutral for 0; otherwise green when the value's sign is the good one
      (positive when `isPositive`, negative when not) and red when it is the bad one. */
  function ValueColor(value: real, isPositive: bool, isDark: bool): (c: string)
    ensures value == 0.0 ==> c == Neutral(isDark)
    ensures value != 0.0 ==> (c == Green <==> (value > 0.0 <==> isPositive))
    ensures value != 0.0 ==> (c == Red <==> (value > 0.0 <==> !isPositive))
  {
    if value == 0.0 then Neutral(isDark)
    else if isPositive then (if value > 0.0 then Green else Red)
    else (if value > 0.0 then Red else Green)
  }

  /** Turning `isPositive` off is the same as negating the value. */
  lemma ColourInverts(value: real, isDark: bool)
    ensures ValueColor(value, false, isDark) == ValueColor(-value, true, isDark)
  {
  }
}
