/** Backtest results as the filter panel and the statistics panel read them: one record
    per result, and the column of one metric over a list of results. */
module Metrics {

  /** The fields of one backtest result that the result panels read. */
  datatype BacktestResult = BacktestResult(
    strategy: string,
    symbol: string,
    finalReturn: real,
    annualReturn: real,
    maxDrawdown: real,
    sharpeRatio: real,
    sortinoRatio: real,
    calmarRatio: real,
    winRate: real,
    profitFactor: real,
    totalTrades: int,
    volatility: real,
    var95: real,
    cvar95: real)

  datatype Metric =
    | FinalReturn | AnnualReturn | MaxDrawdown | SharpeRatio | SortinoRatio | CalmarRatio
    | WinRate | ProfitFactor | TotalTrades | Volatility | Var95 | Cvar95

  function Value(r: BacktestResult, m: Metric): real {
    match m
    case FinalReturn => r.finalReturn
    case AnnualReturn => r.annualReturn
    case MaxDrawdown => r.maxDrawdown
    case SharpeRatio => r.sharpeRatio
    case SortinoRatio => r.sortinoRatio
    case CalmarRatio => r.calmarRatio
    case WinRate => r.winRate
    case ProfitFactor => r.profitFactor
    case TotalTrades => r.totalTrades as real
    case Volatility => r.volatility
    case Var95 => r.var95
    case Cvar95 => r.cvar95
  }

  /** `results.map(r => r[m] * scale)`. */
  function Column(results: seq<BacktestResult>, m: Metric, scale: real): (c: seq<real>)
    ensures |c| == |results|
    ensures forall i :: 0 <= i < |results| ==> c[i] == Value(results[i], m) * scale
  {
    seq(|results|, i requires 0 <= i < |results| => Value(results[i], m) * scale)
  }
}
