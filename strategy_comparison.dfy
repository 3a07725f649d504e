/** The side-by-side comparison card (frontend/src/components/BacktestResults/StrategyComparison.tsx):
    the best strategy under one metric, the four overview figures, and the colour of a
    return cell. Results are plain objects: a metric a result lacks reads as 0. */
module StrategyComparison {
  import opened Wrappers
  import opened Js
  import opened Columns
  import StatisticsPanel

  /** `(result[metric] as number) || 0`. */
  function Score(result: JsObject, metric: string): real {
    NumOrZero(Get(result, metric))
  }

  /** `results.map(r => r[metric] || 0)`. */
  function Scores(results: seq<JsObject>, metric: string): (c: seq<real>)
    ensures |c| == |results| && forall i :: 0 <= i < |results| ==> c[i] == Score(results[i], metric)
  {
    seq(|results|, i requires 0 <= i < |results| => Score(results[i], metric))
  }

  /** `a` beats `b` under the ordering the metric asks for. */
  predicate Beats(a: real, b: real, higherIsBetter: bool) {
    if higherIsBetter then a > b else a < b
  }

  /** `getBestStrategy`: -1 for no results; otherwise the first index whose score no other
      result beats. */
  method GetBestStrategy(results: seq<JsObject>, metric: string, higherIsBetter: bool) returns (best: int)
    ensures best == -1 <==> results == []
    ensures results != [] ==> 0 <= best < |results|
    ensures results != [] ==> forall i :: 0 <= i < |results| ==>
      !Beats(Score(results[i], metric), Score(results[best], metric), higherIsBetter)
    ensures results != [] ==> forall i :: 0 <= i < best ==>
      Beats(Score(results[best], metric), Score(results[i], metric), higherIsBetter)
  {
    if |results| == 0 {
      return -1;
    }
    best := 0;
    var bestValue := Score(results[0], metric);
    var i := 0;
    while i < |results|
      invariant 0 <= best < |results| && 0 <= i <= |results| && (i == 0 ==> best == 0)
      invariant best < i || best == 0
      invariant bestValue == Score(results[best], metric)
      invariant forall k :: 0 <= k < i ==> !Beats(Score(results[k], metric), bestValue, higherIsBetter)
      invariant forall k :: 0 <= k < best ==> Beats(bestValue, Score(results[k], metric), higherIsBetter)
    {
      var value := Score(results[i], metric);
      if Beats(value, bestValue, higherIsBetter) {
        bestValue := value;
        best := i;
      }
      i := i + 1;
    }
  }

  /** The best score is the maximum (minimum) of the scores when higher (lower) is better. */
  lemma BestIsExtreme(results: seq<JsObject>, metric: string, higherIsBetter: bool, best: int)
    requires 0 <= best < |results|
    requires forall i :: 0 <= i < |results| ==>
      !Beats(Score(results[i], metric), Score(results[best], metric), higherIsBetter)
    ensures higherIsBetter ==> Score(results[best], metric) == MaxOf(Scores(results, metric))
    ensures !higherIsBetter ==> Score(results[best], metric) == MinOf(Scores(results, metric))
  {
    var c := Scores(results, metric);
    MaxOfIsMax(c);
    MinOfIsMin(c);
  }

  /** Two indices that both satisfy the contract of `GetBestStrategy` are the same index. */
  lemma BestIsUnique(results: seq<JsObject>, metric: string, higherIsBetter: bool, a: int, b: int)
    requires 0 <= a < |results| && 0 <= b < |results|
    requires forall i :: 0 <= i < |results| ==>
      !Beats(Score(results[i], metric), Score(results[a], metric), higherIsBetter)
    requires forall i :: 0 <= i < a ==> Beats(Score(results[a], metric), Score(results[i], metric), higherIsBetter)
    requires forall i :: 0 <= i < |results| ==>
      !Beats(Score(results[i], metric), Score(results[b], metric), higherIsBetter)
    requires forall i :: 0 <= i < b ==> Beats(Score(results[b], metric), Score(results[i], metric), higherIsBetter)
    ensures a == b
  {
    var sa, sb := Score(results[a], metric), Score(results[b], metric);
    assert a < b ==> Beats(sb, sa, higherIsBetter);
    assert b < a ==> Beats(sa, sb, higherIsBetter);
  }

  // ---------------------------------------------------------------- overview

  datatype OverviewFigures = OverviewFigures(bestReturn: real, bestSharpe: real, smallestDrawdown: real, bestWinRate: real)

  function Abs(x: real): real { if x < 0.0 then -x else x }

  /** `Math.abs(r.max_drawdown || 0)` for every result. */
  function DrawdownSizes(results: seq<JsObject>): (c: seq<real>)
    ensures |c| == |results| && forall i :: 0 <= i < |results| ==> c[i] == Abs(Score(results[i], "max_drawdown"))
  {
    seq(|results|, i requires 0 <= i < |results| => Abs(Score(results[i], "max_drawdown")))
  }

  /** The overview row; the card renders nothing outside compare mode or without results. */
  function Overview(compareMode: bool, results: seq<JsObject>): (o: Option<OverviewFigures>)
    ensures o.None? <==> !compareMode || results == []
    ensures o.Some? ==>
      (exists i :: 0 <= i < |results| && o.value.bestReturn == Score(results[i], "final_return")) &&
      (exists i :: 0 <= i < |results| && o.value.bestSharpe == Score(results[i], "sharpe_ratio")) &&
      (exists i :: 0 <= i < |results| && o.value.smallestDrawdown == Abs(Score(results[i], "max_drawdown"))) &&
      (exists i :: 0 <= i < |results| && o.value.bestWinRate == Score(results[i], "win_rate"))
    ensures o.Some? ==> forall i :: 0 <= i < |results| ==>
      Score(results[i], "final_return") <= o.value.bestReturn &&
      Score(results[i], "sharpe_ratio") <= o.value.bestSharpe &&
      o.value.smallestDrawdown <= Abs(Score(results[i], "max_drawdown")) &&
      Score(results[i], "win_rate") <= o.value.bestWinRate
  {
    if !compareMode || results == [] then None
    else
      var finalReturns, sharpes := Scores(results, "final_return"), Scores(results, "sharpe_ratio");
      var drawdowns, winRates := DrawdownSizes(results), Scores(results, "win_rate");
      MaxOfIsMax(finalReturns);
      MaxOfIsMax(sharpes);
      MinOfIsMin(drawdowns);
      MaxOfIsMax(winRates);
      Some(OverviewFigures(MaxOf(finalReturns), MaxOf(sharpes), MinOf(drawdowns), MaxOf(winRates)))
  }

  /** A result without a drawdown counts as 0, so it shows a smallest drawdown of 0. */
  lemma MissingDrawdownIsZero(results: seq<JsObject>, i: int)
    requires 0 <= i < |results| && "max_drawdown" !in results[i]
    ensures Overview(true, results).Some? && Overview(true, results).value.smallestDrawdown == 0.0
  {
    assert Abs(Score(results[i], "max_drawdown")) == 0.0;
  }

  // ---------------------------------------------------------------- colours

  /** `getValueColor` as this component writes it: the `isPositive = false` branch picks
      red for a negative value and green otherwise, exactly like the `true` branch. */
  function ValueColorAsWritten(value: real, isPositive: bool, isDark: bool): (c: string)
    ensures value == 0.0 ==> c == StatisticsPanel.Neutral(isDark)
    ensures value != 0.0 ==> (c == StatisticsPanel.Green <==> value > 0.0)
  {
    if value == 0.0 then StatisticsPanel.Neutral(isDark)
    else if isPositive then (if value > 0.0 then StatisticsPanel.Green else StatisticsPanel.Red)
    else (if value < 0.0 then StatisticsPanel.Red else StatisticsPanel.Green)
  }

  /** As written, `isPositive` has no effect on the colour. */
  lemma FlagIgnoredAsWritten(value: real, isDark: bool)
    ensures ValueColorAsWritten(value, false, isDark) == ValueColorAsWritten(value, true, isDark)
  {
  }

  /** A gain marked "lower is better" still shows green as written; the statistics panel's
      colour function, which inverts the colours, shows it red. */
  lemma FlagIgnoredWitness()
    ensures ValueColorAsWritten(1.0, false, false) == StatisticsPanel.Green
    ensures StatisticsPanel.ValueColor(1.0, false, false) == StatisticsPanel.Red
  {
  }

  /** Every call in the component passes the default `isPositive = true`, where the function
      as written and the statistics panel's colour agree. */
  lemma CallSitesAgree(value: real, isDark: bool)
    ensures ValueColorAsWritten(value, true, isDark) == StatisticsPanel.ValueColor(value, true, isDark)
  {
  }

  /** The colour of the total and annual return cells, with the corrected colour function. */
  function ReturnCellColor(result: JsObject, metric: string, isDark: bool): (c: string)
    ensures Score(result, metric) > 0.0 ==> c == StatisticsPanel.Green
    ensures Score(result, metric) < 0.0 ==> c == StatisticsPanel.Red
    ensures Score(result, metric) == 0.0 ==> c == StatisticsPanel.Neutral(isDark)
  {
    StatisticsPanel.ValueColor(Score(result, metric), true, isDark)
  }
}
