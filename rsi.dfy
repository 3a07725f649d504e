/** The RSI factor: bar-to-bar close changes split into gains and losses, their
    rolling means, RS = mean gain / (mean loss + 1e-10) and RSI = 100 - 100/(1 + RS);
    RSI falling through the oversold level goes long, rising through the
    overbought level goes short, and crossing 50 closes either leg. */
module Rsi {
  import opened Wrappers
  import opened Columns

  datatype Params = Params(period: int, overbought: real, oversold: real)

  datatype SignalError = InvalidWindow(window: int)

  /** `para` with the defaults [14, 70, 30]; the period goes through `int()`. */
  function ParseParams(para: seq<real>): Params {
    Params(if |para| > 0 then Trunc(para[0]) else 14,
           if |para| > 1 then para[1] else 70.0,
           if |para| > 2 then para[2] else 30.0)
  }

  lemma ParamsFallBack(para: seq<real>)
    ensures |para| == 0 ==> ParseParams(para).period == 14
    ensures |para| <= 1 ==> ParseParams(para).overbought == 70.0
    ensures |para| <= 2 ==> ParseParams(para).oversold == 30.0
  {
  }

  /** The literal added to the mean loss before dividing by it. */
  const Epsilon: real := 0.0000000001

  /** The neutral level both exits cross. */
  const Neutral: real := 50.0

  /** `close.diff()` kept where positive, else 0; at bar 0 the difference is NaN,
      which `where` also replaces by 0. */
  function Gain(bars: seq<Bar>): (r: seq<real>)
    ensures |r| == |bars|
  {
    seq(|bars|, i requires 0 <= i < |bars| =>
      if i > 0 && bars[i].close - bars[i - 1].close > 0.0 then bars[i].close - bars[i - 1].close else 0.0)
  }

  /** `-(close.diff() where negative, else 0)`. */
  function Loss(bars: seq<Bar>): (r: seq<real>)
    ensures |r| == |bars|
  {
    seq(|bars|, i requires 0 <= i < |bars| =>
      if i > 0 && bars[i].close - bars[i - 1].close < 0.0 then -(bars[i].close - bars[i - 1].close) else 0.0)
  }

  /** Gains and losses are never negative, at most one of them is non-zero, and
      gain - loss is the close change (0 at bar 0). */
  lemma GainLossSplit(bars: seq<Bar>, i: nat)
    requires i < |bars|
    ensures Gain(bars)[i] >= 0.0 && Loss(bars)[i] >= 0.0
    ensures Gain(bars)[i] == 0.0 || Loss(bars)[i] == 0.0
    ensures Gain(bars)[i] - Loss(bars)[i] == if i == 0 then 0.0 else bars[i].close - bars[i - 1].close
  {
  }

  function AvgGain(bars: seq<Bar>, p: Params): seq<real>
    requires p.period >= 1
  {
    RollingMeans(Gain(bars), p.period)
  }

  function AvgLoss(bars: seq<Bar>, p: Params): seq<real>
    requires p.period >= 1
  {
    RollingMeans(Loss(bars), p.period)
  }

  /** Rolling means of non-negative values are non-negative. */
  lemma AveragesNonNegative(bars: seq<Bar>, p: Params, i: nat)
    requires p.period >= 1 && i < |bars|
    ensures AvgGain(bars, p)[i] >= 0.0 && AvgLoss(bars, p)[i] >= 0.0
  {
    var g, l := Gain(bars), Loss(bars);
    forall m | 0 <= m < |bars| ensures g[m] >= 0.0 && l[m] >= 0.0 {
      GainLossSplit(bars, m);
    }
    MeanAtLeast(Window(g, p.period, i), 0.0);
    MeanAtLeast(Window(l, p.period, i), 0.0);
  }

  /** `avg_gain / (avg_loss + 1e-10)` */
  function RsCell(avgGain: real, avgLoss: real): real
    requires avgLoss >= 0.0
  {
    avgGain / (avgLoss + Epsilon)
  }

  function Rs(bars: seq<Bar>, p: Params): (r: seq<real>)
    requires p.period >= 1
    ensures |r| == |bars|
  {
    var g, l := AvgGain(bars, p), AvgLoss(bars, p);
    seq(|bars|, i requires 0 <= i < |bars| =>
      AveragesNonNegative(bars, p, i);
      RsCell(g[i], l[i]))
  }

  lemma RsNonNegative(bars: seq<Bar>, p: Params, i: nat)
    requires p.period >= 1 && i < |bars|
    ensures Rs(bars, p)[i] >= 0.0
  {
    AveragesNonNegative(bars, p, i);
    var g, d := AvgGain(bars, p)[i], AvgLoss(bars, p)[i] + Epsilon;
    assert g / d * d == g;
  }

  /** `100 - 100 / (1 + rs)` */
  function RsiCell(rs: real): real
    requires rs >= 0.0
  {
    100.0 - 100.0 / (1.0 + rs)
  }

  function RsiLine(bars: seq<Bar>, p: Params): (r: seq<real>)
    requires p.period >= 1
    ensures |r| == |bars|
  {
    var rs := Rs(bars, p);
    seq(|bars|, i requires 0 <= i < |bars| =>
      RsNonNegative(bars, p, i);
      RsiCell(rs[i]))
  }

  /** Long entry: RSI falls below the oversold level. */
  function LongEntries(bars: seq<Bar>, p: Params): seq<bool>
    requires p.period >= 1
  {
    CrossBelow(RsiLine(bars, p), Constant(|bars|, p.oversold))
  }

  /** Long exit: RSI rises above 50. */
  function LongExits(bars: seq<Bar>, p: Params): seq<bool>
    requires p.period >= 1
  {
    CrossAbove(RsiLine(bars, p), Constant(|bars|, Neutral))
  }

  /** Short entry: RSI rises above the overbought level. */
  function ShortEntries(bars: seq<Bar>, p: Params): seq<bool>
    requires p.period >= 1
  {
    CrossAbove(RsiLine(bars, p), Constant(|bars|, p.overbought))
  }

  /** Short exit: RSI falls below 50. */
  function ShortExits(bars: seq<Bar>, p: Params): seq<bool>
    requires p.period >= 1
  {
    CrossBelow(RsiLine(bars, p), Constant(|bars|, Neutral))
  }

  function LongLegs(bars: seq<Bar>, p: Params): seq<Option<real>>
    requires p.period >= 1
  {
    Leg(LongEntries(bars, p), LongExits(bars, p), 1.0)
  }

  function ShortLegs(bars: seq<Bar>, p: Params): seq<Option<real>>
    requires p.period >= 1
  {
    Leg(ShortEntries(bars, p), ShortExits(bars, p), -1.0)
  }

  function SignalColumn(bars: seq<Bar>, p: Params): seq<real>
    requires p.period >= 1
  {
    FilledSignal(LongLegs(bars, p), ShortLegs(bars, p))
  }

  /** The columns `signal` adds to the frame. */
  datatype Frame = Frame(
    gain: seq<real>, loss: seq<real>, avgGain: seq<real>, avgLoss: seq<real>, rs: seq<real>, rsi: seq<real>,
    signalLong: seq<Option<real>>, signalShort: seq<Option<real>>,
    signal: seq<real>, pos: seq<real>)

  function Reference(bars: seq<Bar>, p: Params, proportion: real): Frame
    requires p.period >= 1
  {
    Frame(Gain(bars), Loss(bars), AvgGain(bars, p), AvgLoss(bars, p), Rs(bars, p), RsiLine(bars, p),
          LongLegs(bars, p), ShortLegs(bars, p),
          SignalColumn(bars, p), Scaled(SignalColumn(bars, p), proportion))
  }

  /** RS and RSI from the two rolling means, bar by bar. */
  method RsiColumns(bars: seq<Bar>, p: Params, avgGain: seq<real>, avgLoss: seq<real>)
    returns (rs: seq<real>, rsi: seq<real>)
    requires p.period >= 1
    requires avgGain == AvgGain(bars, p) && avgLoss == AvgLoss(bars, p)
    ensures rs == Rs(bars, p) && rsi == RsiLine(bars, p)
  {
    var n := |bars|;
    var rsCol := new real[n];
    var rsiCol := new real[n];
    for i := 0 to n
      invariant forall m :: 0 <= m < i ==> rsCol[m] == Rs(bars, p)[m] && rsiCol[m] == RsiLine(bars, p)[m]
    {
      AveragesNonNegative(bars, p, i);
      RsNonNegative(bars, p, i);
      rsCol[i] := avgGain[i] / (avgLoss[i] + Epsilon);
      assert rsCol[i] == Rs(bars, p)[i];
      rsiCol[i] := 100.0 - 100.0 / (1.0 + rsCol[i]);
      assert rsiCol[i] == RsiLine(bars, p)[i];
    }
    rs, rsi := rsCol[..], rsiCol[..];
    assert rs == Rs(bars, p) && rsi == RsiLine(bars, p);
  }

  /** `close.diff()` split into its positive and negative parts, bar by bar. */
  method GainLossColumns(bars: seq<Bar>) returns (gain: seq<real>, loss: seq<real>)
    ensures gain == Gain(bars) && loss == Loss(bars)
  {
    var n := |bars|;
    var gainCol := new real[n];
    var lossCol := new real[n];
    for i := 0 to n
      invariant forall m :: 0 <= m < i ==> gainCol[m] == Gain(bars)[m] && lossCol[m] == Loss(bars)[m]
    {
      if i == 0 {
        gainCol[i], lossCol[i] := 0.0, 0.0;
      } else {
        var change := bars[i].close - bars[i - 1].close;
        gainCol[i] := if change > 0.0 then change else 0.0;
        lossCol[i] := if change < 0.0 then -change else 0.0;
      }
    }
    gain, loss := gainCol[..], lossCol[..];
  }

  /** `signal(df, para, proportion)`. */
  method Signal(bars: seq<Bar>, para: seq<real>, proportion: real)
    returns (r: Result<Frame, SignalError>)
    ensures var p := ParseParams(para);
      r == if p.period < 1 then Err(InvalidWindow(p.period)) else Ok(Reference(bars, p, proportion))
  {
    var p := ParseParams(para);
    if p.period < 1 {
      return Err(InvalidWindow(p.period));
    }
    var n := |bars|;
    var gain, loss := GainLossColumns(bars);
    var avgGain := RollingMeanColumn(gain, p.period);
    var avgLoss := RollingMeanColumn(loss, p.period);
    var rs, rsi := RsiColumns(bars, p, avgGain, avgLoss);

    var long := LegColumn(CrossBelow(rsi, Constant(n, p.oversold)), CrossAbove(rsi, Constant(n, Neutral)), 1.0);
    var short := LegColumn(CrossAbove(rsi, Constant(n, p.overbought)), CrossBelow(rsi, Constant(n, Neutral)), -1.0);
    assert long[..] == LongLegs(bars, p);
    assert short[..] == ShortLegs(bars, p);

    var signal, pos := FinishSignal(long, short, proportion);
    r := Ok(Frame(gain, loss, avgGain, avgLoss, rs, rsi, long[..], short[..], signal, pos));
  }

  // ---------------------------------------------------------------- properties

  /** RSI lies in [0, 100). */
  lemma RsiInRange(bars: seq<Bar>, p: Params, i: nat)
    requires p.period >= 1 && i < |bars|
    ensures 0.0 <= RsiLine(bars, p)[i] < 100.0
  {
    RsNonNegative(bars, p, i);
    var d := 1.0 + Rs(bars, p)[i];
    var q := 100.0 / d;
    assert q * d == 100.0;
    assert 0.0 < q <= 100.0;
  }

  /** At bar 0 there is no change yet, both means are 0 and RSI is 0. */
  lemma RsiAtFirstBar(bars: seq<Bar>, p: Params)
    requires p.period >= 1 && |bars| > 0
    ensures AvgGain(bars, p)[0] == 0.0 && AvgLoss(bars, p)[0] == 0.0
    ensures RsiLine(bars, p)[0] == 0.0
  {
    var g, l := Window(Gain(bars), p.period, 0), Window(Loss(bars), p.period, 0);
    assert g == [0.0] && l == [0.0];
    assert Sum(g) == 0.0 && Sum(l) == 0.0 by {
      assert g[..0] == [] && l[..0] == [];
    }
  }

  /** The signal takes only the values -1, 0 and 1. */
  lemma SignalInRange(bars: seq<Bar>, p: Params)
    requires p.period >= 1
    ensures |SignalColumn(bars, p)| == |bars|
    ensures forall i :: 0 <= i < |bars| ==> SignalValue(SignalColumn(bars, p)[i])
  {
    LegSignalInRange(LongEntries(bars, p), LongExits(bars, p), ShortEntries(bars, p), ShortExits(bars, p));
  }

  /** With oversold at or below 50 a long entry can not also be a long exit, and with
      overbought at or above 50 a short entry can not also be a short exit: the
      entry is what the leg holds. */
  lemma EntryHolds(bars: seq<Bar>, p: Params, i: nat)
    requires p.period >= 1 && i < |bars|
    ensures p.oversold <= Neutral && LongEntries(bars, p)[i] ==> LongLegs(bars, p)[i] == Some(1.0)
    ensures p.overbought >= Neutral && ShortEntries(bars, p)[i] ==> ShortLegs(bars, p)[i] == Some(-1.0)
  {
  }

  /** An RSI level outside [0, 100) can never be crossed: with oversold <= 0 no long
      is ever opened, with overbought >= 100 no short. */
  lemma UnreachableLevels(bars: seq<Bar>, p: Params, i: nat)
    requires p.period >= 1 && i < |bars|
    ensures p.oversold <= 0.0 ==> !LongEntries(bars, p)[i]
    ensures p.overbought >= 100.0 ==> !ShortEntries(bars, p)[i]
  {
    RsiInRange(bars, p, i);
  }

  /** No look-ahead: the signal at bar i is fixed by bars 0..i. */
  lemma {:induction false} NoLookAhead(bars: seq<Bar>, bars2: seq<Bar>, p: Params, i: nat)
    requires p.period >= 1 && i < |bars| && i < |bars2|
    requires bars[..i + 1] == bars2[..i + 1]
    ensures SignalColumn(bars, p)[i] == SignalColumn(bars2, p)[i]
  {
    var g, g2, l, l2 := Gain(bars), Gain(bars2), Loss(bars), Loss(bars2);
    forall m | 0 <= m <= i ensures g[m] == g2[m] && l[m] == l2[m] {
      assert bars[m] == bars2[m];
      if m > 0 { assert bars[m - 1] == bars2[m - 1]; }
    }
    var rsi, rsi2 := RsiLine(bars, p), RsiLine(bars2, p);
    forall m | 0 <= m <= i ensures rsi[m] == rsi2[m] {
      assert g[..m + 1] == g2[..m + 1] && l[..m + 1] == l2[..m + 1];
      RollingIsTrailing(g, g2, p.period, m);
      RollingIsTrailing(l, l2, p.period, m);
    }
    var n, n2 := |bars|, |bars2|;
    CrossingsAreTrailing(rsi, Constant(n, p.oversold), rsi2, Constant(n2, p.oversold), i);
    CrossingsAreTrailing(rsi, Constant(n, Neutral), rsi2, Constant(n2, Neutral), i);
    CrossingsAreTrailing(rsi, Constant(n, p.overbought), rsi2, Constant(n2, p.overbought), i);
    LegIsTrailing(LongEntries(bars, p), LongExits(bars, p), LongEntries(bars2, p), LongExits(bars2, p), 1.0, i);
    LegIsTrailing(ShortEntries(bars, p), ShortExits(bars, p), ShortEntries(bars2, p), ShortExits(bars2, p), -1.0, i);
    FilledSignalIsTrailing(LongLegs(bars, p), ShortLegs(bars, p), LongLegs(bars2, p), ShortLegs(bars2, p), i);
  }
}
