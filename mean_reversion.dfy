/** The mean-reversion factor: a rolling mean and sample standard deviation of the
    close, entry bands at `entry` deviations and exit bands at `exit` deviations,
    band crossings against the previous bar, and a forced close when the
    standardised deviation runs past 1.5 times the entry threshold. */
module MeanReversion {
  import opened Wrappers
  import opened Columns

  datatype Params = Params(period: int, entryThreshold: real, exitThreshold: real)

  datatype SignalError = InvalidWindow(window: int)

  /** `para` with the defaults [20, 2.0, 0.5]; the period goes through `int()`. */
  function ParseParams(para: seq<real>): Params {
    Params(if |para| > 0 then Trunc(para[0]) else 20,
           if |para| > 1 then para[1] else 2.0,
           if |para| > 2 then para[2] else 0.5)
  }

  lemma ParamsFallBack(para: seq<real>)
    ensures |para| == 0 ==> ParseParams(para).period == 20
    ensures |para| <= 1 ==> ParseParams(para).entryThreshold == 2.0
    ensures |para| <= 2 ==> ParseParams(para).exitThreshold == 0.5
    ensures |para| > 0 ==> ParseParams(para).period == Trunc(para[0])
  {
  }

  /** The literal added to the standard deviation before dividing by it. */
  const Epsilon: real := 0.0000000001

  function Ma(bars: seq<Bar>, p: Params): seq<real>
    requires p.period >= 1
  {
    RollingMeans(Closes(bars), p.period)
  }

  function Std(bars: seq<Bar>, p: Params, sqrt: real -> real): seq<Option<real>>
    requires p.period >= 1
  {
    RollingStds(Closes(bars), p.period, sqrt)
  }

  /** `(close - ma) / (std + 1e-10)`, NaN where the standard deviation is. */
  function DeviationCell(close: real, ma: real, std: Option<real>): Option<real>
    requires std.None? || std.value >= 0.0
  {
    if std.Some? then Some((close - ma) / (std.value + Epsilon)) else None
  }

  function Deviation(bars: seq<Bar>, p: Params, sqrt: real -> real): (r: seq<Option<real>>)
    requires p.period >= 1 && NonNegativeRoot(sqrt)
    ensures |r| == |bars|
  {
    var c, ma, std := Closes(bars), Ma(bars, p), Std(bars, p, sqrt);
    RollingStdsNonNegative(c, p.period, sqrt);
    seq(|bars|, i requires 0 <= i < |bars| => DeviationCell(c[i], ma[i], std[i]))
  }

  /** ma + std * entry */
  function UpperBand(bars: seq<Bar>, p: Params, sqrt: real -> real): seq<Option<real>>
    requires p.period >= 1
  {
    OptBand(Ma(bars, p), Std(bars, p, sqrt), p.entryThreshold)
  }

  /** ma - std * entry */
  function LowerBand(bars: seq<Bar>, p: Params, sqrt: real -> real): seq<Option<real>>
    requires p.period >= 1
  {
    OptBand(Ma(bars, p), Std(bars, p, sqrt), -p.entryThreshold)
  }

  /** ma + std * exit */
  function UpperExit(bars: seq<Bar>, p: Params, sqrt: real -> real): seq<Option<real>>
    requires p.period >= 1
  {
    OptBand(Ma(bars, p), Std(bars, p, sqrt), p.exitThreshold)
  }

  /** ma - std * exit */
  function LowerExit(bars: seq<Bar>, p: Params, sqrt: real -> real): seq<Option<real>>
    requires p.period >= 1
  {
    OptBand(Ma(bars, p), Std(bars, p, sqrt), -p.exitThreshold)
  }

  /** Long entry: the close crosses below the lower band. */
  function LongEntries(bars: seq<Bar>, p: Params, sqrt: real -> real): seq<bool>
    requires p.period >= 1
  {
    OptCrossBelow(Closes(bars), LowerBand(bars, p, sqrt))
  }

  /** Long exit: the close crosses above the upper exit band. */
  function LongExits(bars: seq<Bar>, p: Params, sqrt: real -> real): seq<bool>
    requires p.period >= 1
  {
    OptCrossAbove(Closes(bars), UpperExit(bars, p, sqrt))
  }

  /** Short entry: the close crosses above the upper band. */
  function ShortEntries(bars: seq<Bar>, p: Params, sqrt: real -> real): seq<bool>
    requires p.period >= 1
  {
    OptCrossAbove(Closes(bars), UpperBand(bars, p, sqrt))
  }

  /** Short exit: the close crosses below the lower exit band. */
  function ShortExits(bars: seq<Bar>, p: Params, sqrt: real -> real): seq<bool>
    requires p.period >= 1
  {
    OptCrossBelow(Closes(bars), LowerExit(bars, p, sqrt))
  }

  /** `max_deviation = entry_threshold * 1.5` */
  function MaxDeviation(p: Params): real { p.entryThreshold * 1.5 }

  /** Forced short close: deviation > max_deviation. */
  function ForcedShortClose(bars: seq<Bar>, p: Params, sqrt: real -> real): seq<bool>
    requires p.period >= 1 && NonNegativeRoot(sqrt)
  {
    Exceeds(Deviation(bars, p, sqrt), MaxDeviation(p))
  }

  /** Forced long close: deviation < -max_deviation. */
  function ForcedLongClose(bars: seq<Bar>, p: Params, sqrt: real -> real): seq<bool>
    requires p.period >= 1 && NonNegativeRoot(sqrt)
  {
    FallsBelow(Deviation(bars, p, sqrt), -MaxDeviation(p))
  }

  /** `signal_long` after its entry, its exit and the forced close, in that order. */
  function LongLegs(bars: seq<Bar>, p: Params, sqrt: real -> real): seq<Option<real>>
    requires p.period >= 1 && NonNegativeRoot(sqrt)
  {
    ForceFlat(Leg(LongEntries(bars, p, sqrt), LongExits(bars, p, sqrt), 1.0), ForcedLongClose(bars, p, sqrt))
  }

  /** `signal_short` after its entry, its exit and the forced close, in that order. */
  function ShortLegs(bars: seq<Bar>, p: Params, sqrt: real -> real): seq<Option<real>>
    requires p.period >= 1 && NonNegativeRoot(sqrt)
  {
    ForceFlat(Leg(ShortEntries(bars, p, sqrt), ShortExits(bars, p, sqrt), -1.0), ForcedShortClose(bars, p, sqrt))
  }

  function SignalColumn(bars: seq<Bar>, p: Params, sqrt: real -> real): seq<real>
    requires p.period >= 1 && NonNegativeRoot(sqrt)
  {
    FilledSignal(LongLegs(bars, p, sqrt), ShortLegs(bars, p, sqrt))
  }

  /** The columns `signal` adds to the frame. */
  datatype Frame = Frame(
    ma: seq<real>, std: seq<Option<real>>, deviation: seq<Option<real>>,
    upperBand: seq<Option<real>>, lowerBand: seq<Option<real>>,
    upperExit: seq<Option<real>>, lowerExit: seq<Option<real>>,
    signalLong: seq<Option<real>>, signalShort: seq<Option<real>>,
    signal: seq<real>, pos: seq<real>)

  function Reference(bars: seq<Bar>, p: Params, proportion: real, sqrt: real -> real): Frame
    requires p.period >= 1 && NonNegativeRoot(sqrt)
  {
    Frame(Ma(bars, p), Std(bars, p, sqrt), Deviation(bars, p, sqrt),
          UpperBand(bars, p, sqrt), LowerBand(bars, p, sqrt), UpperExit(bars, p, sqrt), LowerExit(bars, p, sqrt),
          LongLegs(bars, p, sqrt), ShortLegs(bars, p, sqrt),
          SignalColumn(bars, p, sqrt), Scaled(SignalColumn(bars, p, sqrt), proportion))
  }

  /** The masked writes of `signal_long` and `signal_short`, in the source's order:
      entries, exits, then the two forced closes. */
  method Legs(closes: seq<real>, upperBand: seq<Option<real>>, lowerBand: seq<Option<real>>,
              upperExit: seq<Option<real>>, lowerExit: seq<Option<real>>,
              deviation: seq<Option<real>>, maxDeviation: real)
    returns (long: array<Option<real>>, short: array<Option<real>>)
    requires |closes| == |upperBand| == |lowerBand| == |upperExit| == |lowerExit| == |deviation|
    ensures fresh(long) && fresh(short) && long.Length == short.Length == |closes|
    ensures long[..] == ForceFlat(Leg(OptCrossBelow(closes, lowerBand), OptCrossAbove(closes, upperExit), 1.0),
                                 FallsBelow(deviation, -maxDeviation))
    ensures short[..] == ForceFlat(Leg(OptCrossAbove(closes, upperBand), OptCrossBelow(closes, lowerExit), -1.0),
                                  Exceeds(deviation, maxDeviation))
  {
    var n := |closes|;
    long := new Option<real>[n](_ => None);
    short := new Option<real>[n](_ => None);
    var longEntry, longExit := OptCrossBelow(closes, lowerBand), OptCrossAbove(closes, upperExit);
    var shortEntry, shortExit := OptCrossAbove(closes, upperBand), OptCrossBelow(closes, lowerExit);
    LocAssign(long, longEntry, 1.0);
    LocAssign(long, longExit, 0.0);
    assert long[..] == Leg(longEntry, longExit, 1.0);
    LocAssign(short, shortEntry, -1.0);
    LocAssign(short, shortExit, 0.0);
    assert short[..] == Leg(shortEntry, shortExit, -1.0);
    var forcedShort, forcedLong := Exceeds(deviation, maxDeviation), FallsBelow(deviation, -maxDeviation);
    ghost var longLeg := long[..];
    LocAssign(short, forcedShort, 0.0);
    assert long[..] == longLeg;
    LocAssign(long, forcedLong, 0.0);
  }

  /** `signal(df, para, proportion)`, with the square root used by the rolling
      standard deviation given as `sqrt`. */
  method Signal(bars: seq<Bar>, para: seq<real>, proportion: real, sqrt: real -> real)
    returns (r: Result<Frame, SignalError>)
    requires NonNegativeRoot(sqrt)
    ensures var p := ParseParams(para);
      r == if p.period < 1 then Err(InvalidWindow(p.period)) else Ok(Reference(bars, p, proportion, sqrt))
  {
    var p := ParseParams(para);
    if p.period < 1 {
      return Err(InvalidWindow(p.period));
    }
    var closes := Closes(bars);
    var ma := RollingMeanColumn(closes, p.period);
    var std := RollingStdColumn(closes, p.period, sqrt);
    var deviation := Deviation(bars, p, sqrt);
    var upperBand := OptBand(ma, std, p.entryThreshold);
    var lowerBand := OptBand(ma, std, -p.entryThreshold);
    var upperExit := OptBand(ma, std, p.exitThreshold);
    var lowerExit := OptBand(ma, std, -p.exitThreshold);
    assert lowerBand == LowerBand(bars, p, sqrt) && upperBand == UpperBand(bars, p, sqrt);
    assert lowerExit == LowerExit(bars, p, sqrt) && upperExit == UpperExit(bars, p, sqrt);
    var long, short := Legs(closes, upperBand, lowerBand, upperExit, lowerExit, deviation, p.entryThreshold * 1.5);
    assert long[..] == LongLegs(bars, p, sqrt);
    assert short[..] == ShortLegs(bars, p, sqrt);
    var signal, pos := FinishSignal(long, short, proportion);
    r := Ok(Frame(ma, std, deviation, upperBand, lowerBand, upperExit, lowerExit,
                  long[..], short[..], signal, pos));
  }

  // ---------------------------------------------------------------- properties

  /** The standard deviation, and with it every band and the deviation, is missing
      exactly at bar 0 and, when the period is 1, at every bar. */
  lemma MissingWhereWindowIsOneBar(bars: seq<Bar>, p: Params, sqrt: real -> real, i: nat)
    requires p.period >= 1 && NonNegativeRoot(sqrt) && i < |bars|
    ensures Std(bars, p, sqrt)[i].None? <==> i == 0 || p.period == 1
    ensures Deviation(bars, p, sqrt)[i].None? <==> i == 0 || p.period == 1
    ensures UpperBand(bars, p, sqrt)[i].None? <==> i == 0 || p.period == 1
    ensures LowerBand(bars, p, sqrt)[i].None? <==> i == 0 || p.period == 1
  {
    RollingStdShape(Closes(bars), p.period, i, sqrt);
  }

  /** With 0 <= exit <= entry the bands nest around the mean:
      lower band <= lower exit <= ma <= upper exit <= upper band. */
  lemma BandsNest(bars: seq<Bar>, p: Params, sqrt: real -> real, i: nat)
    requires p.period > 1 && NonNegativeRoot(sqrt) && 0 < i < |bars|
    requires 0.0 <= p.exitThreshold <= p.entryThreshold
    ensures var ma := Ma(bars, p)[i];
      && LowerBand(bars, p, sqrt)[i].Some? && LowerExit(bars, p, sqrt)[i].Some?
      && UpperExit(bars, p, sqrt)[i].Some? && UpperBand(bars, p, sqrt)[i].Some?
      && LowerBand(bars, p, sqrt)[i].value <= LowerExit(bars, p, sqrt)[i].value <= ma
      && ma <= UpperExit(bars, p, sqrt)[i].value <= UpperBand(bars, p, sqrt)[i].value
  {
    var ma, std := Ma(bars, p), Std(bars, p, sqrt);
    RollingStdShape(Closes(bars), p.period, i, sqrt);
    OptBandMonotone(ma, std, -p.entryThreshold, -p.exitThreshold, i);
    OptBandMonotone(ma, std, p.exitThreshold, p.entryThreshold, i);
    OptBandSide(ma, std, -p.exitThreshold, i);
    OptBandSide(ma, std, p.exitThreshold, i);
  }

  /** The deviation has the sign of close - ma: its denominator std + 1e-10 is
      positive. */
  lemma DeviationSign(bars: seq<Bar>, p: Params, sqrt: real -> real, i: nat)
    requires p.period >= 1 && NonNegativeRoot(sqrt) && i < |bars|
    requires Deviation(bars, p, sqrt)[i].Some?
    ensures Deviation(bars, p, sqrt)[i].value > 0.0 <==> bars[i].close > Ma(bars, p)[i]
    ensures Deviation(bars, p, sqrt)[i].value < 0.0 <==> bars[i].close < Ma(bars, p)[i]
  {
    RollingStdShape(Closes(bars), p.period, i, sqrt);
    var d := Std(bars, p, sqrt)[i].value + Epsilon;
    var x := bars[i].close - Ma(bars, p)[i];
    assert d > 0.0;
    assert Deviation(bars, p, sqrt)[i].value == x / d;
    if x > 0.0 { assert x / d > 0.0; }
    if x < 0.0 { assert x / d < 0.0; }
    if x == 0.0 { assert x / d == 0.0; }
  }

  /** A forced close overrides whatever the entry and exit rules wrote on that bar. */
  lemma ForcedCloseWins(bars: seq<Bar>, p: Params, sqrt: real -> real, i: nat)
    requires p.period >= 1 && NonNegativeRoot(sqrt) && i < |bars|
    ensures ForcedLongClose(bars, p, sqrt)[i] ==> LongLegs(bars, p, sqrt)[i] == Some(0.0)
    ensures ForcedShortClose(bars, p, sqrt)[i] ==> ShortLegs(bars, p, sqrt)[i] == Some(0.0)
  {
  }

  /** With a non-negative entry threshold, a forced long close happens only below the
      mean and a forced short close only above it. */
  lemma ForcedCloseSide(bars: seq<Bar>, p: Params, sqrt: real -> real, i: nat)
    requires p.period >= 1 && NonNegativeRoot(sqrt) && i < |bars| && p.entryThreshold >= 0.0
    ensures ForcedLongClose(bars, p, sqrt)[i] ==> bars[i].close < Ma(bars, p)[i]
    ensures ForcedShortClose(bars, p, sqrt)[i] ==> bars[i].close > Ma(bars, p)[i]
  {
    if Deviation(bars, p, sqrt)[i].Some? {
      DeviationSign(bars, p, sqrt, i);
    }
  }

  /** The signal takes only the values -1, 0 and 1. */
  lemma SignalInRange(bars: seq<Bar>, p: Params, sqrt: real -> real)
    requires p.period >= 1 && NonNegativeRoot(sqrt)
    ensures |SignalColumn(bars, p, sqrt)| == |bars|
    ensures forall i :: 0 <= i < |bars| ==> SignalValue(SignalColumn(bars, p, sqrt)[i])
  {
    ForcedLegSignalInRange(LongEntries(bars, p, sqrt), LongExits(bars, p, sqrt), ForcedLongClose(bars, p, sqrt),
                           ShortEntries(bars, p, sqrt), ShortExits(bars, p, sqrt), ForcedShortClose(bars, p, sqrt));
  }

  /** With a period of 1 the standard deviation is NaN on every bar, no rule can
      fire, and the strategy never takes a position. */
  lemma PeriodOneIsFlat(bars: seq<Bar>, p: Params, sqrt: real -> real)
    requires p.period == 1 && NonNegativeRoot(sqrt)
    ensures forall i :: 0 <= i < |bars| ==> SignalColumn(bars, p, sqrt)[i] == 0.0
  {
    var long, short := LongLegs(bars, p, sqrt), ShortLegs(bars, p, sqrt);
    var merged := Merged(long, short);
    forall i | 0 <= i < |bars| ensures merged[i].None? {
      LegsMissingAtPeriodOne(bars, p, sqrt, i);
    }
    forall i | 0 <= i < |bars| ensures SignalColumn(bars, p, sqrt)[i] == 0.0 {
      NothingKnown(merged, i);
    }
  }

  /** With a period of 1 neither leg writes anything at bar i. */
  lemma LegsMissingAtPeriodOne(bars: seq<Bar>, p: Params, sqrt: real -> real, i: nat)
    requires p.period == 1 && NonNegativeRoot(sqrt) && i < |bars|
    ensures LongLegs(bars, p, sqrt)[i].None? && ShortLegs(bars, p, sqrt)[i].None?
  {
    MissingWhereWindowIsOneBar(bars, p, sqrt, i);
    if i > 0 { MissingWhereWindowIsOneBar(bars, p, sqrt, i - 1); }
    assert !LongEntries(bars, p, sqrt)[i] && !LongExits(bars, p, sqrt)[i] && !ForcedLongClose(bars, p, sqrt)[i];
    assert !ShortEntries(bars, p, sqrt)[i] && !ShortExits(bars, p, sqrt)[i] && !ForcedShortClose(bars, p, sqrt)[i];
  }

  /** Nothing is written at bar 0, so the first position is flat. */
  lemma FlatAtFirstBar(bars: seq<Bar>, p: Params, sqrt: real -> real)
    requires p.period >= 1 && NonNegativeRoot(sqrt) && |bars| > 0
    ensures LongLegs(bars, p, sqrt)[0].None? && ShortLegs(bars, p, sqrt)[0].None?
    ensures SignalColumn(bars, p, sqrt)[0] == 0.0
  {
    MissingWhereWindowIsOneBar(bars, p, sqrt, 0);
  }

  /** The indicators at bar i are fixed by bars 0..i. */
  lemma {:induction false} IndicatorsAreTrailing(bars: seq<Bar>, bars2: seq<Bar>, p: Params, sqrt: real -> real, i: nat)
    requires p.period >= 1 && NonNegativeRoot(sqrt) && i < |bars| && i < |bars2|
    requires bars[..i + 1] == bars2[..i + 1]
    ensures Ma(bars, p)[i] == Ma(bars2, p)[i] && Std(bars, p, sqrt)[i] == Std(bars2, p, sqrt)[i]
    ensures Deviation(bars, p, sqrt)[i] == Deviation(bars2, p, sqrt)[i]
  {
    var c, c2 := Closes(bars), Closes(bars2);
    assert c[..i + 1] == c2[..i + 1];
    RollingIsTrailing(c, c2, p.period, i);
    RollingStdIsTrailing(c, c2, p.period, i, sqrt);
    assert bars[i] == bars2[i];
  }

  lemma {:induction false} BandsAreTrailing(bars: seq<Bar>, bars2: seq<Bar>, p: Params, sqrt: real -> real, i: nat)
    requires p.period >= 1 && NonNegativeRoot(sqrt) && i < |bars| && i < |bars2|
    requires bars[..i + 1] == bars2[..i + 1]
    ensures UpperBand(bars, p, sqrt)[i] == UpperBand(bars2, p, sqrt)[i]
    ensures LowerBand(bars, p, sqrt)[i] == LowerBand(bars2, p, sqrt)[i]
    ensures UpperExit(bars, p, sqrt)[i] == UpperExit(bars2, p, sqrt)[i]
    ensures LowerExit(bars, p, sqrt)[i] == LowerExit(bars2, p, sqrt)[i]
  {
    IndicatorsAreTrailing(bars, bars2, p, sqrt, i);
    var ma, ma2, std, std2 := Ma(bars, p), Ma(bars2, p), Std(bars, p, sqrt), Std(bars2, p, sqrt);
    OptBandIsLocal(ma, std, ma2, std2, p.entryThreshold, i);
    OptBandIsLocal(ma, std, ma2, std2, -p.entryThreshold, i);
    OptBandIsLocal(ma, std, ma2, std2, p.exitThreshold, i);
    OptBandIsLocal(ma, std, ma2, std2, -p.exitThreshold, i);
  }

  /** No look-ahead: the signal at bar i is fixed by bars 0..i. */
  lemma {:induction false} NoLookAhead(bars: seq<Bar>, bars2: seq<Bar>, p: Params, sqrt: real -> real, i: nat)
    requires p.period >= 1 && NonNegativeRoot(sqrt) && i < |bars| && i < |bars2|
    requires bars[..i + 1] == bars2[..i + 1]
    ensures SignalColumn(bars, p, sqrt)[i] == SignalColumn(bars2, p, sqrt)[i]
  {
    var c, c2 := Closes(bars), Closes(bars2);
    var ub, lb, ux, lx := UpperBand(bars, p, sqrt), LowerBand(bars, p, sqrt), UpperExit(bars, p, sqrt), LowerExit(bars, p, sqrt);
    var ub2, lb2, ux2, lx2 := UpperBand(bars2, p, sqrt), LowerBand(bars2, p, sqrt), UpperExit(bars2, p, sqrt), LowerExit(bars2, p, sqrt);
    var dev, dev2 := Deviation(bars, p, sqrt), Deviation(bars2, p, sqrt);
    forall k | 0 <= k <= i
      ensures c[k] == c2[k] && ub[k] == ub2[k] && lb[k] == lb2[k] && ux[k] == ux2[k] && lx[k] == lx2[k]
      ensures dev[k] == dev2[k]
    {
      assert bars[k] == bars2[k];
      assert bars[..k + 1] == bars2[..k + 1];
      BandsAreTrailing(bars, bars2, p, sqrt, k);
      IndicatorsAreTrailing(bars, bars2, p, sqrt, k);
    }
    OptCrossingsAreTrailing(c, ub, c2, ub2, i);
    OptCrossingsAreTrailing(c, lb, c2, lb2, i);
    OptCrossingsAreTrailing(c, ux, c2, ux2, i);
    OptCrossingsAreTrailing(c, lx, c2, lx2, i);
    var le, lx_, se, sx := LongEntries(bars, p, sqrt), LongExits(bars, p, sqrt), ShortEntries(bars, p, sqrt), ShortExits(bars, p, sqrt);
    var le2, lx2_, se2, sx2 := LongEntries(bars2, p, sqrt), LongExits(bars2, p, sqrt), ShortEntries(bars2, p, sqrt), ShortExits(bars2, p, sqrt);
    LegIsTrailing(le, lx_, le2, lx2_, 1.0, i);
    LegIsTrailing(se, sx, se2, sx2, -1.0, i);
    ForceFlatIsTrailing(Leg(le, lx_, 1.0), ForcedLongClose(bars, p, sqrt), Leg(le2, lx2_, 1.0), ForcedLongClose(bars2, p, sqrt), i);
    ForceFlatIsTrailing(Leg(se, sx, -1.0), ForcedShortClose(bars, p, sqrt), Leg(se2, sx2, -1.0), ForcedShortClose(bars2, p, sqrt), i);
    FilledSignalIsTrailing(LongLegs(bars, p, sqrt), ShortLegs(bars, p, sqrt), LongLegs(bars2, p, sqrt), ShortLegs(bars2, p, sqrt), i);
  }
}
