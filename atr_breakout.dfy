/** The ATR breakout factor: true range, its rolling mean (ATR), rolling high/low
    bands widened by ATR multiples, crossings against the previous bar, and the
    common merge / fill / position tail. */
module AtrBreakout {
  import opened Wrappers
  import opened Columns

  datatype Params = Params(period: int, entryMultiplier: real, exitMultiplier: real)

  datatype SignalError = InvalidWindow(window: int)

  /** `para` with the defaults [20, 2.0, 1.5] for the entries it lacks; the period
      goes through `int()`. */
  function ParseParams(para: seq<real>): Params {
    Params(if |para| > 0 then Trunc(para[0]) else 20,
           if |para| > 1 then para[1] else 2.0,
           if |para| > 2 then para[2] else 1.5)
  }

  lemma ParamsFallBack(para: seq<real>)
    ensures |para| == 0 ==> ParseParams(para).period == 20
    ensures |para| <= 1 ==> ParseParams(para).entryMultiplier == 2.0
    ensures |para| <= 2 ==> ParseParams(para).exitMultiplier == 1.5
    ensures |para| > 0 ==> ParseParams(para).period == Trunc(para[0])
  {
  }

  function Abs(x: real): real { if x < 0.0 then -x else x }

  /** `max(high-low, |high-prev close|, |low-prev close|)` with NaN skipped: at bar 0
      the shifted close is missing and only high-low remains. */
  function TrueRange(bars: seq<Bar>, i: nat): real
    requires i < |bars|
  {
    var highLow := bars[i].high - bars[i].low;
    if i == 0 then highLow
    else
      var highClose := Abs(bars[i].high - bars[i - 1].close);
      var lowClose := Abs(bars[i].low - bars[i - 1].close);
      var m := if highLow >= highClose then highLow else highClose;
      if m >= lowClose then m else lowClose
  }

  /** The true range is the largest of the three candidate ranges, and it is one of them. */
  lemma TrueRangeIsMax(bars: seq<Bar>, i: nat)
    requires i < |bars|
    ensures TrueRange(bars, i) >= bars[i].high - bars[i].low
    ensures i > 0 ==> TrueRange(bars, i) >= Abs(bars[i].high - bars[i - 1].close)
    ensures i > 0 ==> TrueRange(bars, i) >= Abs(bars[i].low - bars[i - 1].close)
    ensures TrueRange(bars, i) == bars[i].high - bars[i].low
         || (i > 0 && (TrueRange(bars, i) == Abs(bars[i].high - bars[i - 1].close)
                       || TrueRange(bars, i) == Abs(bars[i].low - bars[i - 1].close)))
    ensures i == 0 ==> TrueRange(bars, i) == bars[i].high - bars[i].low
  {
  }

  function TrueRanges(bars: seq<Bar>): (r: seq<real>)
    ensures |r| == |bars| && forall i {:trigger r[i]} :: 0 <= i < |bars| ==> r[i] == TrueRange(bars, i)
  {
    seq(|bars|, i requires 0 <= i < |bars| => TrueRange(bars, i))
  }

  /** The columns `signal` adds to the frame. */
  datatype Frame = Frame(
    trueRange: seq<real>, atr: seq<real>, highest: seq<real>, lowest: seq<real>,
    upperBreakout: seq<real>, lowerBreakout: seq<real>,
    upperStop: seq<real>, lowerStop: seq<real>,
    signalLong: seq<Option<real>>, signalShort: seq<Option<real>>,
    signal: seq<real>, pos: seq<real>)

  // The indicator columns, each defined once from the bars.

  function Atr(bars: seq<Bar>, p: Params): seq<real>
    requires p.period >= 1
  {
    RollingMeans(TrueRanges(bars), p.period)
  }

  function Highest(bars: seq<Bar>, p: Params): seq<real>
    requires p.period >= 1
  {
    RollingMaxes(Highs(bars), p.period)
  }

  function Lowest(bars: seq<Bar>, p: Params): seq<real>
    requires p.period >= 1
  {
    RollingMins(Lows(bars), p.period)
  }

  /** highest + atr * entry */
  function UpperBreakout(bars: seq<Bar>, p: Params): seq<real>
    requires p.period >= 1
  {
    Band(Highest(bars, p), Atr(bars, p), p.entryMultiplier)
  }

  /** lowest - atr * entry */
  function LowerBreakout(bars: seq<Bar>, p: Params): seq<real>
    requires p.period >= 1
  {
    Band(Lowest(bars, p), Atr(bars, p), -p.entryMultiplier)
  }

  /** highest - atr * exit */
  function UpperStop(bars: seq<Bar>, p: Params): seq<real>
    requires p.period >= 1
  {
    Band(Highest(bars, p), Atr(bars, p), -p.exitMultiplier)
  }

  /** lowest + atr * exit */
  function LowerStop(bars: seq<Bar>, p: Params): seq<real>
    requires p.period >= 1
  {
    Band(Lowest(bars, p), Atr(bars, p), p.exitMultiplier)
  }

  /** Long entry: the close crosses above the upper breakout band. */
  function LongEntries(bars: seq<Bar>, p: Params): seq<bool>
    requires p.period >= 1
  {
    CrossAbove(Closes(bars), UpperBreakout(bars, p))
  }

  /** Long exit: the close crosses below the upper stop. */
  function LongExits(bars: seq<Bar>, p: Params): seq<bool>
    requires p.period >= 1
  {
    CrossBelow(Closes(bars), UpperStop(bars, p))
  }

  /** Short entry: the close crosses below the lower breakout band. */
  function ShortEntries(bars: seq<Bar>, p: Params): seq<bool>
    requires p.period >= 1
  {
    CrossBelow(Closes(bars), LowerBreakout(bars, p))
  }

  /** Short exit: the close crosses above the lower stop. */
  function ShortExits(bars: seq<Bar>, p: Params): seq<bool>
    requires p.period >= 1
  {
    CrossAbove(Closes(bars), LowerStop(bars, p))
  }

  function LongLegs(bars: seq<Bar>, p: Params): seq<Option<real>>
    requires p.period >= 1
  {
    Leg(LongEntries(bars, p), LongExits(bars, p), 1.0)
  }

  function ShortLegs(bars: seq<Bar>, p: Params): seq<Option<real>>
    requires p.period >= 1
  {
    Leg(ShortEntries(bars, p), ShortExits(bars, p), -1.0)
  }

  function SignalColumn(bars: seq<Bar>, p: Params): seq<real>
    requires p.period >= 1
  {
    FilledSignal(LongLegs(bars, p), ShortLegs(bars, p))
  }

  /** The frame the factor should produce, column by column. */
  function Reference(bars: seq<Bar>, p: Params, proportion: real): Frame
    requires p.period >= 1
  {
    Frame(TrueRanges(bars), Atr(bars, p), Highest(bars, p), Lowest(bars, p),
          UpperBreakout(bars, p), LowerBreakout(bars, p), UpperStop(bars, p), LowerStop(bars, p),
          LongLegs(bars, p), ShortLegs(bars, p),
          SignalColumn(bars, p), Scaled(SignalColumn(bars, p), proportion))
  }

  /** The true-range column, bar by bar. */
  method TrueRangeColumn(bars: seq<Bar>) returns (r: seq<real>)
    ensures r == TrueRanges(bars)
  {
    var n := |bars|;
    var tr := new real[n];
    for i := 0 to n
      invariant forall k :: 0 <= k < i ==> tr[k] == TrueRange(bars, k)
    {
      var highLow := bars[i].high - bars[i].low;
      if i == 0 {
        tr[i] := highLow;
      } else {
        var highClose := Abs(bars[i].high - bars[i - 1].close);
        var lowClose := Abs(bars[i].low - bars[i - 1].close);
        var m := if highLow >= highClose then highLow else highClose;
        tr[i] := if m >= lowClose then m else lowClose;
      }
    }
    r := tr[..];
  }

  /** `signal(df, para, proportion)`: the columns in the source's order, each
      `df.loc[cond, col] = v` a masked assignment; pandas' rolling raises for a
      window below 1. */
  method Signal(bars: seq<Bar>, para: seq<real>, proportion: real)
    returns (r: Result<Frame, SignalError>)
    ensures var p := ParseParams(para);
      r == if p.period < 1 then Err(InvalidWindow(p.period)) else Ok(Reference(bars, p, proportion))
  {
    var p := ParseParams(para);
    if p.period < 1 {
      return Err(InvalidWindow(p.period));
    }
    var n := |bars|;
    var tr := TrueRangeColumn(bars);
    var atr := RollingMeanColumn(tr, p.period);
    var highest := RollingMaxColumn(Highs(bars), p.period);
    var lowest := RollingMinColumn(Lows(bars), p.period);
    var upperBreakout := Band(highest, atr, p.entryMultiplier);
    var lowerBreakout := Band(lowest, atr, -p.entryMultiplier);
    var upperStop := Band(highest, atr, -p.exitMultiplier);
    var lowerStop := Band(lowest, atr, p.exitMultiplier);
    var closes := Closes(bars);

    var long := LegColumn(CrossAbove(closes, upperBreakout), CrossBelow(closes, upperStop), 1.0);
    var short := LegColumn(CrossBelow(closes, lowerBreakout), CrossAbove(closes, lowerStop), -1.0);

    var signal, pos := FinishSignal(long, short, proportion);
    r := Ok(Frame(tr, atr, highest, lowest, upperBreakout, lowerBreakout,
                  upperStop, lowerStop, long[..], short[..], signal, pos));
  }

  // ---------------------------------------------------------------- properties

  /** The signal takes only the values -1, 0 and 1. */
  lemma SignalInRange(bars: seq<Bar>, p: Params)
    requires p.period >= 1
    ensures |SignalColumn(bars, p)| == |bars|
    ensures forall i :: 0 <= i < |bars| ==> SignalValue(SignalColumn(bars, p)[i])
  {
    LegSignalInRange(LongEntries(bars, p), LongExits(bars, p), ShortEntries(bars, p), ShortExits(bars, p));
  }

  /** Nothing is written at bar 0, so the first position is flat. */
  lemma FlatAtFirstBar(bars: seq<Bar>, p: Params)
    requires p.period >= 1 && |bars| > 0
    ensures LongLegs(bars, p)[0].None? && ShortLegs(bars, p)[0].None?
    ensures SignalColumn(bars, p)[0] == 0.0
  {
  }

  /** A bar that meets the long exit closes the long leg even when it also meets the
      entry: the exit is written after the entry. */
  lemma ExitWins(bars: seq<Bar>, p: Params, i: nat)
    requires p.period >= 1 && i < |bars|
    requires LongExits(bars, p)[i]
    ensures LongLegs(bars, p)[i] == Some(0.0)
  {
  }

  /** The ATR and the rolling extremes at bar i are fixed by bars 0..i. */
  lemma {:induction false} IndicatorsAreTrailing(bars: seq<Bar>, bars2: seq<Bar>, p: Params, i: nat)
    requires p.period >= 1 && i < |bars| && i < |bars2|
    requires bars[..i + 1] == bars2[..i + 1]
    ensures Atr(bars, p)[i] == Atr(bars2, p)[i]
    ensures Highest(bars, p)[i] == Highest(bars2, p)[i]
    ensures Lowest(bars, p)[i] == Lowest(bars2, p)[i]
  {
    var tr, tr2 := TrueRanges(bars), TrueRanges(bars2);
    forall k | 0 <= k <= i ensures tr[k] == tr2[k] {
      assert bars[k] == bars2[k];
      if k > 0 { assert bars[k - 1] == bars2[k - 1]; }
    }
    assert tr[..i + 1] == tr2[..i + 1];
    assert Highs(bars)[..i + 1] == Highs(bars2)[..i + 1];
    assert Lows(bars)[..i + 1] == Lows(bars2)[..i + 1];
    RollingIsTrailing(tr, tr2, p.period, i);
    RollingIsTrailing(Highs(bars), Highs(bars2), p.period, i);
    RollingIsTrailing(Lows(bars), Lows(bars2), p.period, i);
  }

  /** The four bands at bar i are fixed by bars 0..i. */
  lemma BandsAreTrailing(bars: seq<Bar>, bars2: seq<Bar>, p: Params, i: nat)
    requires p.period >= 1 && i < |bars| && i < |bars2|
    requires bars[..i + 1] == bars2[..i + 1]
    ensures UpperBreakout(bars, p)[i] == UpperBreakout(bars2, p)[i]
    ensures LowerBreakout(bars, p)[i] == LowerBreakout(bars2, p)[i]
    ensures UpperStop(bars, p)[i] == UpperStop(bars2, p)[i]
    ensures LowerStop(bars, p)[i] == LowerStop(bars2, p)[i]
  {
    IndicatorsAreTrailing(bars, bars2, p, i);
    var a, a2 := Atr(bars, p), Atr(bars2, p);
    var h, h2 := Highest(bars, p), Highest(bars2, p);
    var l, l2 := Lowest(bars, p), Lowest(bars2, p);
    BandIsLocal(h, a, h2, a2, p.entryMultiplier, i);
    BandIsLocal(l, a, l2, a2, -p.entryMultiplier, i);
    BandIsLocal(h, a, h2, a2, -p.exitMultiplier, i);
    BandIsLocal(l, a, l2, a2, p.exitMultiplier, i);
  }

  /** No look-ahead: the signal at bar i is fixed by bars 0..i, so appending later
      bars never changes it. */
  lemma {:induction false} NoLookAhead(bars: seq<Bar>, bars2: seq<Bar>, p: Params, i: nat)
    requires p.period >= 1 && i < |bars| && i < |bars2|
    requires bars[..i + 1] == bars2[..i + 1]
    ensures SignalColumn(bars, p)[i] == SignalColumn(bars2, p)[i]
  {
    var c, c2 := Closes(bars), Closes(bars2);
    var ub, us, lb, ls := UpperBreakout(bars, p), UpperStop(bars, p), LowerBreakout(bars, p), LowerStop(bars, p);
    var ub2, us2, lb2, ls2 := UpperBreakout(bars2, p), UpperStop(bars2, p), LowerBreakout(bars2, p), LowerStop(bars2, p);
    forall k | 0 <= k <= i
      ensures c[k] == c2[k] && ub[k] == ub2[k] && us[k] == us2[k] && lb[k] == lb2[k] && ls[k] == ls2[k]
    {
      assert bars[k] == bars2[k];
      assert bars[..k + 1] == bars2[..k + 1];
      BandsAreTrailing(bars, bars2, p, k);
    }
    CrossingsAreTrailing(c, ub, c2, ub2, i);
    CrossingsAreTrailing(c, us, c2, us2, i);
    CrossingsAreTrailing(c, lb, c2, lb2, i);
    CrossingsAreTrailing(c, ls, c2, ls2, i);
    LegIsTrailing(LongEntries(bars, p), LongExits(bars, p), LongEntries(bars2, p), LongExits(bars2, p), 1.0, i);
    LegIsTrailing(ShortEntries(bars, p), ShortExits(bars, p), ShortEntries(bars2, p), ShortExits(bars2, p), -1.0, i);
    FilledSignalIsTrailing(LongLegs(bars, p), ShortLegs(bars, p), LongLegs(bars2, p), ShortLegs(bars2, p), i);
  }

  /** On bars with low <= close <= high the true range, and so the ATR, is never
      negative. */
  lemma AtrNonNegative(bars: seq<Bar>, p: Params, i: nat)
    requires p.period >= 1 && WellFormed(bars) && i < |bars|
    ensures Atr(bars, p)[i] >= 0.0
  {
    var tr := TrueRanges(bars);
    forall k | 0 <= k < |tr| ensures 0.0 <= tr[k] {
      TrueRangeIsMax(bars, k);
    }
    MeanAtLeast(Window(tr, p.period, i), 0.0);
  }

  /** With low <= close <= high on every bar and a non-negative entry multiplier, the
      close can never rise above highest + atr * entry nor fall below
      lowest - atr * entry, because the rolling extremes include the current bar. */
  lemma NoEntryAt(bars: seq<Bar>, p: Params, i: nat)
    requires p.period >= 1 && WellFormed(bars) && p.entryMultiplier >= 0.0 && i < |bars|
    ensures !LongEntries(bars, p)[i] && !ShortEntries(bars, p)[i]
  {
    AtrNonNegative(bars, p, i);
    RollingIncludesCurrent(Highs(bars), p.period, i);
    RollingIncludesCurrent(Lows(bars), p.period, i);
    BandSide(Highest(bars, p), Atr(bars, p), p.entryMultiplier, i);
    BandSide(Lowest(bars, p), Atr(bars, p), -p.entryMultiplier, i);
  }

  /** Hence on such bars no entry ever fires: the signal stays flat and so does the
      position, whatever the proportion. */
  lemma NeverEnters(bars: seq<Bar>, p: Params, proportion: real)
    requires p.period >= 1 && WellFormed(bars) && p.entryMultiplier >= 0.0
    ensures forall i :: 0 <= i < |bars| ==> SignalColumn(bars, p)[i] == 0.0
    ensures forall i :: 0 <= i < |bars| ==> Reference(bars, p, proportion).pos[i] == 0.0
  {
    forall i | 0 <= i < |bars| ensures !LongEntries(bars, p)[i] && !ShortEntries(bars, p)[i] {
      NoEntryAt(bars, p, i);
    }
    NoEntryIsFlat(LongEntries(bars, p), LongExits(bars, p), ShortEntries(bars, p), ShortExits(bars, p));
    var signal := SignalColumn(bars, p);
    SignalInRange(bars, p);
    forall i | 0 <= i < |bars| ensures Scaled(signal, proportion)[i] == 0.0 {
      assert signal[i] == 0.0;
    }
  }
}
