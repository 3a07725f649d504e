/** The KDJ factor: the raw stochastic value of the close inside the rolling
    high/low range, K its rolling mean, D the rolling mean of K, J = 3K - 2D; K/D
    crossings near the oversold or overbought level open positions, the opposite
    crossing or the level itself closes them. */
module Kdj {
  import opened Wrappers
  import opened Columns

  datatype Params = Params(period: int, kPeriod: int, dPeriod: int, overbought: real, oversold: real)

  datatype SignalError = InvalidWindow(window: int)

  /** `para` with the defaults [9, 3, 3, 80, 20]; the three periods go through `int()`. */
  function ParseParams(para: seq<real>): Params {
    Params(if |para| > 0 then Trunc(para[0]) else 9,
           if |para| > 1 then Trunc(para[1]) else 3,
           if |para| > 2 then Trunc(para[2]) else 3,
           if |para| > 3 then para[3] else 80.0,
           if |para| > 4 then para[4] else 20.0)
  }

  lemma ParamsFallBack(para: seq<real>)
    ensures |para| == 0 ==> ParseParams(para).period == 9
    ensures |para| <= 1 ==> ParseParams(para).kPeriod == 3
    ensures |para| <= 2 ==> ParseParams(para).dPeriod == 3
    ensures |para| <= 3 ==> ParseParams(para).overbought == 80.0
    ensures |para| <= 4 ==> ParseParams(para).oversold == 20.0
  {
  }

  predicate ValidWindows(p: Params) { p.period >= 1 && p.kPeriod >= 1 && p.dPeriod >= 1 }

  /** The window pandas rejects first: the high/low window, then K's, then D's. */
  function FirstInvalidWindow(p: Params): (r: Option<int>)
    ensures r.None? <==> ValidWindows(p)
    ensures r.Some? ==> r.value < 1
  {
    if p.period < 1 then Some(p.period)
    else if p.kPeriod < 1 then Some(p.kPeriod)
    else if p.dPeriod < 1 then Some(p.dPeriod)
    else None
  }

  /** The literal added to the range before dividing by it. */
  const Epsilon: real := 0.0000000001

  /** Every bar has low <= high, so the rolling range is never negative. */
  predicate HighAboveLow(bars: seq<Bar>) {
    forall i :: 0 <= i < |bars| ==> bars[i].low <= bars[i].high
  }

  function Highest(bars: seq<Bar>, p: Params): seq<real>
    requires ValidWindows(p)
  {
    RollingMaxes(Highs(bars), p.period)
  }

  function Lowest(bars: seq<Bar>, p: Params): seq<real>
    requires ValidWindows(p)
  {
    RollingMins(Lows(bars), p.period)
  }

  lemma RangeNonNegative(bars: seq<Bar>, p: Params, i: nat)
    requires ValidWindows(p) && HighAboveLow(bars) && i < |bars|
    ensures Lowest(bars, p)[i] <= bars[i].low <= bars[i].high <= Highest(bars, p)[i]
  {
    RollingIncludesCurrent(Highs(bars), p.period, i);
    RollingIncludesCurrent(Lows(bars), p.period, i);
  }

  /** `(close - lowest) / (highest - lowest + 1e-10) * 100` */
  function RsvCell(close: real, highest: real, lowest: real): real
    requires highest - lowest >= 0.0
  {
    (close - lowest) / (highest - lowest + Epsilon) * 100.0
  }

  function Rsv(bars: seq<Bar>, p: Params): (r: seq<real>)
    requires ValidWindows(p) && HighAboveLow(bars)
    ensures |r| == |bars|
  {
    var c, hi, lo := Closes(bars), Highest(bars, p), Lowest(bars, p);
    seq(|bars|, i requires 0 <= i < |bars| =>
      RangeNonNegative(bars, p, i);
      RsvCell(c[i], hi[i], lo[i]))
  }

  function K(bars: seq<Bar>, p: Params): seq<real>
    requires ValidWindows(p) && HighAboveLow(bars)
  {
    RollingMeans(Rsv(bars, p), p.kPeriod)
  }

  function D(bars: seq<Bar>, p: Params): seq<real>
    requires ValidWindows(p) && HighAboveLow(bars)
  {
    RollingMeans(K(bars, p), p.dPeriod)
  }

  /** `3 * k - 2 * d` */
  function J(bars: seq<Bar>, p: Params): (r: seq<real>)
    requires ValidWindows(p) && HighAboveLow(bars)
    ensures |r| == |bars|
  {
    var k, d := K(bars, p), D(bars, p);
    seq(|bars|, i requires 0 <= i < |bars| => 3.0 * k[i] - 2.0 * d[i])
  }

  /** Long entry: K crosses above D below oversold + 10. */
  function LongEntries(bars: seq<Bar>, p: Params): seq<bool>
    requires ValidWindows(p) && HighAboveLow(bars)
  {
    And(CrossAbove(K(bars, p), D(bars, p)), Under(K(bars, p), p.oversold + 10.0))
  }

  /** Long exit: K crosses below D, or K is above overbought. */
  function LongExits(bars: seq<Bar>, p: Params): seq<bool>
    requires ValidWindows(p) && HighAboveLow(bars)
  {
    Or(CrossBelow(K(bars, p), D(bars, p)), Above(K(bars, p), p.overbought))
  }

  /** Short entry: K crosses below D above overbought - 10. */
  function ShortEntries(bars: seq<Bar>, p: Params): seq<bool>
    requires ValidWindows(p) && HighAboveLow(bars)
  {
    And(CrossBelow(K(bars, p), D(bars, p)), Above(K(bars, p), p.overbought - 10.0))
  }

  /** Short exit: K crosses above D, or K is below oversold. */
  function ShortExits(bars: seq<Bar>, p: Params): seq<bool>
    requires ValidWindows(p) && HighAboveLow(bars)
  {
    Or(CrossAbove(K(bars, p), D(bars, p)), Under(K(bars, p), p.oversold))
  }

  function LongLegs(bars: seq<Bar>, p: Params): seq<Option<real>>
    requires ValidWindows(p) && HighAboveLow(bars)
  {
    Leg(LongEntries(bars, p), LongExits(bars, p), 1.0)
  }

  function ShortLegs(bars: seq<Bar>, p: Params): seq<Option<real>>
    requires ValidWindows(p) && HighAboveLow(bars)
  {
    Leg(ShortEntries(bars, p), ShortExits(bars, p), -1.0)
  }

  function SignalColumn(bars: seq<Bar>, p: Params): seq<real>
    requires ValidWindows(p) && HighAboveLow(bars)
  {
    FilledSignal(LongLegs(bars, p), ShortLegs(bars, p))
  }

  /** The columns `signal` adds to the frame. */
  datatype Frame = Frame(
    highest: seq<real>, lowest: seq<real>, rsv: seq<real>, k: seq<real>, d: seq<real>, j: seq<real>,
    signalLong: seq<Option<real>>, signalShort: seq<Option<real>>,
    signal: seq<real>, pos: seq<real>)

  function Reference(bars: seq<Bar>, p: Params, proportion: real): Frame
    requires ValidWindows(p) && HighAboveLow(bars)
  {
    Frame(Highest(bars, p), Lowest(bars, p), Rsv(bars, p), K(bars, p), D(bars, p), J(bars, p),
          LongLegs(bars, p), ShortLegs(bars, p),
          SignalColumn(bars, p), Scaled(SignalColumn(bars, p), proportion))
  }

  /** The RSV column from the close and the rolling extremes, bar by bar. */
  method RsvColumn(bars: seq<Bar>, p: Params, highest: seq<real>, lowest: seq<real>) returns (r: seq<real>)
    requires ValidWindows(p) && HighAboveLow(bars)
    requires highest == Highest(bars, p) && lowest == Lowest(bars, p)
    ensures r == Rsv(bars, p)
  {
    var rsv := new real[|bars|];
    for i := 0 to |bars|
      invariant forall m :: 0 <= m < i ==> rsv[m] == Rsv(bars, p)[m]
    {
      RangeNonNegative(bars, p, i);
      rsv[i] := (bars[i].close - lowest[i]) / (highest[i] - lowest[i] + Epsilon) * 100.0;
    }
    r := rsv[..];
  }

  /** `signal(df, para, proportion)`. */
  method Signal(bars: seq<Bar>, para: seq<real>, proportion: real)
    returns (r: Result<Frame, SignalError>)
    requires HighAboveLow(bars)
    ensures var p := ParseParams(para);
      r == match FirstInvalidWindow(p)
        case Some(w) => Err(InvalidWindow(w))
        case None => Ok(Reference(bars, p, proportion))
  {
    var p := ParseParams(para);
    var invalid := FirstInvalidWindow(p);
    if invalid.Some? {
      return Err(InvalidWindow(invalid.value));
    }
    var n := |bars|;
    var highest := RollingMaxColumn(Highs(bars), p.period);
    var lowest := RollingMinColumn(Lows(bars), p.period);
    var rsv := RsvColumn(bars, p, highest, lowest);
    var k := RollingMeanColumn(rsv, p.kPeriod);
    var d := RollingMeanColumn(k, p.dPeriod);
    var j := seq(n, i requires 0 <= i < n => 3.0 * k[i] - 2.0 * d[i]);
    assert k == K(bars, p) && d == D(bars, p);

    var long := LegColumn(And(CrossAbove(k, d), Under(k, p.oversold + 10.0)), Or(CrossBelow(k, d), Above(k, p.overbought)), 1.0);
    var short := LegColumn(And(CrossBelow(k, d), Above(k, p.overbought - 10.0)), Or(CrossAbove(k, d), Under(k, p.oversold)), -1.0);

    var signal, pos := FinishSignal(long, short, proportion);
    r := Ok(Frame(highest, lowest, rsv, k, d, j, long[..], short[..], signal, pos));
  }

  // ---------------------------------------------------------------- properties

  /** On bars with low <= close <= high the RSV lies in [0, 100). */
  lemma RsvInRange(bars: seq<Bar>, p: Params, i: nat)
    requires ValidWindows(p) && WellFormed(bars) && i < |bars|
    ensures HighAboveLow(bars)
    ensures 0.0 <= Rsv(bars, p)[i] < 100.0
  {
    RangeNonNegative(bars, p, i);
    var hi, lo := Highest(bars, p)[i], Lowest(bars, p)[i];
    var x, den := bars[i].close - lo, hi - lo + Epsilon;
    assert 0.0 <= x < den;
    var q := x / den;
    assert q * den == x;
    assert 0.0 <= q < 1.0;
    assert Rsv(bars, p)[i] == q * 100.0;
  }

  /** K and D, as rolling means of values in [0, 100), stay in [0, 100); hence J
      lies in (-200, 300). */
  lemma KdjInRange(bars: seq<Bar>, p: Params, i: nat)
    requires ValidWindows(p) && WellFormed(bars) && i < |bars|
    ensures HighAboveLow(bars)
    ensures 0.0 <= K(bars, p)[i] < 100.0 && 0.0 <= D(bars, p)[i] < 100.0
    ensures -200.0 < J(bars, p)[i] < 300.0
  {
    var rsv, k := Rsv(bars, p), K(bars, p);
    forall m | 0 <= m < |bars| ensures 0.0 <= rsv[m] < 100.0 {
      RsvInRange(bars, p, m);
    }
    forall m | 0 <= m < |bars| ensures 0.0 <= k[m] < 100.0 {
      MeanBounds(Window(rsv, p.kPeriod, m), 0.0, 100.0);
    }
    MeanBounds(Window(k, p.dPeriod, i), 0.0, 100.0);
  }

  /** The signal takes only the values -1, 0 and 1. */
  lemma SignalInRange(bars: seq<Bar>, p: Params)
    requires ValidWindows(p) && HighAboveLow(bars)
    ensures |SignalColumn(bars, p)| == |bars|
    ensures forall i :: 0 <= i < |bars| ==> SignalValue(SignalColumn(bars, p)[i])
  {
    LegSignalInRange(LongEntries(bars, p), LongExits(bars, p), ShortEntries(bars, p), ShortExits(bars, p));
  }

  /** K above the overbought level closes the long leg, K below the oversold level
      closes the short leg, whatever else holds on that bar. */
  lemma LevelExits(bars: seq<Bar>, p: Params, i: nat)
    requires ValidWindows(p) && HighAboveLow(bars) && i < |bars|
    ensures K(bars, p)[i] > p.overbought ==> LongLegs(bars, p)[i] == Some(0.0)
    ensures K(bars, p)[i] < p.oversold ==> ShortLegs(bars, p)[i] == Some(0.0)
  {
  }

  /** Entries need a crossing, which bar 0 cannot have; the level exits are not
      shifted and can already fire there. */
  lemma NoEntryAtFirstBar(bars: seq<Bar>, p: Params)
    requires ValidWindows(p) && HighAboveLow(bars) && |bars| > 0
    ensures LongLegs(bars, p)[0] == (if K(bars, p)[0] > p.overbought then Some(0.0) else None)
    ensures ShortLegs(bars, p)[0] == (if K(bars, p)[0] < p.oversold then Some(0.0) else None)
  {
  }

  /** The RSV up to bar i is fixed by bars 0..i. */
  lemma {:induction false} RsvIsTrailing(bars: seq<Bar>, bars2: seq<Bar>, p: Params, i: nat)
    requires ValidWindows(p) && HighAboveLow(bars) && HighAboveLow(bars2) && i < |bars| && i < |bars2|
    requires bars[..i + 1] == bars2[..i + 1]
    ensures Rsv(bars, p)[..i + 1] == Rsv(bars2, p)[..i + 1]
  {
    forall m | 0 <= m <= i ensures Rsv(bars, p)[m] == Rsv(bars2, p)[m] {
      assert bars[..m + 1] == bars2[..m + 1];
      assert bars[m] == bars2[m];
      assert Highs(bars)[..m + 1] == Highs(bars2)[..m + 1];
      assert Lows(bars)[..m + 1] == Lows(bars2)[..m + 1];
      RollingIsTrailing(Highs(bars), Highs(bars2), p.period, m);
      RollingIsTrailing(Lows(bars), Lows(bars2), p.period, m);
    }
  }

  /** K and D up to bar i are fixed by bars 0..i. */
  lemma {:induction false} KdIsTrailing(bars: seq<Bar>, bars2: seq<Bar>, p: Params, i: nat)
    requires ValidWindows(p) && HighAboveLow(bars) && HighAboveLow(bars2) && i < |bars| && i < |bars2|
    requires bars[..i + 1] == bars2[..i + 1]
    ensures forall m :: 0 <= m <= i ==> K(bars, p)[m] == K(bars2, p)[m] && D(bars, p)[m] == D(bars2, p)[m]
  {
    var rsv, rsv2 := Rsv(bars, p), Rsv(bars2, p);
    var k, k2 := K(bars, p), K(bars2, p);
    RsvIsTrailing(bars, bars2, p, i);
    forall m | 0 <= m <= i ensures k[m] == k2[m] {
      assert rsv[..m + 1] == rsv[..i + 1][..m + 1];
      assert rsv2[..m + 1] == rsv2[..i + 1][..m + 1];
      RollingIsTrailing(rsv, rsv2, p.kPeriod, m);
    }
    forall m | 0 <= m <= i ensures D(bars, p)[m] == D(bars2, p)[m] {
      assert k[..m + 1] == k2[..m + 1];
      RollingIsTrailing(k, k2, p.dPeriod, m);
    }
  }

  /** No look-ahead: the signal at bar i is fixed by bars 0..i. */
  lemma {:induction false} NoLookAhead(bars: seq<Bar>, bars2: seq<Bar>, p: Params, i: nat)
    requires ValidWindows(p) && HighAboveLow(bars) && HighAboveLow(bars2) && i < |bars| && i < |bars2|
    requires bars[..i + 1] == bars2[..i + 1]
    ensures SignalColumn(bars, p)[i] == SignalColumn(bars2, p)[i]
  {
    var k, k2, d, d2 := K(bars, p), K(bars2, p), D(bars, p), D(bars2, p);
    KdIsTrailing(bars, bars2, p, i);
    CrossingsAreTrailing(k, d, k2, d2, i);
    LegIsTrailing(LongEntries(bars, p), LongExits(bars, p), LongEntries(bars2, p), LongExits(bars2, p), 1.0, i);
    LegIsTrailing(ShortEntries(bars, p), ShortExits(bars, p), ShortEntries(bars2, p), ShortExits(bars2, p), -1.0, i);
    FilledSignalIsTrailing(LongLegs(bars, p), ShortLegs(bars, p), LongLegs(bars2, p), ShortLegs(bars2, p), i);
  }
}
