/** The MACD factor: fast and slow exponentially weighted means of the close, their
    difference (MACD), its own exponentially weighted mean (the signal line) and
    the histogram; a crossing of MACD above the signal line goes long, one below
    goes short. */
module Macd {
  import opened Wrappers
  import opened Columns

  datatype Params = Params(fastPeriod: int, slowPeriod: int, signalPeriod: int)

  datatype SignalError = InvalidSpan(span: int)

  /** `para` with the defaults [12, 26, 9]; every entry goes through `int()`. */
  function ParseParams(para: seq<real>): Params {
    Params(if |para| > 0 then Trunc(para[0]) else 12,
           if |para| > 1 then Trunc(para[1]) else 26,
           if |para| > 2 then Trunc(para[2]) else 9)
  }

  lemma ParamsFallBack(para: seq<real>)
    ensures |para| == 0 ==> ParseParams(para).fastPeriod == 12
    ensures |para| <= 1 ==> ParseParams(para).slowPeriod == 26
    ensures |para| <= 2 ==> ParseParams(para).signalPeriod == 9
  {
  }

  predicate ValidSpans(p: Params) { p.fastPeriod >= 1 && p.slowPeriod >= 1 && p.signalPeriod >= 1 }

  /** The span `ewm` rejects first (pandas demands span >= 1): fast, slow, signal. */
  function FirstInvalidSpan(p: Params): (r: Option<int>)
    ensures r.None? <==> ValidSpans(p)
    ensures r.Some? ==> r.value < 1
  {
    if p.fastPeriod < 1 then Some(p.fastPeriod)
    else if p.slowPeriod < 1 then Some(p.slowPeriod)
    else if p.signalPeriod < 1 then Some(p.signalPeriod)
    else None
  }

  // ---------------------------------------------------------------- ewm(span, adjust=True)

  /** 1 - alpha with alpha = 2 / (span + 1). */
  function Decay(span: int): (r: real)
    requires span >= 1
    ensures 0.0 <= r < 1.0
  {
    1.0 - 2.0 / (span as real + 1.0)
  }

  /** Σ_k decay^k · x[i-k], the numerator of the adjusted weighted mean. */
  function EwmNum(xs: seq<real>, decay: real, i: nat): real
    requires i < |xs|
  {
    if i == 0 then xs[0] else xs[i] + decay * EwmNum(xs, decay, i - 1)
  }

  /** Σ_k decay^k, its denominator. */
  function EwmDen(decay: real, i: nat): real {
    if i == 0 then 1.0 else 1.0 + decay * EwmDen(decay, i - 1)
  }

  lemma {:induction false} EwmDenAtLeastOne(decay: real, i: nat)
    requires decay >= 0.0
    ensures EwmDen(decay, i) >= 1.0
  {
    if i > 0 {
      EwmDenAtLeastOne(decay, i - 1);
      assert decay * EwmDen(decay, i - 1) >= 0.0;
    }
  }

  /** `xs.ewm(span=span, min_periods=1).mean()` at bar i. */
  function Ewm(xs: seq<real>, span: int, i: nat): real
    requires span >= 1 && i < |xs|
  {
    EwmDenAtLeastOne(Decay(span), i);
    EwmNum(xs, Decay(span), i) / EwmDen(Decay(span), i)
  }

  function Ewms(xs: seq<real>, span: int): (r: seq<real>)
    requires span >= 1
    ensures |r| == |xs| && forall i {:trigger r[i]} :: 0 <= i < |xs| ==> r[i] == Ewm(xs, span, i)
  {
    seq(|xs|, i requires 0 <= i < |xs| => Ewm(xs, span, i))
  }

  /** The weighted-mean column, carrying numerator and denominator forward. */
  method EwmColumn(xs: seq<real>, span: int) returns (r: seq<real>)
    requires span >= 1
    ensures r == Ewms(xs, span)
  {
    var decay := 1.0 - 2.0 / (span as real + 1.0);
    var col := new real[|xs|];
    var num, den := 0.0, 0.0;
    for i := 0 to |xs|
      invariant i > 0 ==> num == EwmNum(xs, decay, i - 1) && den == EwmDen(decay, i - 1)
      invariant forall m :: 0 <= m < i ==> col[m] == Ewm(xs, span, m)
    {
      if i == 0 {
        num, den := xs[0], 1.0;
      } else {
        num, den := xs[i] + decay * num, 1.0 + decay * den;
      }
      EwmDenAtLeastOne(decay, i);
      col[i] := num / den;
    }
    r := col[..];
  }

  /** One recurrence step keeps lo·D <= N <= hi·D. */
  lemma StepBounds(x: real, decay: real, n: real, d: real, lo: real, hi: real)
    requires decay >= 0.0 && lo <= x <= hi && lo * d <= n <= hi * d
    ensures lo * (1.0 + decay * d) <= x + decay * n <= hi * (1.0 + decay * d)
  {
    assert decay * (lo * d) <= decay * n by {
      assert decay * (n - lo * d) >= 0.0;
    }
    assert decay * n <= decay * (hi * d) by {
      assert decay * (hi * d - n) >= 0.0;
    }
    assert lo * (1.0 + decay * d) == lo + decay * (lo * d);
    assert hi * (1.0 + decay * d) == hi + decay * (hi * d);
  }

  /** lo·d <= n <= hi·d: the weighted sum n with total weight d weighs values in [lo, hi]. */
  predicate WeighsWithin(n: real, d: real, lo: real, hi: real) {
    lo * d <= n <= hi * d
  }

  /** The same step, for the numerator and denominator it produces. */
  lemma StepBoundsAt(x: real, decay: real, n: real, d: real, n2: real, d2: real, lo: real, hi: real)
    requires decay >= 0.0 && lo <= x <= hi && WeighsWithin(n, d, lo, hi)
    requires n2 == x + decay * n && d2 == 1.0 + decay * d
    ensures WeighsWithin(n2, d2, lo, hi)
  {
    StepBounds(x, decay, n, d, lo, hi);
  }

  /** The weights are positive, so numerator and denominator keep the bounds of the
      values they weigh. */
  lemma {:induction false} EwmNumBounds(xs: seq<real>, decay: real, i: nat, lo: real, hi: real)
    requires decay >= 0.0 && i < |xs|
    requires forall m :: 0 <= m <= i ==> lo <= xs[m] <= hi
    ensures WeighsWithin(EwmNum(xs, decay, i), EwmDen(decay, i), lo, hi)
  {
    if i > 0 {
      EwmNumBounds(xs, decay, i - 1, lo, hi);
      StepBoundsAt(xs[i], decay, EwmNum(xs, decay, i - 1), EwmDen(decay, i - 1),
                   EwmNum(xs, decay, i), EwmDen(decay, i), lo, hi);
    }
  }

  /** lo·d <= n <= hi·d with d > 0 puts n / d in [lo, hi]. */
  lemma DivBounds(n: real, d: real, lo: real, hi: real)
    requires d > 0.0 && WeighsWithin(n, d, lo, hi)
    ensures lo <= n / d <= hi
  {
    var q := n / d;
    assert q * d == n;
  }

  lemma WeightedMeanBounds(xs: seq<real>, decay: real, i: nat, lo: real, hi: real)
    requires decay >= 0.0 && i < |xs|
    requires forall m :: 0 <= m <= i ==> lo <= xs[m] <= hi
    ensures EwmDen(decay, i) >= 1.0
    ensures lo <= EwmNum(xs, decay, i) / EwmDen(decay, i) <= hi
  {
    EwmNumBounds(xs, decay, i, lo, hi);
    EwmDenAtLeastOne(decay, i);
    DivBounds(EwmNum(xs, decay, i), EwmDen(decay, i), lo, hi);
  }

  /** The weighted mean at bar i lies between the least and the greatest value up to
      bar i. */
  lemma EwmBounds(xs: seq<real>, span: int, i: nat, lo: real, hi: real)
    requires span >= 1 && i < |xs|
    requires forall m :: 0 <= m <= i ==> lo <= xs[m] <= hi
    ensures lo <= Ewm(xs, span, i) <= hi
  {
    WeightedMeanBounds(xs, Decay(span), i, lo, hi);
  }

  /** The weighted mean at bar i is fixed by values 0..i. */
  lemma {:induction false} EwmIsTrailing(xs: seq<real>, ys: seq<real>, span: int, i: nat)
    requires span >= 1 && i < |xs| && i < |ys|
    requires forall m :: 0 <= m <= i ==> xs[m] == ys[m]
    ensures EwmNum(xs, Decay(span), i) == EwmNum(ys, Decay(span), i)
    ensures Ewm(xs, span, i) == Ewm(ys, span, i)
  {
    if i > 0 { EwmIsTrailing(xs, ys, span, i - 1); }
  }

  // ---------------------------------------------------------------- indicator columns

  function Difference(x: seq<real>, y: seq<real>): (r: seq<real>)
    requires |x| == |y|
    ensures |r| == |x| && forall i {:trigger r[i]} :: 0 <= i < |x| ==> r[i] == x[i] - y[i]
  {
    seq(|x|, i requires 0 <= i < |x| => x[i] - y[i])
  }

  function EmaFast(bars: seq<Bar>, p: Params): seq<real>
    requires ValidSpans(p)
  {
    Ewms(Closes(bars), p.fastPeriod)
  }

  function EmaSlow(bars: seq<Bar>, p: Params): seq<real>
    requires ValidSpans(p)
  {
    Ewms(Closes(bars), p.slowPeriod)
  }

  function MacdLine(bars: seq<Bar>, p: Params): (r: seq<real>)
    requires ValidSpans(p)
    ensures |r| == |bars|
  {
    Difference(EmaFast(bars, p), EmaSlow(bars, p))
  }

  function SignalLine(bars: seq<Bar>, p: Params): (r: seq<real>)
    requires ValidSpans(p)
    ensures |r| == |bars|
  {
    Ewms(MacdLine(bars, p), p.signalPeriod)
  }

  function Histogram(bars: seq<Bar>, p: Params): seq<real>
    requires ValidSpans(p)
  {
    Difference(MacdLine(bars, p), SignalLine(bars, p))
  }

  /** MACD crosses above its signal line. */
  function Bullish(bars: seq<Bar>, p: Params): seq<bool>
    requires ValidSpans(p)
  {
    CrossAbove(MacdLine(bars, p), SignalLine(bars, p))
  }

  /** MACD crosses below its signal line. */
  function Bearish(bars: seq<Bar>, p: Params): seq<bool>
    requires ValidSpans(p)
  {
    CrossBelow(MacdLine(bars, p), SignalLine(bars, p))
  }

  /** `signal_long`: 1 on a bullish crossing, 0 on a bearish one. */
  function LongLegs(bars: seq<Bar>, p: Params): seq<Option<real>>
    requires ValidSpans(p)
  {
    Leg(Bullish(bars, p), Bearish(bars, p), 1.0)
  }

  /** `signal_short`: -1 on a bearish crossing, 0 on a bullish one. */
  function ShortLegs(bars: seq<Bar>, p: Params): seq<Option<real>>
    requires ValidSpans(p)
  {
    Leg(Bearish(bars, p), Bullish(bars, p), -1.0)
  }

  function SignalColumn(bars: seq<Bar>, p: Params): seq<real>
    requires ValidSpans(p)
  {
    FilledSignal(LongLegs(bars, p), ShortLegs(bars, p))
  }

  /** The columns `signal` adds to the frame. */
  datatype Frame = Frame(
    emaFast: seq<real>, emaSlow: seq<real>, macd: seq<real>, macdSignal: seq<real>, histogram: seq<real>,
    signalLong: seq<Option<real>>, signalShort: seq<Option<real>>,
    signal: seq<real>, pos: seq<real>)

  function Reference(bars: seq<Bar>, p: Params, proportion: real): Frame
    requires ValidSpans(p)
  {
    Frame(EmaFast(bars, p), EmaSlow(bars, p), MacdLine(bars, p), SignalLine(bars, p), Histogram(bars, p),
          LongLegs(bars, p), ShortLegs(bars, p),
          SignalColumn(bars, p), Scaled(SignalColumn(bars, p), proportion))
  }

  /** `signal(df, para, proportion)`. */
  method Signal(bars: seq<Bar>, para: seq<real>, proportion: real)
    returns (r: Result<Frame, SignalError>)
    ensures var p := ParseParams(para);
      r == match FirstInvalidSpan(p)
        case Some(s) => Err(InvalidSpan(s))
        case None => Ok(Reference(bars, p, proportion))
  {
    var p := ParseParams(para);
    var invalid := FirstInvalidSpan(p);
    if invalid.Some? {
      return Err(InvalidSpan(invalid.value));
    }
    var n := |bars|;
    var closes := Closes(bars);
    var emaFast := EwmColumn(closes, p.fastPeriod);
    var emaSlow := EwmColumn(closes, p.slowPeriod);
    var macd := Difference(emaFast, emaSlow);
    var macdSignal := EwmColumn(macd, p.signalPeriod);
    var histogram := Difference(macd, macdSignal);
    assert macd == MacdLine(bars, p) && macdSignal == SignalLine(bars, p);

    var long := LegColumn(CrossAbove(macd, macdSignal), CrossBelow(macd, macdSignal), 1.0);
    var short := LegColumn(CrossBelow(macd, macdSignal), CrossAbove(macd, macdSignal), -1.0);

    var signal, pos := FinishSignal(long, short, proportion);
    r := Ok(Frame(emaFast, emaSlow, macd, macdSignal, histogram, long[..], short[..], signal, pos));
  }

  // ---------------------------------------------------------------- properties

  /** The direction of the latest crossing at or before bar i: 1 bullish, -1 bearish,
      0 when there was none. */
  function LastCross(bullish: seq<bool>, bearish: seq<bool>, i: int): real
    requires |bullish| == |bearish| && i < |bullish|
    decreases i + 1
  {
    if i < 0 then 0.0
    else if bullish[i] then 1.0
    else if bearish[i] then -1.0
    else LastCross(bullish, bearish, i - 1)
  }

  /** On a bullish crossing both legs are written (long 1, short 0) and they sum to
      1; on a bearish one to -1; otherwise both stay NaN. So the held signal is the
      direction of the latest crossing, and 0 before the first. */
  lemma {:induction false} SignalFollowsLastCross(bars: seq<Bar>, p: Params, i: int)
    requires ValidSpans(p) && i < |bars|
    ensures |SignalColumn(bars, p)| == |bars|
    ensures i >= 0 ==> SignalColumn(bars, p)[i] == LastCross(Bullish(bars, p), Bearish(bars, p), i)
    ensures LastKnown(Merged(LongLegs(bars, p), ShortLegs(bars, p)), i)
         == LastCross(Bullish(bars, p), Bearish(bars, p), i)
  {
    var merged := Merged(LongLegs(bars, p), ShortLegs(bars, p));
    if i >= 0 {
      CrossingsExclusive(MacdLine(bars, p), SignalLine(bars, p), i);
      SignalFollowsLastCross(bars, p, i - 1);
    }
  }

  /** Once a crossing has happened the strategy is always in the market. */
  lemma {:induction false} InMarketAfterCross(bullish: seq<bool>, bearish: seq<bool>, j: nat, i: int)
    requires |bullish| == |bearish| && j <= i < |bullish|
    requires bullish[j] || bearish[j]
    ensures LastCross(bullish, bearish, i) == 1.0 || LastCross(bullish, bearish, i) == -1.0
    decreases i
  {
    if i > j && !bullish[i] && !bearish[i] {
      InMarketAfterCross(bullish, bearish, j, i - 1);
    }
  }

  /** A crossing is immediately reflected: the signal is 1 on a bullish bar and -1 on a
      bearish one. */
  lemma CrossSetsSignal(bars: seq<Bar>, p: Params, i: nat)
    requires ValidSpans(p) && i < |bars|
    ensures Bullish(bars, p)[i] ==> SignalColumn(bars, p)[i] == 1.0
    ensures Bearish(bars, p)[i] ==> SignalColumn(bars, p)[i] == -1.0
  {
    SignalFollowsLastCross(bars, p, i);
    CrossingsExclusive(MacdLine(bars, p), SignalLine(bars, p), i);
  }

  /** Every weighted mean of the close lies within the closes seen so far; with a
      constant close both averages equal it, MACD is 0 and no crossing ever
      happens. */
  lemma ConstantCloseIsFlat(bars: seq<Bar>, p: Params, c: real)
    requires ValidSpans(p)
    requires forall i :: 0 <= i < |bars| ==> bars[i].close == c
    ensures forall i :: 0 <= i < |bars| ==> SignalColumn(bars, p)[i] == 0.0
  {
    var closes, macd, sig := Closes(bars), MacdLine(bars, p), SignalLine(bars, p);
    forall i | 0 <= i < |bars| ensures macd[i] == 0.0 {
      EwmBounds(closes, p.fastPeriod, i, c, c);
      EwmBounds(closes, p.slowPeriod, i, c, c);
    }
    forall i | 0 <= i < |bars| ensures sig[i] == 0.0 {
      EwmBounds(macd, p.signalPeriod, i, 0.0, 0.0);
    }
    NoEntryIsFlat(Bullish(bars, p), Bearish(bars, p), Bearish(bars, p), Bullish(bars, p));
  }

  /** The signal takes only the values -1, 0 and 1. */
  lemma SignalInRange(bars: seq<Bar>, p: Params)
    requires ValidSpans(p)
    ensures |SignalColumn(bars, p)| == |bars|
    ensures forall i :: 0 <= i < |bars| ==> SignalValue(SignalColumn(bars, p)[i])
  {
    LegSignalInRange(Bullish(bars, p), Bearish(bars, p), Bearish(bars, p), Bullish(bars, p));
  }

  /** No look-ahead: the signal at bar i is fixed by bars 0..i. */
  lemma {:induction false} NoLookAhead(bars: seq<Bar>, bars2: seq<Bar>, p: Params, i: nat)
    requires ValidSpans(p) && i < |bars| && i < |bars2|
    requires bars[..i + 1] == bars2[..i + 1]
    ensures SignalColumn(bars, p)[i] == SignalColumn(bars2, p)[i]
  {
    var c, c2 := Closes(bars), Closes(bars2);
    var macd, macd2 := MacdLine(bars, p), MacdLine(bars2, p);
    var sig, sig2 := SignalLine(bars, p), SignalLine(bars2, p);
    forall m | 0 <= m <= i ensures c[m] == c2[m] {
      assert bars[m] == bars2[m];
    }
    forall m | 0 <= m <= i ensures macd[m] == macd2[m] {
      EwmIsTrailing(c, c2, p.fastPeriod, m);
      EwmIsTrailing(c, c2, p.slowPeriod, m);
    }
    forall m | 0 <= m <= i ensures sig[m] == sig2[m] {
      EwmIsTrailing(macd, macd2, p.signalPeriod, m);
    }
    CrossingsAreTrailing(macd, sig, macd2, sig2, i);
    LegIsTrailing(Bullish(bars, p), Bearish(bars, p), Bullish(bars2, p), Bearish(bars2, p), 1.0, i);
    LegIsTrailing(Bearish(bars, p), Bullish(bars, p), Bearish(bars2, p), Bullish(bars2, p), -1.0, i);
    FilledSignalIsTrailing(LongLegs(bars, p), ShortLegs(bars, p), LongLegs(bars2, p), ShortLegs(bars2, p), i);
  }
}
