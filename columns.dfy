/** The pandas column operations the factor files use, on per-bar columns.
    A column is a `seq<real>` (or `seq<Option<real>>` where pandas holds NaN);
    `rolling(window=w, min_periods=1)` looks at the trailing window of bars
    max(0, i-w+1) .. i, so a value at bar i never depends on a later bar. */
module Columns {
  import opened Wrappers

  // ---------------------------------------------------------------- sums and extremes

  function Sum(s: seq<real>): real {
    if s == [] then 0.0 else Sum(s[..|s| - 1]) + s[|s| - 1]
  }

  lemma {:induction false} SumDropFirst(s: seq<real>)
    requires |s| > 0
    ensures Sum(s) == s[0] + Sum(s[1..])
  {
    if |s| > 1 {
      SumDropFirst(s[..|s| - 1]);
      assert s[..|s| - 1][1..] == s[1..][..|s[1..]| - 1];
    }
  }

  /** A sum of values in [lo, hi] lies in [lo·n, hi·n], strictly below hi·n when
      every value is strictly below hi. */
  lemma {:induction false} SumBounds(s: seq<real>, lo: real, hi: real)
    requires forall k :: 0 <= k < |s| ==> lo <= s[k] <= hi
    ensures lo * |s| as real <= Sum(s) <= hi * |s| as real
    ensures |s| > 0 && (forall k :: 0 <= k < |s| ==> s[k] < hi) ==> Sum(s) < hi * |s| as real
  {
    if s != [] {
      var init := s[..|s| - 1];
      SumBounds(init, lo, hi);
      assert lo * |s| as real == lo * |init| as real + lo;
      assert hi * |s| as real == hi * |init| as real + hi;
    }
  }

  function Mean(s: seq<real>): real
    requires |s| > 0
  {
    Sum(s) / |s| as real
  }

  /** A mean of values in [lo, hi) lies in [lo, hi). */
  lemma MeanBounds(s: seq<real>, lo: real, hi: real)
    requires |s| > 0
    requires forall k :: 0 <= k < |s| ==> lo <= s[k] < hi
    ensures lo <= Mean(s) < hi
  {
    SumBounds(s, lo, hi);
    var n := |s| as real;
    assert lo * n <= Sum(s) < hi * n;
    assert Sum(s) / n >= lo by { assert Sum(s) >= lo * n; }
    assert Sum(s) / n < hi by { assert Sum(s) < hi * n; }
  }

  /** A mean of values that are all at least lo is at least lo. */
  lemma MeanAtLeast(s: seq<real>, lo: real)
    requires |s| > 0
    requires forall k :: 0 <= k < |s| ==> lo <= s[k]
    ensures lo <= Mean(s)
  {
    var hi := MaxOf(s) + 1.0;
    MaxOfIsMax(s);
    MeanBounds(s, lo, hi);
  }

  /** A mean of values in [lo, hi] lies in [lo, hi], and n times the mean is the sum. */
  lemma MeanClosed(s: seq<real>, lo: real, hi: real)
    requires |s| > 0
    requires forall k :: 0 <= k < |s| ==> lo <= s[k] <= hi
    ensures lo <= Mean(s) <= hi && Mean(s) * |s| as real == Sum(s)
  {
    SumBounds(s, lo, hi);
    DivideBetween(Sum(s), |s| as real, lo, hi);
  }

  lemma DivideBetween(total: real, n: real, lo: real, hi: real)
    requires n > 0.0 && lo * n <= total <= hi * n
    ensures lo <= total / n <= hi && (total / n) * n == total
  {
    var q := total / n;
    assert q * n == total;
    assert (q - lo) * n == total - lo * n;
    assert (hi - q) * n == hi * n - total;
  }

  /** A mean lies between the smallest and the largest value. */
  lemma MeanWithinExtremes(s: seq<real>)
    requires |s| > 0
    ensures MinOf(s) <= Mean(s) <= MaxOf(s) && Mean(s) * |s| as real == Sum(s)
  {
    MinOfIsMin(s);
    MaxOfIsMax(s);
    MeanClosed(s, MinOf(s), MaxOf(s));
  }

  function MaxOf(s: seq<real>): real
    requires |s| > 0
  {
    if |s| == 1 then s[0]
    else
      var m := MaxOf(s[1..]);
      if s[0] >= m then s[0] else m
  }

  function MinOf(s: seq<real>): real
    requires |s| > 0
  {
    if |s| == 1 then s[0]
    else
      var m := MinOf(s[1..]);
      if s[0] <= m then s[0] else m
  }

  /** MaxOf is an upper bound of the values and one of them. */
  lemma {:induction false} MaxOfIsMax(s: seq<real>)
    requires |s| > 0
    ensures forall k :: 0 <= k < |s| ==> s[k] <= MaxOf(s)
    ensures MaxOf(s) in s
  {
    if |s| > 1 {
      MaxOfIsMax(s[1..]);
      assert forall k :: 1 <= k < |s| ==> s[k] == s[1..][k - 1];
    }
  }

  /** MinOf is a lower bound of the values and one of them. */
  lemma {:induction false} MinOfIsMin(s: seq<real>)
    requires |s| > 0
    ensures forall k :: 0 <= k < |s| ==> MinOf(s) <= s[k]
    ensures MinOf(s) in s
  {
    if |s| > 1 {
      MinOfIsMin(s[1..]);
      assert forall k :: 1 <= k < |s| ==> s[k] == s[1..][k - 1];
    }
  }

  // ---------------------------------------------------------------- trailing windows

  function WindowStart(i: nat, w: nat): (r: nat)
    requires w >= 1
    ensures r <= i && i + 1 - r <= w
    ensures i + 1 >= w ==> i + 1 - r == w
  {
    if i + 1 >= w then i + 1 - w else 0
  }

  /** The bars `rolling(window=w, min_periods=1)` aggregates at bar i. */
  function Window(xs: seq<real>, w: nat, i: nat): (r: seq<real>)
    requires w >= 1 && i < |xs|
    ensures 1 <= |r| <= w && r[|r| - 1] == xs[i]
  {
    xs[WindowStart(i, w)..i + 1]
  }

  function RollingMean(xs: seq<real>, w: nat, i: nat): real
    requires w >= 1 && i < |xs|
  {
    Mean(Window(xs, w, i))
  }

  function RollingMax(xs: seq<real>, w: nat, i: nat): real
    requires w >= 1 && i < |xs|
  {
    MaxOf(Window(xs, w, i))
  }

  function RollingMin(xs: seq<real>, w: nat, i: nat): real
    requires w >= 1 && i < |xs|
  {
    MinOf(Window(xs, w, i))
  }

  /** Whole rolling columns. */
  function RollingMeans(xs: seq<real>, w: nat): (r: seq<real>)
    requires w >= 1
    ensures |r| == |xs| && forall i {:trigger r[i]} :: 0 <= i < |xs| ==> r[i] == RollingMean(xs, w, i)
  {
    seq(|xs|, i requires 0 <= i < |xs| => RollingMean(xs, w, i))
  }

  function RollingMaxes(xs: seq<real>, w: nat): (r: seq<real>)
    requires w >= 1
    ensures |r| == |xs| && forall i {:trigger r[i]} :: 0 <= i < |xs| ==> r[i] == RollingMax(xs, w, i)
  {
    seq(|xs|, i requires 0 <= i < |xs| => RollingMax(xs, w, i))
  }

  function RollingMins(xs: seq<real>, w: nat): (r: seq<real>)
    requires w >= 1
    ensures |r| == |xs| && forall i {:trigger r[i]} :: 0 <= i < |xs| ==> r[i] == RollingMin(xs, w, i)
  {
    seq(|xs|, i requires 0 <= i < |xs| => RollingMin(xs, w, i))
  }

  /** Rolling values at bar i are fixed by bars 0..i alone: two columns that agree up
      to bar i give the same mean, maximum and minimum there. */
  lemma RollingIsTrailing(xs: seq<real>, ys: seq<real>, w: nat, i: nat)
    requires w >= 1 && i < |xs| && i < |ys|
    requires xs[..i + 1] == ys[..i + 1]
    ensures Window(xs, w, i) == Window(ys, w, i)
    ensures RollingMean(xs, w, i) == RollingMean(ys, w, i)
    ensures RollingMax(xs, w, i) == RollingMax(ys, w, i)
    ensures RollingMin(xs, w, i) == RollingMin(ys, w, i)
  {
    var a := WindowStart(i, w);
    assert Window(xs, w, i) == xs[..i + 1][a..];
    assert Window(ys, w, i) == ys[..i + 1][a..];
  }

  /** Every rolling maximum (minimum) is at least (at most) the bar's own value. */
  lemma RollingIncludesCurrent(xs: seq<real>, w: nat, i: nat)
    requires w >= 1 && i < |xs|
    ensures RollingMin(xs, w, i) <= xs[i] <= RollingMax(xs, w, i)
  {
    var win := Window(xs, w, i);
    MaxOfIsMax(win);
    MinOfIsMin(win);
    assert win[|win| - 1] == xs[i];
  }

  /** The column `xs.rolling(window=w, min_periods=1).mean()`, computed the way the
      rolling kernel does: a running window sum that adds the new bar and drops the
      bar that leaves the window. */
  method RollingMeanColumn(xs: seq<real>, w: nat) returns (r: seq<real>)
    requires w >= 1
    ensures r == RollingMeans(xs, w)
  {
    var n := |xs|;
    var col := new real[n];
    var sum := 0.0;
    for i := 0 to n
      invariant i == 0 ==> sum == 0.0
      invariant i > 0 ==> sum == Sum(Window(xs, w, i - 1))
      invariant forall k :: 0 <= k < i ==> col[k] == RollingMean(xs, w, k)
    {
      ghost var prev := if i == 0 then 0 else WindowStart(i - 1, w);
      assert sum == Sum(xs[prev..i]) by {
        if i == 0 { assert xs[prev..i] == []; }
      }
      assert xs[prev..i + 1][..i - prev] == xs[prev..i];
      sum := sum + xs[i];
      assert sum == Sum(xs[prev..i + 1]);
      if i >= w {
        assert prev == i - w;
        SumDropFirst(xs[prev..i + 1]);
        assert xs[prev..i + 1][1..] == xs[prev + 1..i + 1];
        sum := sum - xs[i - w];
      }
      assert sum == Sum(Window(xs, w, i));
      col[i] := sum / (i + 1 - WindowStart(i, w)) as real;
    }
    r := col[..];
  }

  /** The column `xs.rolling(window=w, min_periods=1).max()`. */
  method RollingMaxColumn(xs: seq<real>, w: nat) returns (r: seq<real>)
    requires w >= 1
    ensures r == RollingMaxes(xs, w)
  {
    var col := new real[|xs|];
    for i := 0 to |xs|
      invariant forall k :: 0 <= k < i ==> col[k] == RollingMax(xs, w, k)
    {
      col[i] := MaxOf(xs[WindowStart(i, w)..i + 1]);
    }
    r := col[..];
  }

  /** The column `xs.rolling(window=w, min_periods=1).min()`. */
  method RollingMinColumn(xs: seq<real>, w: nat) returns (r: seq<real>)
    requires w >= 1
    ensures r == RollingMins(xs, w)
  {
    var col := new real[|xs|];
    for i := 0 to |xs|
      invariant forall k :: 0 <= k < i ==> col[k] == RollingMin(xs, w, k)
    {
      col[i] := MinOf(xs[WindowStart(i, w)..i + 1]);
    }
    r := col[..];
  }

  // ---------------------------------------------------------------- crossings and bands

  /** `x > y & x.shift(1) <= y.shift(1)`: x crosses above y at bar i; at bar 0 the
      shifted values are NaN and the comparison is false. */
  function CrossAbove(x: seq<real>, y: seq<real>): (r: seq<bool>)
    requires |x| == |y|
    ensures |r| == |x|
    ensures forall i {:trigger r[i]} :: 0 <= i < |x| ==> (r[i] <==> i > 0 && x[i] > y[i] && x[i - 1] <= y[i - 1])
  {
    seq(|x|, i requires 0 <= i < |x| => i > 0 && x[i] > y[i] && x[i - 1] <= y[i - 1])
  }

  /** `x < y & x.shift(1) >= y.shift(1)`: x crosses below y at bar i. */
  function CrossBelow(x: seq<real>, y: seq<real>): (r: seq<bool>)
    requires |x| == |y|
    ensures |r| == |x|
    ensures forall i {:trigger r[i]} :: 0 <= i < |x| ==> (r[i] <==> i > 0 && x[i] < y[i] && x[i - 1] >= y[i - 1])
  {
    seq(|x|, i requires 0 <= i < |x| => i > 0 && x[i] < y[i] && x[i - 1] >= y[i - 1])
  }

  /** A column can not cross above and below another on the same bar, and never
      crosses at bar 0. */
  lemma CrossingsExclusive(x: seq<real>, y: seq<real>, i: nat)
    requires |x| == |y| && i < |x|
    ensures !(CrossAbove(x, y)[i] && CrossBelow(x, y)[i])
    ensures i == 0 ==> !CrossAbove(x, y)[i] && !CrossBelow(x, y)[i]
  {
  }

  /** A crossing at bar i is decided by bars i-1 and i alone. */
  lemma CrossingIsLocal(x: seq<real>, y: seq<real>, x2: seq<real>, y2: seq<real>, i: nat)
    requires |x| == |y| && |x2| == |y2| && i < |x| && i < |x2|
    requires x[i] == x2[i] && y[i] == y2[i]
    requires i > 0 ==> x[i - 1] == x2[i - 1] && y[i - 1] == y2[i - 1]
    ensures CrossAbove(x, y)[i] == CrossAbove(x2, y2)[i]
    ensures CrossBelow(x, y)[i] == CrossBelow(x2, y2)[i]
  {
  }

  /** Crossings up to bar i are fixed by both columns up to bar i. */
  lemma CrossingsAreTrailing(x: seq<real>, y: seq<real>, x2: seq<real>, y2: seq<real>, i: nat)
    requires |x| == |y| && |x2| == |y2| && i < |x| && i < |x2|
    requires forall k :: 0 <= k <= i ==> x[k] == x2[k] && y[k] == y2[k]
    ensures forall k :: 0 <= k <= i ==> CrossAbove(x, y)[k] == CrossAbove(x2, y2)[k]
    ensures forall k :: 0 <= k <= i ==> CrossBelow(x, y)[k] == CrossBelow(x2, y2)[k]
  {
  }

  /** The column `center + width * m` (a negative m gives `center - width * |m|`). */
  function Band(center: seq<real>, width: seq<real>, m: real): (r: seq<real>)
    requires |center| == |width|
    ensures |r| == |center| && forall i {:trigger r[i]} :: 0 <= i < |center| ==> r[i] == center[i] + width[i] * m
  {
    seq(|center|, i requires 0 <= i < |center| => center[i] + width[i] * m)
  }

  /** A band at bar i depends on its centre and width at bar i only. */
  lemma BandIsLocal(center: seq<real>, width: seq<real>, center2: seq<real>, width2: seq<real>, m: real, i: nat)
    requires |center| == |width| && |center2| == |width2| && i < |center| && i < |center2|
    requires center[i] == center2[i] && width[i] == width2[i]
    ensures Band(center, width, m)[i] == Band(center2, width2, m)[i]
  {
  }

  /** A non-negative width widens the band away from its centre: upwards for a
      non-negative multiplier, downwards for a non-positive one. */
  lemma BandSide(center: seq<real>, width: seq<real>, m: real, i: nat)
    requires |center| == |width| && i < |center| && width[i] >= 0.0
    ensures m >= 0.0 ==> Band(center, width, m)[i] >= center[i]
    ensures m <= 0.0 ==> Band(center, width, m)[i] <= center[i]
  {
    var r := width[i] * m;
    if m >= 0.0 { assert r >= 0.0; } else { assert r <= 0.0; }
  }

  /** `x > c` against a scalar. */
  function Above(x: seq<real>, c: real): (r: seq<bool>)
    ensures |r| == |x| && forall i {:trigger r[i]} :: 0 <= i < |x| ==> (r[i] <==> x[i] > c)
  {
    seq(|x|, i requires 0 <= i < |x| => x[i] > c)
  }

  /** `x < c` against a scalar. */
  function Under(x: seq<real>, c: real): (r: seq<bool>)
    ensures |r| == |x| && forall i {:trigger r[i]} :: 0 <= i < |x| ==> (r[i] <==> x[i] < c)
  {
    seq(|x|, i requires 0 <= i < |x| => x[i] < c)
  }

  /** `a & b` on masks. */
  function And(a: seq<bool>, b: seq<bool>): (r: seq<bool>)
    requires |a| == |b|
    ensures |r| == |a| && forall i {:trigger r[i]} :: 0 <= i < |a| ==> (r[i] <==> a[i] && b[i])
  {
    seq(|a|, i requires 0 <= i < |a| => a[i] && b[i])
  }

  /** `a | b` on masks. */
  function Or(a: seq<bool>, b: seq<bool>): (r: seq<bool>)
    requires |a| == |b|
    ensures |r| == |a| && forall i {:trigger r[i]} :: 0 <= i < |a| ==> (r[i] <==> a[i] || b[i])
  {
    seq(|a|, i requires 0 <= i < |a| => a[i] || b[i])
  }

  /** A column holding c on every bar (a scalar in a comparison). */
  function Constant(n: nat, c: real): (r: seq<real>)
    ensures |r| == n && forall i {:trigger r[i]} :: 0 <= i < n ==> r[i] == c
  {
    seq(n, _ => c)
  }

  // ---------------------------------------------------------------- columns with NaN

  /** Σ (x - m)² over the values. */
  function SumSquares(s: seq<real>, m: real): real {
    if s == [] then 0.0 else SumSquares(s[..|s| - 1], m) + (s[|s| - 1] - m) * (s[|s| - 1] - m)
  }

  lemma {:induction false} SumSquaresNonNegative(s: seq<real>, m: real)
    ensures SumSquares(s, m) >= 0.0
  {
    if s != [] {
      SumSquaresNonNegative(s[..|s| - 1], m);
      var d := s[|s| - 1] - m;
      assert d * d >= 0.0;
    }
  }

  /** The sample variance (ddof = 1) of at least two values. */
  function SampleVariance(s: seq<real>): real
    requires |s| >= 2
  {
    SumSquares(s, Mean(s)) / (|s| - 1) as real
  }

  lemma SampleVarianceNonNegative(s: seq<real>)
    requires |s| >= 2
    ensures SampleVariance(s) >= 0.0
  {
    SumSquaresNonNegative(s, Mean(s));
  }

  /** The square root the model is given: it maps non-negative values to
      non-negative values. */
  ghost predicate NonNegativeRoot(sqrt: real -> real) {
    forall v :: 0.0 <= v ==> 0.0 <= sqrt(v)
  }

  /** `rolling(window=w, min_periods=1).std()`: the sample standard deviation of the
      window, NaN (None) while the window holds a single bar. */
  function RollingStd(xs: seq<real>, w: nat, i: nat, sqrt: real -> real): Option<real>
    requires w >= 1 && i < |xs|
  {
    var win := Window(xs, w, i);
    if |win| < 2 then None else Some(sqrt(SampleVariance(win)))
  }

  function RollingStds(xs: seq<real>, w: nat, sqrt: real -> real): (r: seq<Option<real>>)
    requires w >= 1
    ensures |r| == |xs| && forall i {:trigger r[i]} :: 0 <= i < |xs| ==> r[i] == RollingStd(xs, w, i, sqrt)
  {
    seq(|xs|, i requires 0 <= i < |xs| => RollingStd(xs, w, i, sqrt))
  }

  /** The rolling standard deviation is missing exactly at the bars whose window
      holds one bar: bar 0 always, and every bar when w is 1; it is never negative. */
  lemma RollingStdShape(xs: seq<real>, w: nat, i: nat, sqrt: real -> real)
    requires w >= 1 && i < |xs| && NonNegativeRoot(sqrt)
    ensures RollingStd(xs, w, i, sqrt).None? <==> i == 0 || w == 1
    ensures RollingStd(xs, w, i, sqrt).Some? ==> RollingStd(xs, w, i, sqrt).value >= 0.0
  {
    var win := Window(xs, w, i);
    assert |win| == i + 1 - WindowStart(i, w);
    if |win| >= 2 {
      SampleVarianceNonNegative(win);
    }
  }

  lemma RollingStdsNonNegative(xs: seq<real>, w: nat, sqrt: real -> real)
    requires w >= 1 && NonNegativeRoot(sqrt)
    ensures forall i :: 0 <= i < |xs| ==> RollingStds(xs, w, sqrt)[i].None? || RollingStds(xs, w, sqrt)[i].value >= 0.0
  {
    forall i | 0 <= i < |xs|
      ensures RollingStds(xs, w, sqrt)[i].None? || RollingStds(xs, w, sqrt)[i].value >= 0.0
    {
      RollingStdShape(xs, w, i, sqrt);
    }
  }

  /** Σ (x - m)², accumulated left to right. */
  method SumSquaresOf(s: seq<real>, m: real) returns (r: real)
    ensures r == SumSquares(s, m)
  {
    r := 0.0;
    for j := 0 to |s|
      invariant r == SumSquares(s[..j], m)
    {
      assert s[..j + 1][..j] == s[..j];
      r := r + (s[j] - m) * (s[j] - m);
    }
    assert s[..|s|] == s;
  }

  /** The column `xs.rolling(window=w, min_periods=1).std()`: per bar, the window's
      mean and then its sum of squared deviations. */
  method RollingStdColumn(xs: seq<real>, w: nat, sqrt: real -> real) returns (r: seq<Option<real>>)
    requires w >= 1
    ensures r == RollingStds(xs, w, sqrt)
  {
    var col := new Option<real>[|xs|];
    for i := 0 to |xs|
      invariant forall k :: 0 <= k < i ==> col[k] == RollingStd(xs, w, k, sqrt)
    {
      var win := xs[WindowStart(i, w)..i + 1];
      if |win| < 2 {
        col[i] := None;
      } else {
        var squares := SumSquaresOf(win, Mean(win));
        col[i] := Some(sqrt(squares / (|win| - 1) as real));
      }
    }
    r := col[..];
  }

  /** The rolling standard deviation at bar i is fixed by bars 0..i. */
  lemma RollingStdIsTrailing(xs: seq<real>, ys: seq<real>, w: nat, i: nat, sqrt: real -> real)
    requires w >= 1 && i < |xs| && i < |ys|
    requires xs[..i + 1] == ys[..i + 1]
    ensures RollingStd(xs, w, i, sqrt) == RollingStd(ys, w, i, sqrt)
  {
    RollingIsTrailing(xs, ys, w, i);
  }

  /** `center + width * m` where the width may be NaN, which makes the band NaN. */
  function BandCell(center: real, width: Option<real>, m: real): Option<real> {
    if width.Some? then Some(center + width.value * m) else None
  }

  function OptBand(center: seq<real>, width: seq<Option<real>>, m: real): (r: seq<Option<real>>)
    requires |center| == |width|
    ensures |r| == |center| && forall i {:trigger r[i]} :: 0 <= i < |center| ==>
      r[i] == BandCell(center[i], width[i], m)
  {
    seq(|center|, i requires 0 <= i < |center| => BandCell(center[i], width[i], m))
  }

  /** A non-negative width widens the band away from its centre. */
  lemma OptBandSide(center: seq<real>, width: seq<Option<real>>, m: real, i: nat)
    requires |center| == |width| && i < |center| && width[i].Some? && width[i].value >= 0.0
    ensures m >= 0.0 ==> OptBand(center, width, m)[i].value >= center[i]
    ensures m <= 0.0 ==> OptBand(center, width, m)[i].value <= center[i]
  {
    var r := width[i].value * m;
    if m >= 0.0 { assert r >= 0.0; } else { assert r <= 0.0; }
  }

  /** With a non-negative width, a larger multiplier gives a band at least as high. */
  lemma OptBandMonotone(center: seq<real>, width: seq<Option<real>>, m: real, m2: real, i: nat)
    requires |center| == |width| && i < |center| && width[i].Some? && width[i].value >= 0.0
    requires m <= m2
    ensures OptBand(center, width, m)[i].value <= OptBand(center, width, m2)[i].value
  {
    var d := width[i].value * (m2 - m);
    assert d >= 0.0;
    assert width[i].value * m2 == width[i].value * m + d;
  }

  lemma OptBandIsLocal(center: seq<real>, width: seq<Option<real>>, center2: seq<real>, width2: seq<Option<real>>,
                       m: real, i: nat)
    requires |center| == |width| && |center2| == |width2| && i < |center| && i < |center2|
    requires center[i] == center2[i] && width[i] == width2[i]
    ensures OptBand(center, width, m)[i] == OptBand(center2, width2, m)[i]
  {
  }

  /** x crosses above y at bar i; a comparison with NaN is false. */
  function OptCrossAbove(x: seq<real>, y: seq<Option<real>>): (r: seq<bool>)
    requires |x| == |y|
    ensures |r| == |x| && forall i {:trigger r[i]} :: 0 <= i < |x| ==>
      (r[i] <==> i > 0 && y[i].Some? && y[i - 1].Some? && x[i] > y[i].value && x[i - 1] <= y[i - 1].value)
  {
    seq(|x|, i requires 0 <= i < |x| =>
      i > 0 && y[i].Some? && y[i - 1].Some? && x[i] > y[i].value && x[i - 1] <= y[i - 1].value)
  }

  /** x crosses below y at bar i; a comparison with NaN is false. */
  function OptCrossBelow(x: seq<real>, y: seq<Option<real>>): (r: seq<bool>)
    requires |x| == |y|
    ensures |r| == |x| && forall i {:trigger r[i]} :: 0 <= i < |x| ==>
      (r[i] <==> i > 0 && y[i].Some? && y[i - 1].Some? && x[i] < y[i].value && x[i - 1] >= y[i - 1].value)
  {
    seq(|x|, i requires 0 <= i < |x| =>
      i > 0 && y[i].Some? && y[i - 1].Some? && x[i] < y[i].value && x[i - 1] >= y[i - 1].value)
  }

  lemma OptCrossingsAreTrailing(x: seq<real>, y: seq<Option<real>>, x2: seq<real>, y2: seq<Option<real>>, i: nat)
    requires |x| == |y| && |x2| == |y2| && i < |x| && i < |x2|
    requires forall k :: 0 <= k <= i ==> x[k] == x2[k] && y[k] == y2[k]
    ensures forall k :: 0 <= k <= i ==> OptCrossAbove(x, y)[k] == OptCrossAbove(x2, y2)[k]
    ensures forall k :: 0 <= k <= i ==> OptCrossBelow(x, y)[k] == OptCrossBelow(x2, y2)[k]
  {
  }

  /** `x > c` on a column that may hold NaN. */
  function Exceeds(x: seq<Option<real>>, c: real): (r: seq<bool>)
    ensures |r| == |x| && forall i {:trigger r[i]} :: 0 <= i < |x| ==> (r[i] <==> x[i].Some? && x[i].value > c)
  {
    seq(|x|, i requires 0 <= i < |x| => x[i].Some? && x[i].value > c)
  }

  /** `x < c` on a column that may hold NaN. */
  function FallsBelow(x: seq<Option<real>>, c: real): (r: seq<bool>)
    ensures |r| == |x| && forall i {:trigger r[i]} :: 0 <= i < |x| ==> (r[i] <==> x[i].Some? && x[i].value < c)
  {
    seq(|x|, i requires 0 <= i < |x| => x[i].Some? && x[i].value < c)
  }

  // ---------------------------------------------------------------- signal legs

  /** A leg after `df.loc[entry, col] = v` then `df.loc[exit, col] = 0`: the exit,
      written second, wins where both hold. */
  function Leg(entry: seq<bool>, exit: seq<bool>, v: real): (r: seq<Option<real>>)
    requires |entry| == |exit|
    ensures |r| == |entry|
    ensures forall i {:trigger r[i]} :: 0 <= i < |entry| ==>
      r[i] == if exit[i] then Some(0.0) else if entry[i] then Some(v) else None
  {
    seq(|entry|, i requires 0 <= i < |entry| =>
      if exit[i] then Some(0.0) else if entry[i] then Some(v) else None)
  }

  /** A long leg holds 1, 0 or nothing and a short leg -1, 0 or nothing, so the
      filled signal only takes the values -1, 0 and 1. */
  lemma LegSignalInRange(longEntry: seq<bool>, longExit: seq<bool>, shortEntry: seq<bool>, shortExit: seq<bool>)
    requires |longEntry| == |longExit| == |shortEntry| == |shortExit|
    ensures forall i :: 0 <= i < |longEntry| ==>
      SignalValue(FilledSignal(Leg(longEntry, longExit, 1.0), Leg(shortEntry, shortExit, -1.0))[i])
  {
    FilledSignalInRange(Leg(longEntry, longExit, 1.0), Leg(shortEntry, shortExit, -1.0));
  }

  /** Without any entry the legs only ever hold 0, and the filled signal is flat. */
  lemma NoEntryIsFlat(longEntry: seq<bool>, longExit: seq<bool>, shortEntry: seq<bool>, shortExit: seq<bool>)
    requires |longEntry| == |longExit| == |shortEntry| == |shortExit|
    requires forall i :: 0 <= i < |longEntry| ==> !longEntry[i] && !shortEntry[i]
    ensures forall i :: 0 <= i < |longEntry| ==>
      FilledSignal(Leg(longEntry, longExit, 1.0), Leg(shortEntry, shortExit, -1.0))[i] == 0.0
  {
    var long, short := Leg(longEntry, longExit, 1.0), Leg(shortEntry, shortExit, -1.0);
    var merged := Merged(long, short);
    forall i | 0 <= i < |longEntry| ensures FilledSignal(long, short)[i] == 0.0 {
      LastKnownZero(merged, i);
    }
  }

  /** The filled signal at bar i depends on the legs up to bar i only. */
  lemma FilledSignalIsTrailing(long: seq<Option<real>>, short: seq<Option<real>>,
                               long2: seq<Option<real>>, short2: seq<Option<real>>, i: nat)
    requires |long| == |short| && |long2| == |short2| && i < |long| && i < |long2|
    requires forall k :: 0 <= k <= i ==> long[k] == long2[k] && short[k] == short2[k]
    ensures FilledSignal(long, short)[i] == FilledSignal(long2, short2)[i]
  {
    LastKnownIsTrailing(Merged(long, short), Merged(long2, short2), i);
  }

  /** A leg up to bar i is fixed by its masks up to bar i. */
  lemma LegIsTrailing(entry: seq<bool>, exit: seq<bool>, entry2: seq<bool>, exit2: seq<bool>, v: real, i: nat)
    requires |entry| == |exit| && |entry2| == |exit2| && i < |entry| && i < |entry2|
    requires forall k :: 0 <= k <= i ==> entry[k] == entry2[k] && exit[k] == exit2[k]
    ensures forall k :: 0 <= k <= i ==> Leg(entry, exit, v)[k] == Leg(entry2, exit2, v)[k]
  {
  }

  /** A leg after a further `df.loc[mask, col] = 0`: the mask closes the leg. */
  function ForceFlat(leg: seq<Option<real>>, mask: seq<bool>): (r: seq<Option<real>>)
    requires |leg| == |mask|
    ensures |r| == |leg| && forall i {:trigger r[i]} :: 0 <= i < |leg| ==>
      r[i] == if mask[i] then Some(0.0) else leg[i]
  {
    seq(|leg|, i requires 0 <= i < |leg| => if mask[i] then Some(0.0) else leg[i])
  }

  /** Forced closes only write 0, so the filled signal stays within -1, 0 and 1. */
  lemma ForcedLegSignalInRange(longEntry: seq<bool>, longExit: seq<bool>, longClose: seq<bool>,
                               shortEntry: seq<bool>, shortExit: seq<bool>, shortClose: seq<bool>)
    requires |longEntry| == |longExit| == |longClose| == |shortEntry| == |shortExit| == |shortClose|
    ensures forall i :: 0 <= i < |longEntry| ==>
      SignalValue(FilledSignal(ForceFlat(Leg(longEntry, longExit, 1.0), longClose),
                               ForceFlat(Leg(shortEntry, shortExit, -1.0), shortClose))[i])
  {
    FilledSignalInRange(ForceFlat(Leg(longEntry, longExit, 1.0), longClose),
                        ForceFlat(Leg(shortEntry, shortExit, -1.0), shortClose));
  }

  lemma ForceFlatIsTrailing(leg: seq<Option<real>>, mask: seq<bool>, leg2: seq<Option<real>>, mask2: seq<bool>, i: nat)
    requires |leg| == |mask| && |leg2| == |mask2| && i < |leg| && i < |leg2|
    requires forall k :: 0 <= k <= i ==> leg[k] == leg2[k] && mask[k] == mask2[k]
    ensures forall k :: 0 <= k <= i ==> ForceFlat(leg, mask)[k] == ForceFlat(leg2, mask2)[k]
  {
  }

  /** `df.loc[mask, col] = v`: rows where the mask holds take v, the others keep what
      they held, so a later assignment overrides an earlier one on the rows both hit. */
  method LocAssign(col: array<Option<real>>, mask: seq<bool>, v: real)
    requires |mask| == col.Length
    modifies col
    ensures forall i :: 0 <= i < col.Length ==> col[i] == if mask[i] then Some(v) else old(col[i])
  {
    for i := 0 to col.Length
      invariant forall k :: 0 <= k < i ==> col[k] == if mask[k] then Some(v) else old(col[k])
      invariant forall k :: i <= k < col.Length ==> col[k] == old(col[k])
    {
      if mask[i] {
        col[i] := Some(v);
      }
    }
  }

  /** A fresh all-missing column after `df.loc[entry, col] = v` and then
      `df.loc[exit, col] = 0`. */
  method LegColumn(entry: seq<bool>, exit: seq<bool>, v: real) returns (col: array<Option<real>>)
    requires |entry| == |exit|
    ensures fresh(col) && col[..] == Leg(entry, exit, v)
  {
    col := new Option<real>[|entry|](_ => None);
    LocAssign(col, entry, v);
    LocAssign(col, exit, 0.0);
    assert col[..] == Leg(entry, exit, v);
  }

  /** One row of `df[[a, b]].sum(axis=1, min_count=1, skipna=True)`: missing iff both
      cells are missing, otherwise the sum of the cells present. */
  function MergeCell(a: Option<real>, b: Option<real>): (r: Option<real>)
    ensures r.None? <==> a.None? && b.None?
    ensures a.Some? && b.Some? ==> r == Some(a.value + b.value)
    ensures a.Some? && b.None? ==> r == a
    ensures a.None? && b.Some? ==> r == b
  {
    match (a, b)
    case (None, None) => None
    case (Some(x), None) => Some(x)
    case (None, Some(y)) => Some(y)
    case (Some(x), Some(y)) => Some(x + y)
  }

  /** A long leg holds 1 or 0, a short leg -1 or 0; both may be missing. */
  predicate LongCell(c: Option<real>) { c.None? || c.value == 1.0 || c.value == 0.0 }
  predicate ShortCell(c: Option<real>) { c.None? || c.value == -1.0 || c.value == 0.0 }
  predicate SignalValue(x: real) { x == -1.0 || x == 0.0 || x == 1.0 }

  /** Merging a long and a short cell never leaves {-1, 0, 1}. */
  lemma MergeInRange(a: Option<real>, b: Option<real>)
    requires LongCell(a) && ShortCell(b)
    ensures MergeCell(a, b).Some? ==> SignalValue(MergeCell(a, b).value)
  {
  }

  function Merged(long: seq<Option<real>>, short: seq<Option<real>>): (r: seq<Option<real>>)
    requires |long| == |short|
    ensures |r| == |long|
    ensures forall i {:trigger r[i]} :: 0 <= i < |r| ==> r[i] == MergeCell(long[i], short[i])
  {
    seq(|long|, i requires 0 <= i < |long| => MergeCell(long[i], short[i]))
  }

  // ---------------------------------------------------------------- forward fill

  /** The value `fillna(method='ffill')` then `fillna(0)` leaves at row i: the latest
      non-missing value at or before i, or 0 when there is none. */
  function LastKnown(s: seq<Option<real>>, i: int): real
    requires i < |s|
    decreases i
  {
    if i < 0 then 0.0
    else if s[i].Some? then s[i].value
    else LastKnown(s, i - 1)
  }

  /** The filled value is 0 with nothing present up to i, or it is the cell at
      some j <= i with nothing present strictly between j and i. */
  lemma {:induction false} LastKnownSource(s: seq<Option<real>>, i: int)
    requires i < |s|
    ensures (LastKnown(s, i) == 0.0 && forall k :: 0 <= k <= i ==> s[k].None?)
         || (exists j :: 0 <= j <= i && s[j] == Some(LastKnown(s, i))
                         && forall k :: j < k <= i ==> s[k].None?)
  {
    if i >= 0 && s[i].None? {
      LastKnownSource(s, i - 1);
    } else if i >= 0 {
      assert s[i] == Some(LastKnown(s, i));
    }
  }

  /** Every filled value is one of the present cells or the initial 0. */
  lemma {:induction false} LastKnownValues(s: seq<Option<real>>, i: int)
    requires i < |s|
    requires forall k :: 0 <= k < |s| && s[k].Some? ==> SignalValue(s[k].value)
    ensures SignalValue(LastKnown(s, i))
  {
    if i >= 0 && s[i].None? { LastKnownValues(s, i - 1); }
  }

  /** When every present cell is 0, every filled value is 0. */
  lemma {:induction false} LastKnownZero(s: seq<Option<real>>, i: int)
    requires i < |s|
    requires forall k :: 0 <= k < |s| && s[k].Some? ==> s[k].value == 0.0
    ensures LastKnown(s, i) == 0.0
  {
    if i >= 0 && s[i].None? { LastKnownZero(s, i - 1); }
  }

  /** A fill is determined by the cells up to i. */
  lemma {:induction false} LastKnownIsTrailing(s: seq<Option<real>>, t: seq<Option<real>>, i: int)
    requires i < |s| && i < |t|
    requires forall k :: 0 <= k <= i ==> s[k] == t[k]
    ensures LastKnown(s, i) == LastKnown(t, i)
  {
    if i >= 0 { LastKnownIsTrailing(s, t, i - 1); }
  }

  /** `col.fillna(method='ffill', inplace=True)` followed by `col.fillna(value=0,
      inplace=True)`: two passes over the column, in place. */
  method FillForward(col: array<Option<real>>)
    modifies col
    ensures forall i :: 0 <= i < col.Length ==> col[i] == Some(LastKnown(old(col[..]), i))
  {
    ghost var orig := col[..];
    var last: Option<real> := None;
    for i := 0 to col.Length
      invariant forall k :: i <= k < col.Length ==> col[k] == orig[k]
      invariant forall k :: 0 <= k < i ==>
        (col[k].Some? ==> col[k].value == LastKnown(orig, k)) &&
        (col[k].None? ==> forall m :: 0 <= m <= k ==> orig[m].None?)
      invariant i == 0 ==> last.None?
      invariant i > 0 ==> last == col[i - 1]
    {
      if col[i].None? && last.Some? {
        col[i] := last;
      }
      last := col[i];
    }
    for i := 0 to col.Length
      invariant forall k :: 0 <= k < i ==> col[k] == Some(LastKnown(orig, k))
      invariant forall k :: i <= k < col.Length ==>
        (col[k].Some? ==> col[k].value == LastKnown(orig, k)) &&
        (col[k].None? ==> forall m :: 0 <= m <= k ==> orig[m].None?)
    {
      if col[i].None? {
        NothingKnown(orig, i);
        col[i] := Some(0.0);
      }
    }
  }

  lemma {:induction false} NothingKnown(s: seq<Option<real>>, i: int)
    requires i < |s|
    requires forall m :: 0 <= m <= i ==> s[m].None?
    ensures LastKnown(s, i) == 0.0
  {
    if i >= 0 { NothingKnown(s, i - 1); }
  }

  /** `df['signal'] * proportion`. */
  function Scaled(s: seq<real>, proportion: real): (r: seq<real>)
    ensures |r| == |s|
    ensures forall i {:trigger r[i]} :: 0 <= i < |s| ==> r[i] == s[i] * proportion
  {
    seq(|s|, i requires 0 <= i < |s| => s[i] * proportion)
  }

  /** The values of an all-present column. */
  function Values(s: seq<Option<real>>): (r: seq<real>)
    requires forall i :: 0 <= i < |s| ==> s[i].Some?
    ensures |r| == |s| && forall i {:trigger r[i]} :: 0 <= i < |s| ==> Some(r[i]) == s[i]
  {
    seq(|s|, i requires 0 <= i < |s| => s[i].value)
  }

  /** Python `int(x)` on a float: truncation toward zero. */
  function Trunc(x: real): (r: int)
    ensures x >= 0.0 ==> 0 <= r && r as real <= x < r as real + 1.0
    ensures x < 0.0 ==> r <= 0 && r as real - 1.0 < x <= r as real
  {
    if x >= 0.0 then x.Floor else -((-x).Floor)
  }

  // ---------------------------------------------------------------- bars and the signal tail

  /** One row of the candle frame the factors read. */
  datatype Bar = Bar(open: real, high: real, low: real, close: real, volume: real)

  /** low <= close <= high: the shape of an exchange candle. */
  predicate WellFormed(bars: seq<Bar>) {
    forall i :: 0 <= i < |bars| ==> bars[i].low <= bars[i].close <= bars[i].high
  }

  function Highs(bars: seq<Bar>): (r: seq<real>)
    ensures |r| == |bars| && forall i {:trigger r[i]} :: 0 <= i < |bars| ==> r[i] == bars[i].high
  {
    seq(|bars|, i requires 0 <= i < |bars| => bars[i].high)
  }

  function Lows(bars: seq<Bar>): (r: seq<real>)
    ensures |r| == |bars| && forall i {:trigger r[i]} :: 0 <= i < |bars| ==> r[i] == bars[i].low
  {
    seq(|bars|, i requires 0 <= i < |bars| => bars[i].low)
  }

  function Closes(bars: seq<Bar>): (r: seq<real>)
    ensures |r| == |bars| && forall i {:trigger r[i]} :: 0 <= i < |bars| ==> r[i] == bars[i].close
  {
    seq(|bars|, i requires 0 <= i < |bars| => bars[i].close)
  }

  /** The filled signal column of the specification: at each bar, the latest merged
      value at or before it, 0 before the first one. */
  function FilledSignal(long: seq<Option<real>>, short: seq<Option<real>>): (r: seq<real>)
    requires |long| == |short|
    ensures |r| == |long|
  {
    var merged := Merged(long, short);
    seq(|long|, i requires 0 <= i < |long| => LastKnown(merged, i))
  }

  /** With legs in range, every filled signal value is -1, 0 or 1. */
  lemma FilledSignalInRange(long: seq<Option<real>>, short: seq<Option<real>>)
    requires |long| == |short|
    requires forall i :: 0 <= i < |long| ==> LongCell(long[i]) && ShortCell(short[i])
    ensures forall i :: 0 <= i < |long| ==> SignalValue(FilledSignal(long, short)[i])
  {
    var merged := Merged(long, short);
    forall k | 0 <= k < |merged| && merged[k].Some? ensures SignalValue(merged[k].value) {
      MergeInRange(long[k], short[k]);
    }
    forall i | 0 <= i < |long| ensures SignalValue(FilledSignal(long, short)[i]) {
      LastKnownValues(merged, i);
    }
  }

  /** The last three statements of every factor: merge the legs into `signal`, forward
      fill it in place with an initial 0, and set `pos = signal * proportion` on the
      same bar. */
  method FinishSignal(long: array<Option<real>>, short: array<Option<real>>, proportion: real)
    returns (signal: seq<real>, pos: seq<real>)
    requires long.Length == short.Length
    ensures signal == FilledSignal(long[..], short[..])
    ensures pos == Scaled(signal, proportion)
  {
    var n := long.Length;
    var col := new Option<real>[n];
    for i := 0 to n
      invariant forall k :: 0 <= k < i ==> col[k] == MergeCell(long[k], short[k])
    {
      col[i] := MergeCell(long[i], short[i]);
    }
    ghost var merged := col[..];
    assert merged == Merged(long[..], short[..]);
    FillForward(col);
    signal := Values(col[..]);
    pos := Scaled(signal, proportion);
  }
}
