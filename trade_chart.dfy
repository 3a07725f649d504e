/** The trade analysis chart (frontend/src/components/Charts/TradeAnalysisChart.tsx): trades
    in time order, then winning and losing bars, a volume bar per calendar day, or the
    running profit curve. `time` is the instant `new Date(timestamp)` denotes. */
module TradeChart {
  import opened Wrappers
  import opened Strs
  import opened Seqs
  import opened Sorting

  datatype TradeRecord = TradeRecord(timestamp: string, time: int, pnl: real, quantity: real, price: real)

  const Green := "#00ff88"
  const Red := "#ff4757"

  // ---------------------------------------------------------------- time order

  predicate TimeLe(a: TradeRecord, b: TradeRecord) {
    a.time <= b.time
  }

  lemma TimeLeIsPreorder()
    ensures TotalPreorder(TimeLe)
  {
  }

  /** `[...data].sort((a, b) => time(a) - time(b))`: the same trades, earliest first. */
  function SortedTrades(data: seq<TradeRecord>): (r: seq<TradeRecord>)
    ensures multiset(r) == multiset(data)
    ensures forall i, j :: 0 <= i < j < |r| ==> r[i].time <= r[j].time
  {
    TimeLeIsPreorder();
    SortBy(data, TimeLe)
  }

  // ---------------------------------------------------------------- profit bars

  predicate IsWin(t: TradeRecord) { t.pnl > 0.0 }
  predicate IsLoss(t: TradeRecord) { t.pnl < 0.0 }
  predicate IsFlat(t: TradeRecord) { t.pnl == 0.0 }
  predicate IsNotWin(t: TradeRecord) { !IsWin(t) }
  predicate IsNotLoss(t: TradeRecord) { !IsLoss(t) }

  /** Bars numbered 1, 2, … over the trades that pass `side`, in time order. */
  function Bars(sorted: seq<TradeRecord>, side: TradeRecord -> bool): (bars: seq<(nat, real)>)
    ensures |bars| == |Filter(sorted, side)|
    ensures forall i :: 0 <= i < |bars| ==> bars[i].0 == i + 1 && side(Filter(sorted, side)[i])
    ensures forall i :: 0 <= i < |bars| ==> bars[i].1 == Filter(sorted, side)[i].pnl
  {
    var picked := Filter(sorted, side);
    seq(|picked|, i requires 0 <= i < |picked| => (i + 1, picked[i].pnl))
  }

  /** Every trade is a winning bar, a losing bar, or (break-even) neither. */
  lemma BarsCoverTrades(sorted: seq<TradeRecord>)
    ensures |Bars(sorted, IsWin)| + |Bars(sorted, IsLoss)| + |Filter(sorted, IsFlat)| == |sorted|
    ensures forall i :: 0 <= i < |Bars(sorted, IsWin)| ==> Bars(sorted, IsWin)[i].1 > 0.0
    ensures forall i :: 0 <= i < |Bars(sorted, IsLoss)| ==> Bars(sorted, IsLoss)[i].1 < 0.0
  {
    FilterPartition(sorted, IsWin, IsNotWin);
    var rest := Filter(sorted, IsNotWin);
    FilterPartition(rest, IsLoss, IsNotLoss);
    FilterFilter(sorted, IsNotWin, IsLoss, IsLoss);
    FilterFilter(sorted, IsNotWin, IsNotLoss, IsFlat);
  }

  // ---------------------------------------------------------------- daily volume

  datatype DayVolume = DayVolume(date: string, volume: real, count: nat)

  /** `trade.timestamp.split('T')[0]`. */
  function DateOf(t: TradeRecord): string {
    Before(t.timestamp, 'T')
  }

  function Notional(t: TradeRecord): real {
    t.quantity * t.price
  }

  function DateColumn(ts: seq<TradeRecord>): (c: seq<string>)
    ensures |c| == |ts| && forall i :: 0 <= i < |ts| ==> c[i] == DateOf(ts[i])
  {
    seq(|ts|, i requires 0 <= i < |ts| => DateOf(ts[i]))
  }

  function VolumeOf(ts: seq<TradeRecord>): real {
    if ts == [] then 0.0 else VolumeOf(ts[..|ts| - 1]) + Notional(ts[|ts| - 1])
  }

  /** The number of trades on day `d`. */
  function CountOn(ts: seq<TradeRecord>, d: string): nat {
    if ts == [] then 0 else CountOn(ts[..|ts| - 1], d) + (if DateOf(ts[|ts| - 1]) == d then 1 else 0)
  }

  /** The traded value (quantity times price) on day `d`. */
  function VolumeOn(ts: seq<TradeRecord>, d: string): real {
    if ts == [] then 0.0 else VolumeOn(ts[..|ts| - 1], d) + (if DateOf(ts[|ts| - 1]) == d then Notional(ts[|ts| - 1]) else 0.0)
  }

  function DaySummary(ts: seq<TradeRecord>, d: string): DayVolume {
    DayVolume(d, VolumeOn(ts, d), CountOn(ts, d))
  }

  /** The days that have trades, each once, in the order they first occur: the keys of
      `acc` in insertion order. */
  function Dates(ts: seq<TradeRecord>): seq<string> {
    if ts == [] then []
    else
      var ds := Dates(ts[..|ts| - 1]);
      if DateOf(ts[|ts| - 1]) in ds then ds else ds + [DateOf(ts[|ts| - 1])]
  }

  /** No day is listed twice, and a day is listed exactly when some trade falls on it. */
  lemma {:induction false} DatesOfTrades(ts: seq<TradeRecord>)
    ensures Distinct(Dates(ts))
    ensures forall d :: d in Dates(ts) <==> d in DateColumn(ts)
  {
    if ts != [] {
      var init := ts[..|ts| - 1];
      DatesOfTrades(init);
      assert DateColumn(ts) == DateColumn(init) + [DateOf(ts[|ts| - 1])];
    }
  }

  function Summaries(ts: seq<TradeRecord>, ds: seq<string>): (r: seq<DayVolume>)
    ensures |r| == |ds| && forall k :: 0 <= k < |ds| ==> r[k] == DaySummary(ts, ds[k])
  {
    seq(|ds|, k requires 0 <= k < |ds| => DaySummary(ts, ds[k]))
  }

  /** One entry per trading day, in the order the days first occur. */
  function DailyVolumes(ts: seq<TradeRecord>): seq<DayVolume> {
    Summaries(ts, Dates(ts))
  }

  /** Each entry is a distinct trading day with the number and the value of its trades. */
  lemma DailyEntries(ts: seq<TradeRecord>)
    ensures forall k1, k2 :: 0 <= k1 < k2 < |DailyVolumes(ts)| ==> DailyVolumes(ts)[k1].date != DailyVolumes(ts)[k2].date
    ensures forall k :: 0 <= k < |DailyVolumes(ts)| ==>
      DailyVolumes(ts)[k].count == CountOn(ts, DailyVolumes(ts)[k].date) &&
      DailyVolumes(ts)[k].volume == VolumeOn(ts, DailyVolumes(ts)[k].date)
    ensures forall k :: 0 <= k < |DailyVolumes(ts)| ==> DailyVolumes(ts)[k].date == Dates(ts)[k]
    ensures |DailyVolumes(ts)| == |Dates(ts)|
  {
    DatesOfTrades(ts);
  }

  lemma VolumeOfSnoc(ts: seq<TradeRecord>, t: TradeRecord)
    ensures VolumeOf(ts + [t]) == VolumeOf(ts) + Notional(t)
  {
    assert (ts + [t])[..|ts|] == ts;
  }

  lemma DaySummarySnoc(s: seq<TradeRecord>, t: TradeRecord, d: string)
    ensures d == DateOf(t) ==>
      DaySummary(s + [t], d) == DayVolume(d, DaySummary(s, d).volume + Notional(t), DaySummary(s, d).count + 1)
    ensures d != DateOf(t) ==> DaySummary(s + [t], d) == DaySummary(s, d)
  {
    assert (s + [t])[..|s|] == s;
  }

  lemma DatesSnoc(s: seq<TradeRecord>, t: TradeRecord)
    ensures DateOf(t) in Dates(s) ==> Dates(s + [t]) == Dates(s)
    ensures DateOf(t) !in Dates(s) ==> Dates(s + [t]) == Dates(s) + [DateOf(t)]
  {
    assert (s + [t])[..|s|] == s;
  }

  lemma {:induction false} NoneOnDate(s: seq<TradeRecord>, d: string)
    requires d !in DateColumn(s)
    ensures CountOn(s, d) == 0 && VolumeOn(s, d) == 0.0
  {
    if s != [] {
      var init := s[..|s| - 1];
      assert DateColumn(init) == DateColumn(s)[..|s| - 1];
      NoneOnDate(init, d);
      assert DateColumn(s)[|s| - 1] == DateOf(s[|s| - 1]);
    }
  }

  /** A trade on a day already listed adds to that day's entry. */
  lemma DailyStepExisting(s: seq<TradeRecord>, t: TradeRecord, j: int)
    requires 0 <= j < |Dates(s)| && Dates(s)[j] == DateOf(t)
    ensures DailyVolumes(s + [t]) == DailyVolumes(s)[j := DayVolume(DateOf(t), DailyVolumes(s)[j].volume + Notional(t), DailyVolumes(s)[j].count + 1)]
  {
    var ds := Dates(s);
    DatesSnoc(s, t);
    DatesOfTrades(s);
    var lhs, old' := Summaries(s + [t], ds), Summaries(s, ds);
    var rhs := old'[j := DayVolume(DateOf(t), old'[j].volume + Notional(t), old'[j].count + 1)];
    forall k | 0 <= k < |ds| ensures lhs[k] == rhs[k] {
      DaySummarySnoc(s, t, ds[k]);
      assert k != j ==> ds[k] != ds[j];
    }
    assert lhs == rhs;
  }

  /** A trade on a new day appends an entry for that day. */
  lemma DailyStepNew(s: seq<TradeRecord>, t: TradeRecord)
    requires DateOf(t) !in Dates(s)
    ensures DailyVolumes(s + [t]) == DailyVolumes(s) + [DayVolume(DateOf(t), Notional(t), 1)]
  {
    var ds := Dates(s);
    DatesSnoc(s, t);
    var ds' := ds + [DateOf(t)];
    var lhs, rhs := Summaries(s + [t], ds'), Summaries(s, ds) + [DayVolume(DateOf(t), Notional(t), 1)];
    forall k | 0 <= k < |ds| ensures lhs[k] == rhs[k] {
      assert ds'[k] == ds[k];
      DaySummarySnoc(s, t, ds[k]);
    }
    DaySummarySnoc(s, t, DateOf(t));
    DatesOfTrades(s);
    NoneOnDate(s, DateOf(t));
    assert lhs[|ds|] == rhs[|ds|];
    assert lhs == rhs;
  }

  /** The `reduce` over the sorted trades, filling `acc[date]` and listing it by
      `Object.values`, whose order is the order the keys were added. */
  method BuildDailyVolume(sorted: seq<TradeRecord>) returns (days: seq<DayVolume>)
    ensures days == DailyVolumes(sorted)
  {
    days := [];
    var i := 0;
    while i < |sorted|
      invariant 0 <= i <= |sorted|
      invariant days == DailyVolumes(sorted[..i])
    {
      var t := sorted[i];
      var date := DateOf(t);
      var j := 0;
      while j < |days| && days[j].date != date
        invariant 0 <= j <= |days|
        invariant forall k :: 0 <= k < j ==> days[k].date != date
      {
        j := j + 1;
      }
      assert forall k :: 0 <= k < |days| ==> days[k].date == Dates(sorted[..i])[k];
      assert sorted[..i + 1] == sorted[..i] + [t];
      if j == |days| {
        DailyStepNew(sorted[..i], t);
        days := days + [DayVolume(date, 0.0, 0)];
      } else {
        DailyStepExisting(sorted[..i], t, j);
      }
      days := days[j := DayVolume(date, days[j].volume + Notional(t), days[j].count + 1)];
      i := i + 1;
    }
    assert sorted[..|sorted|] == sorted;
  }

  function TotalCount(days: seq<DayVolume>): nat {
    if days == [] then 0 else TotalCount(days[..|days| - 1]) + days[|days| - 1].count
  }

  function TotalVolume(days: seq<DayVolume>): real {
    if days == [] then 0.0 else TotalVolume(days[..|days| - 1]) + days[|days| - 1].volume
  }

  lemma {:induction false} TotalsUpdate(days: seq<DayVolume>, j: int, d: DayVolume)
    requires 0 <= j < |days|
    ensures TotalCount(days[j := d]) == TotalCount(days) - days[j].count + d.count
    ensures TotalVolume(days[j := d]) == TotalVolume(days) - days[j].volume + d.volume
  {
    var u := days[j := d];
    var n := |days|;
    if j < n - 1 {
      TotalsUpdate(days[..n - 1], j, d);
      assert u[..n - 1] == days[..n - 1][j := d];
    } else {
      assert u[..n - 1] == days[..n - 1];
    }
  }

  lemma TotalsSnoc(days: seq<DayVolume>, d: DayVolume)
    ensures TotalCount(days + [d]) == TotalCount(days) + d.count
    ensures TotalVolume(days + [d]) == TotalVolume(days) + d.volume
  {
    assert (days + [d])[..|days|] == days;
  }

  /** One more trade adds one to the counts and its value to the volumes. */
  lemma TotalsStep(s: seq<TradeRecord>, t: TradeRecord)
    ensures TotalCount(DailyVolumes(s + [t])) == TotalCount(DailyVolumes(s)) + 1
    ensures TotalVolume(DailyVolumes(s + [t])) == TotalVolume(DailyVolumes(s)) + Notional(t)
  {
    var days := DailyVolumes(s);
    DailyEntries(s);
    if DateOf(t) in Dates(s) {
      var j :| 0 <= j < |Dates(s)| && Dates(s)[j] == DateOf(t);
      DailyStepExisting(s, t, j);
      TotalsUpdate(days, j, DayVolume(DateOf(t), days[j].volume + Notional(t), days[j].count + 1));
    } else {
      DailyStepNew(s, t);
      TotalsSnoc(days, DayVolume(DateOf(t), Notional(t), 1));
    }
  }

  /** The daily bars account for every trade once and for all the traded value. */
  lemma {:induction false} DailyTotals(ts: seq<TradeRecord>)
    ensures TotalCount(DailyVolumes(ts)) == |ts|
    ensures TotalVolume(DailyVolumes(ts)) == VolumeOf(ts)
  {
    if ts != [] {
      var s, t := ts[..|ts| - 1], ts[|ts| - 1];
      DailyTotals(s);
      assert ts == s + [t];
      VolumeOfSnoc(s, t);
      TotalsStep(s, t);
    }
  }

  // ---------------------------------------------------------------- cumulative curve

  datatype CumulativePoint = CumulativePoint(timestamp: string, cumulative: real, pnl: real)

  function TotalPnl(ts: seq<TradeRecord>): real {
    if ts == [] then 0.0 else TotalPnl(ts[..|ts| - 1]) + ts[|ts| - 1].pnl
  }

  lemma {:induction false} TotalPnlConcat(a: seq<TradeRecord>, b: seq<TradeRecord>)
    ensures TotalPnl(a + b) == TotalPnl(a) + TotalPnl(b)
  {
    if b == [] {
      assert a + b == a;
    } else {
      var b' := b[..|b| - 1];
      TotalPnlConcat(a, b');
      assert (a + b)[..|a + b| - 1] == a + b';
    }
  }

  lemma {:induction false} InsertKeepsTotal(x: TradeRecord, s: seq<TradeRecord>)
    ensures TotalPnl(Insert(x, s, TimeLe)) == x.pnl + TotalPnl(s)
  {
    assert TotalPnl([x]) == x.pnl by { assert [x][..0] == []; }
    if s == [] {
    } else if TimeLe(x, s[0]) {
      TotalPnlConcat([x], s);
    } else {
      InsertKeepsTotal(x, s[1..]);
      TotalPnlConcat([s[0]], Insert(x, s[1..], TimeLe));
      TotalPnlConcat([s[0]], s[1..]);
      assert [s[0]] + s[1..] == s;
      assert TotalPnl([s[0]]) == s[0].pnl by { assert [s[0]][..0] == []; }
    }
  }

  /** Sorting changes the order of the curve, not where it ends. */
  lemma {:induction false} SortKeepsTotal(data: seq<TradeRecord>)
    ensures TotalPnl(SortedTrades(data)) == TotalPnl(data)
  {
    TimeLeIsPreorder();
    if data != [] {
      SortKeepsTotal(data[1..]);
      InsertKeepsTotal(data[0], SortBy(data[1..], TimeLe));
      TotalPnlConcat([data[0]], data[1..]);
      assert [data[0]] + data[1..] == data;
      assert TotalPnl([data[0]]) == data[0].pnl by { assert [data[0]][..0] == []; }
    }
  }

  /** The `map` with a running `cumulativePnL`: each point carries the profit of every
      trade up to and including its own. */
  method CumulativeSeries(sorted: seq<TradeRecord>) returns (points: seq<CumulativePoint>)
    ensures |points| == |sorted|
    ensures forall i :: 0 <= i < |sorted| ==>
      points[i].timestamp == sorted[i].timestamp && points[i].pnl == sorted[i].pnl &&
      points[i].cumulative == TotalPnl(sorted[..i + 1])
  {
    var cumulative := 0.0;
    points := [];
    var i := 0;
    while i < |sorted|
      invariant 0 <= i <= |sorted| && |points| == i
      invariant cumulative == TotalPnl(sorted[..i])
      invariant forall k :: 0 <= k < i ==>
        points[k].timestamp == sorted[k].timestamp && points[k].pnl == sorted[k].pnl &&
        points[k].cumulative == TotalPnl(sorted[..k + 1])
    {
      var t := sorted[i];
      assert sorted[..i + 1][..i] == sorted[..i];
      cumulative := cumulative + t.pnl;
      points := points + [CumulativePoint(t.timestamp, cumulative, t.pnl)];
      i := i + 1;
    }
  }

  /** The last point of the curve, the running sum over all the sorted trades, is the
      total profit of the trades as given. */
  lemma CurveEndsAtTotal(data: seq<TradeRecord>)
    requires data != []
    ensures TotalPnl(SortedTrades(data)[..(|data| - 1) + 1]) == TotalPnl(data)
  {
    assert SortedTrades(data)[..(|data| - 1) + 1] == SortedTrades(data);
    SortKeepsTotal(data);
  }

  /** A point is green for a winning trade and red otherwise, break-even included. */
  function MarkerColors(points: seq<CumulativePoint>): (colors: seq<string>)
    ensures |colors| == |points|
    ensures forall i :: 0 <= i < |points| ==> (colors[i] == Green <==> points[i].pnl > 0.0)
    ensures forall i :: 0 <= i < |points| ==> (colors[i] == Red <==> points[i].pnl <= 0.0)
  {
    seq(|points|, i requires 0 <= i < |points| => if points[i].pnl > 0.0 then Green else Red)
  }

  // ---------------------------------------------------------------- the chart

  datatype ChartType = PnlChart | VolumeChart | CumulativeChart

  datatype Plot =
    | Placeholder
    | PnlPlot(wins: seq<(nat, real)>, losses: seq<(nat, real)>)
    | VolumePlot(days: seq<DayVolume>)
    | CumulativePlot(points: seq<CumulativePoint>, colors: seq<string>)

  /** The spinner shows while loading, while the 800 ms start-up timer runs, or without trades. */
  predicate ShowsPlaceholder(data: Option<seq<TradeRecord>>, loading: bool, timerRunning: bool) {
    loading || timerRunning || data.None? || data.value == []
  }

  method Chart(data: Option<seq<TradeRecord>>, loading: bool, timerRunning: bool, chartType: ChartType) returns (p: Plot)
    ensures p.Placeholder? <==> ShowsPlaceholder(data, loading, timerRunning)
    ensures !ShowsPlaceholder(data, loading, timerRunning) ==> (
      var sorted := SortedTrades(data.value);
      match chartType
      case PnlChart => p == PnlPlot(Bars(sorted, IsWin), Bars(sorted, IsLoss))
      case VolumeChart => p == VolumePlot(DailyVolumes(sorted))
      case CumulativeChart => (p.CumulativePlot? && |p.points| == |sorted| &&
        p.colors == MarkerColors(p.points) &&
        forall i :: 0 <= i < |sorted| ==>
          p.points[i].timestamp == sorted[i].timestamp && p.points[i].pnl == sorted[i].pnl &&
          p.points[i].cumulative == TotalPnl(sorted[..i + 1])))
  {
    if loading || timerRunning || data.None? || data.value == [] {
      return Placeholder;
    }
    var sorted := SortedTrades(data.value);
    match chartType {
      case PnlChart =>
        p := PnlPlot(Bars(sorted, IsWin), Bars(sorted, IsLoss));
      case VolumeChart =>
        var days := BuildDailyVolume(sorted);
        p := VolumePlot(days);
      case CumulativeChart =>
        var points := CumulativeSeries(sorted);
        p := CumulativePlot(points, MarkerColors(points));
    }
  }
}
