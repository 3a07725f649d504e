/** The result filter panel: the choices it offers, the slider ranges it derives from
    the loaded results, and the criteria it keeps and reports
    (frontend/src/components/BacktestResults/ResultsFilter.tsx). */
module ResultsFilter {
  import opened Wrappers
  import opened Seqs
  import opened Columns
  import opened Metrics

  /** `[...new Set(results.map(r => r.strategy))]`. */
  function AvailableStrategies(results: seq<BacktestResult>): (r: seq<string>)
    ensures Distinct(r) && SubsequenceOf(r, StrategyColumn(results))
    ensures forall s :: s in r <==> exists i :: 0 <= i < |results| && results[i].strategy == s
  {
    DedupIsSubsequence(StrategyColumn(results));
    Dedup(StrategyColumn(results))
  }

  function StrategyColumn(results: seq<BacktestResult>): (r: seq<string>)
    ensures |r| == |results| && forall i :: 0 <= i < |results| ==> r[i] == results[i].strategy
  {
    seq(|results|, i requires 0 <= i < |results| => results[i].strategy)
  }

  /** `[...new Set(results.map(r => r.symbol))]`. */
  function AvailableSymbols(results: seq<BacktestResult>): (r: seq<string>)
    ensures Distinct(r) && SubsequenceOf(r, SymbolColumn(results))
    ensures forall s :: s in r <==> exists i :: 0 <= i < |results| && results[i].symbol == s
  {
    DedupIsSubsequence(SymbolColumn(results));
    Dedup(SymbolColumn(results))
  }

  function SymbolColumn(results: seq<BacktestResult>): (r: seq<string>)
    ensures |r| == |results| && forall i :: 0 <= i < |results| ==> r[i] == results[i].symbol
  {
    seq(|results|, i requires 0 <= i < |results| => results[i].symbol)
  }

  datatype Range = Range(low: real, high: real)

  datatype DataRanges = DataRanges(totalReturn: Range, sharpe: Range, drawdown: Range, winRate: Range, trades: Range)

  /** [min, max] of a metric (scaled), or the fixed default when there are no results. */
  function MetricRange(results: seq<BacktestResult>, m: Metric, scale: real, default: Range): (r: Range)
    ensures results == [] ==> r == default
    ensures results != [] ==>
      (exists i :: 0 <= i < |results| && r.low == Value(results[i], m) * scale) &&
      (exists i :: 0 <= i < |results| && r.high == Value(results[i], m) * scale) &&
      forall i :: 0 <= i < |results| ==> r.low <= Value(results[i], m) * scale <= r.high
  {
    if results == [] then default
    else
      var c := Column(results, m, scale);
      MinOfIsMin(c);
      MaxOfIsMax(c);
      Range(MinOf(c), MaxOf(c))
  }

  /** `dataRanges`: return, drawdown and win rate in percent. */
  function ComputeDataRanges(results: seq<BacktestResult>): DataRanges {
    DataRanges(
      MetricRange(results, FinalReturn, 100.0, Range(-50.0, 50.0)),
      MetricRange(results, SharpeRatio, 1.0, Range(-2.0, 3.0)),
      MetricRange(results, MaxDrawdown, 100.0, Range(0.0, 50.0)),
      MetricRange(results, WinRate, 100.0, Range(0.0, 100.0)),
      MetricRange(results, TotalTrades, 1.0, Range(0.0, 1000.0)))
  }

  predicate Ordered(r: Range) { r.low <= r.high }

  /** Every derived range is ordered, and without results the ranges are the defaults. */
  lemma DataRangesOrdered(results: seq<BacktestResult>)
    ensures var d := ComputeDataRanges(results);
      Ordered(d.totalReturn) && Ordered(d.sharpe) && Ordered(d.drawdown) && Ordered(d.winRate) && Ordered(d.trades)
    ensures results == [] ==> (ComputeDataRanges(results) ==
      DataRanges(Range(-50.0, 50.0), Range(-2.0, 3.0), Range(0.0, 50.0), Range(0.0, 100.0), Range(0.0, 1000.0)))
  {
    if results != [] {
      assert 0 <= 0 < |results|;
    }
  }

  // ---------------------------------------------------------------- criteria

  datatype SortOrder = Asc | Desc

  datatype FilterCriteria = FilterCriteria(
    strategies: seq<string>,
    symbols: seq<string>,
    returnRange: Range,
    sharpeRange: Range,
    drawdownRange: Range,
    winRateRange: Range,
    tradesRange: Range,
    dateRange: Option<(int, int)>,
    sortBy: string,
    sortOrder: SortOrder,
    showOnlyProfitable: bool,
    minTrades: int)

  /** The criteria the panel starts with, and the ones a reset restores. */
  function InitialCriteria(d: DataRanges): (c: FilterCriteria)
    ensures c.strategies == [] && c.symbols == [] && c.dateRange == None
    ensures c.returnRange == d.totalReturn && c.sharpeRange == d.sharpe && c.drawdownRange == d.drawdown
    ensures c.winRateRange == d.winRate && c.tradesRange == d.trades
    ensures c.sortBy == "final_return" && c.sortOrder == Desc && !c.showOnlyProfitable && c.minTrades == 10
  {
    FilterCriteria([], [], d.totalReturn, d.sharpe, d.drawdown, d.winRate, d.trades, None, "final_return", Desc, false, 10)
  }

  /** One key of `FilterCriteria`, and a value for it. */
  datatype Field =
    | Strategies | Symbols | ReturnRange | SharpeRange | DrawdownRange | WinRateRange | TradesRange
    | DateRange | SortBy | SortOrderField | ShowOnlyProfitable | MinTrades

  datatype FieldValue =
    | Names(names: seq<string>)
    | Bounds(range: Range)
    | Dates(dates: Option<(int, int)>)
    | Key(key: string)
    | Order(order: SortOrder)
    | Flag(flag: bool)
    | Count(count: int)

  /** `criteria[field]`. */
  function Read(c: FilterCriteria, f: Field): FieldValue {
    match f
    case Strategies => Names(c.strategies)
    case Symbols => Names(c.symbols)
    case ReturnRange => Bounds(c.returnRange)
    case SharpeRange => Bounds(c.sharpeRange)
    case DrawdownRange => Bounds(c.drawdownRange)
    case WinRateRange => Bounds(c.winRateRange)
    case TradesRange => Bounds(c.tradesRange)
    case DateRange => Dates(c.dateRange)
    case SortBy => Key(c.sortBy)
    case SortOrderField => Order(c.sortOrder)
    case ShowOnlyProfitable => Flag(c.showOnlyProfitable)
    case MinTrades => Count(c.minTrades)
  }

  /** The value has the type the field declares. */
  predicate Fits(f: Field, v: FieldValue) {
    match f
    case Strategies => v.Names?
    case Symbols => v.Names?
    case ReturnRange => v.Bounds?
    case SharpeRange => v.Bounds?
    case DrawdownRange => v.Bounds?
    case WinRateRange => v.Bounds?
    case TradesRange => v.Bounds?
    case DateRange => v.Dates?
    case SortBy => v.Key?
    case SortOrderField => v.Order?
    case ShowOnlyProfitable => v.Flag?
    case MinTrades => v.Count?
  }

  /** `{ ...criteria, [field]: value }`. */
  function Write(c: FilterCriteria, f: Field, v: FieldValue): FilterCriteria
    requires Fits(f, v)
  {
    match f
    case Strategies => c.(strategies := v.names)
    case Symbols => c.(symbols := v.names)
    case ReturnRange => c.(returnRange := v.range)
    case SharpeRange => c.(sharpeRange := v.range)
    case DrawdownRange => c.(drawdownRange := v.range)
    case WinRateRange => c.(winRateRange := v.range)
    case TradesRange => c.(tradesRange := v.range)
    case DateRange => c.(dateRange := v.dates)
    case SortBy => c.(sortBy := v.key)
    case SortOrderField => c.(sortOrder := v.order)
    case ShowOnlyProfitable => c.(showOnlyProfitable := v.flag)
    case MinTrades => c.(minTrades := v.count)
  }

  /** Writing a field stores the value there and leaves every other field as it was. */
  lemma WriteChangesOneField(c: FilterCriteria, f: Field, v: FieldValue)
    requires Fits(f, v)
    ensures Read(Write(c, f, v), f) == v
    ensures forall g :: g != f ==> Read(Write(c, f, v), g) == Read(c, g)
  {
  }

  /** Criteria agreeing on every field are equal. */
  lemma ReadDetermines(c: FilterCriteria, d: FilterCriteria)
    requires forall g :: Read(c, g) == Read(d, g)
    ensures c == d
  {
    assert Read(c, Strategies) == Read(d, Strategies) && Read(c, Symbols) == Read(d, Symbols);
    assert Read(c, ReturnRange) == Read(d, ReturnRange) && Read(c, SharpeRange) == Read(d, SharpeRange);
    assert Read(c, DrawdownRange) == Read(d, DrawdownRange) && Read(c, WinRateRange) == Read(d, WinRateRange);
    assert Read(c, TradesRange) == Read(d, TradesRange) && Read(c, DateRange) == Read(d, DateRange);
    assert Read(c, SortBy) == Read(d, SortBy) && Read(c, SortOrderField) == Read(d, SortOrderField);
    assert Read(c, ShowOnlyProfitable) == Read(d, ShowOnlyProfitable) && Read(c, MinTrades) == Read(d, MinTrades);
  }

  /** The panel's state: the data ranges of its current `results` prop, the current
      criteria, and every criteria value it has reported through `onFilterChange`,
      oldest first. */
  class Panel {
    var dataRanges: DataRanges
    var criteria: FilterCriteria
    var reported: seq<FilterCriteria>

    constructor (results: seq<BacktestResult>)
      ensures dataRanges == ComputeDataRanges(results)
      ensures criteria == InitialCriteria(dataRanges) && reported == []
    {
      dataRanges := ComputeDataRanges(results);
      criteria := InitialCriteria(ComputeDataRanges(results));
      reported := [];
    }

    /** A render with a new `results` prop: the ranges are derived afresh, while the
        criteria kept by `useState` stay as they were and nothing is reported. */
    method SetResults(results: seq<BacktestResult>)
      modifies this
      ensures dataRanges == ComputeDataRanges(results)
      ensures criteria == old(criteria) && reported == old(reported)
    {
      dataRanges := ComputeDataRanges(results);
    }

    /** `handleFilterChange`: store the criteria with one field replaced and report them. */
    method HandleFilterChange(f: Field, v: FieldValue)
      requires Fits(f, v)
      modifies this
      ensures criteria == Write(old(criteria), f, v)
      ensures reported == old(reported) + [criteria] && dataRanges == old(dataRanges)
    {
      var newCriteria := Write(criteria, f, v);
      criteria := newCriteria;
      reported := reported + [newCriteria];
    }

    /** `handleReset`: back to the initial criteria, reported as well. */
    method HandleReset()
      modifies this
      ensures criteria == InitialCriteria(dataRanges)
      ensures reported == old(reported) + [criteria] && dataRanges == old(dataRanges)
    {
      var defaultCriteria := InitialCriteria(dataRanges);
      criteria := defaultCriteria;
      reported := reported + [defaultCriteria];
    }
  }

  /** A change followed by a reset ends where the panel started. */
  method ChangeThenReset(results: seq<BacktestResult>, f: Field, v: FieldValue) returns (p: Panel)
    requires Fits(f, v)
    ensures p.criteria == InitialCriteria(ComputeDataRanges(results))
    ensures |p.reported| == 2 && p.reported[0] == Write(InitialCriteria(ComputeDataRanges(results)), f, v)
  {
    p := new Panel(results);
    p.HandleFilterChange(f, v);
    p.HandleReset();
  }

  /** A reset after the parent passes new results goes to the new results' ranges. */
  method NewResultsThenReset(first: seq<BacktestResult>, second: seq<BacktestResult>) returns (p: Panel)
    ensures p.criteria == InitialCriteria(ComputeDataRanges(second))
    ensures p.reported == [p.criteria]
  {
    p := new Panel(first);
    p.SetResults(second);
    p.HandleReset();
  }
}
