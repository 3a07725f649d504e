/** The adapter between the local store and the backtest engine
    (backend/app/services/data_adapter.py). A call into the store that can raise is
    passed in as its `Result`; `Err` stands for the raised exception. */
module DataAdapter {
  import opened Wrappers
  import opened Strs
  import opened Seqs
  import opened Sorting
  import opened LocalData

  predicate IsUsdt(s: string) {
    EndsWith(s, "USDT")
  }

  /** `get_usdt_symbols_async`: the USDT pairs of the full listing, in listing order;
      `[]` when the listing raised. */
  function UsdtSymbols(listing: Result<seq<string>, string>): (r: seq<string>)
    ensures listing.Err? ==> r == []
    ensures listing.Ok? ==> SubsequenceOf(r, listing.value)
    ensures listing.Ok? ==> forall i :: 0 <= i < |listing.value| ==> (listing.value[i] in r <==> IsUsdt(listing.value[i]))
    ensures forall i :: 0 <= i < |r| ==> IsUsdt(r[i])
  {
    if listing.Err? then []
    else
      FilterIsSubsequence(listing.value, IsUsdt);
      Filter(listing.value, IsUsdt)
  }

  /** On the store's listing the result stays sorted and duplicate-free. */
  lemma UsdtSymbolsOfListing(all: seq<string>)
    requires SortedBy(all, LexLe) && Distinct(all)
    ensures SortedBy(UsdtSymbols(Ok(all)), LexLe) && Distinct(UsdtSymbols(Ok(all)))
  {
    var r := UsdtSymbols(Ok(all));
    assert r == Filter(all, IsUsdt);
    assert forall i, j :: 0 <= i < j < |all| ==> LexLe(all[i], all[j]);
    FilterSorted(all, IsUsdt, LexLe);
    assert forall i, j :: 0 <= i < j < |r| ==> LexLe(r[i], r[j]);
    var differ := (a: string, b: string) => a != b;
    assert forall i, j :: 0 <= i < j < |all| ==> differ(all[i], all[j]);
    FilterSorted(all, IsUsdt, differ);
    assert forall i, j :: 0 <= i < j < |r| ==> differ(r[i], r[j]);
  }

  /** `spot_symbols_filter`: the requested symbols that the spot listing has, in request
      order; the request unchanged when the listing raised. */
  function SpotSymbolsFilter(symbols: seq<string>, spotListing: Result<seq<string>, string>): (r: seq<string>)
    ensures spotListing.Err? ==> r == symbols
    ensures SubsequenceOf(r, symbols)
    ensures spotListing.Ok? ==> forall i :: 0 <= i < |symbols| ==> (symbols[i] in r <==> symbols[i] in spotListing.value)
  {
    if spotListing.Err? then
      FilterAll(symbols, _ => true);
      FilterIsSubsequence(symbols, _ => true);
      symbols
    else
      var listed := (s: string) => s in spotListing.value;
      FilterIsSubsequence(symbols, listed);
      Filter(symbols, listed)
  }

  // ---------------------------------------------------------------- backtest columns

  /** A numeric cell by column name; a row without the column holds NaN. */
  function Cell(r: Row, name: string): Option<real> {
    if name in r.extra then r.extra[name] else None
  }

  /** NaN-propagating product. */
  function Mul(a: Option<real>, b: Option<real>): Option<real> {
    if a.Some? && b.Some? then Some(a.value * b.value) else None
  }

  /** `df[name] = cells`. */
  function SetColumn(f: Frame, name: string, cells: seq<Option<real>>): (g: Frame)
    requires |cells| == |f.rows|
    ensures g.columns == f.columns + {name} && |g.rows| == |f.rows|
    ensures forall i :: 0 <= i < |g.rows| ==> g.rows[i] == f.rows[i].(extra := f.rows[i].extra[name := cells[i]])
  {
    Frame(f.columns + {name}, seq(|f.rows|, i requires 0 <= i < |f.rows| =>
      f.rows[i].(extra := f.rows[i].extra[name := cells[i]])))
  }

  /** `if name not in df.columns: df[name] = cells`. */
  function IfAbsent(f: Frame, name: string, cells: seq<Option<real>>): (g: Frame)
    requires |cells| == |f.rows|
    ensures g.columns == f.columns + {name} && |g.rows| == |f.rows|
    ensures forall i, c :: 0 <= i < |g.rows| && c != name ==> Cell(g.rows[i], c) == Cell(f.rows[i], c)
    ensures forall i :: 0 <= i < |g.rows| ==> Cell(g.rows[i], name) == if name in f.columns then Cell(f.rows[i], name) else cells[i]
    ensures forall i :: 0 <= i < |g.rows| ==> g.rows[i].time == f.rows[i].time && g.rows[i].close == f.rows[i].close
                                              && g.rows[i].volume == f.rows[i].volume
  {
    if name in f.columns then f else SetColumn(f, name, cells)
  }

  function Constant(n: nat, v: real): (r: seq<Option<real>>)
    ensures |r| == n
  {
    seq(n, _ => Some(v))
  }

  function ColumnCells(f: Frame, name: string): (r: seq<Option<real>>)
    ensures |r| == |f.rows|
  {
    seq(|f.rows|, i requires 0 <= i < |f.rows| => Cell(f.rows[i], name))
  }

  function QuoteVolumeCells(f: Frame): (r: seq<Option<real>>)
    ensures |r| == |f.rows|
  {
    seq(|f.rows|, i requires 0 <= i < |f.rows| => Mul(f.rows[i].volume, f.rows[i].close))
  }

  function Halved(cells: seq<Option<real>>): (r: seq<Option<real>>)
    ensures |r| == |cells|
  {
    seq(|cells|, i requires 0 <= i < |cells| => Mul(cells[i], Some(0.5)))
  }

  function VolumeCells(f: Frame): (r: seq<Option<real>>)
    ensures |r| == |f.rows|
  {
    seq(|f.rows|, i requires 0 <= i < |f.rows| => f.rows[i].volume)
  }

  /** `close.pct_change().fillna(0)`: 0 at the first row and where 0/0 gives NaN; `None`
      stands for the infinity a zero previous close gives otherwise. */
  function PctChange(f: Frame): (r: seq<Option<real>>)
    ensures |r| == |f.rows|
  {
    seq(|f.rows|, i requires 0 <= i < |f.rows| =>
      if i == 0 then Some(0.0)
      else
        var prev, cur := f.rows[i - 1].close, f.rows[i].close;
        if prev.None? || cur.None? then Some(0.0)
        else if prev.value != 0.0 then Some(cur.value / prev.value - 1.0)
        else if cur.value == 0.0 then Some(0.0)
        else None)
  }

  function WithQuoteVolume(f: Frame): Frame {
    IfAbsent(f, "quote_volume", QuoteVolumeCells(f))
  }

  function WithTradeNum(f: Frame): Frame {
    IfAbsent(f, "trade_num", Constant(|f.rows|, 0.0))
  }

  function WithTakerBase(f: Frame): Frame {
    IfAbsent(f, "taker_buy_base_asset_volume", Halved(VolumeCells(f)))
  }

  function WithTakerQuote(f: Frame): Frame {
    IfAbsent(f, "taker_buy_quote_asset_volume", Halved(ColumnCells(f, "quote_volume")))
  }

  function WithOffset(f: Frame): Frame {
    IfAbsent(f, "offset", Constant(|f.rows|, 0.0))
  }

  function WithKlinePct(f: Frame): Frame {
    IfAbsent(f, "kline_pct", PctChange(f))
  }

  /** The engine columns, each added only when absent, in the source's order. */
  function EngineColumns(f: Frame): Frame {
    WithKlinePct(WithOffset(WithTakerQuote(WithTakerBase(WithTradeNum(WithQuoteVolume(f))))))
  }

  /** `_prepare_for_backtest`: empty without the required columns; otherwise the
      complete rows by time, the missing engine columns added, and the symbol column
      overwritten. */
  function PrepareForBacktest(f: Frame, symbol: string): Frame {
    if !HasRequired(f) then Frame({}, [])
    else
      var e := EngineColumns(Frame(f.columns, SortedComplete(f.rows)));
      Frame(e.columns + {"symbol"}, WithSymbols(e.rows, symbol))
  }

  /** The prepared rows are the complete input rows ordered by time, every symbol cell
      is the given symbol, and the engine columns are all present. */
  lemma PrepareShape(f: Frame, symbol: string)
    requires HasRequired(f)
    ensures var g := PrepareForBacktest(f, symbol);
      && SortedBy(g.rows, TimeLe)
      && |g.rows| == |Filter(f.rows, HasOhlc)|
      && (forall i :: 0 <= i < |g.rows| ==> g.rows[i].symbol == Some(symbol) && g.rows[i].close.Some?)
      && g.columns == f.columns + {"quote_volume", "trade_num", "taker_buy_base_asset_volume",
                                   "taker_buy_quote_asset_volume", "offset", "kline_pct", "symbol"}
  {
    var rows := SortedComplete(f.rows);
    StandardizeShape(f, symbol);
    forall i | 0 <= i < |rows| ensures rows[i].close.Some? {
      assert rows[i] in multiset(Filter(f.rows, HasOhlc));
    }
    var e := EngineColumns(Frame(f.columns, rows));
    EngineColumnsKeepRows(Frame(f.columns, rows));
    var g := PrepareForBacktest(f, symbol);
    forall i, j | 0 <= i < j < |g.rows| ensures TimeLe(g.rows[i], g.rows[j]) {
      assert TimeLe(rows[i], rows[j]);
    }
  }

  /** The engine columns change no time, close or volume. */
  lemma EngineColumnsKeepRows(f: Frame)
    ensures var e := EngineColumns(f);
      && |e.rows| == |f.rows|
      && e.columns == f.columns + {"quote_volume", "trade_num", "taker_buy_base_asset_volume",
                                   "taker_buy_quote_asset_volume", "offset", "kline_pct"}
      && forall i :: 0 <= i < |f.rows| ==> e.rows[i].time == f.rows[i].time && e.rows[i].close == f.rows[i].close
                                           && e.rows[i].volume == f.rows[i].volume
  {
    var f1 := WithQuoteVolume(f);
    var f2 := WithTradeNum(f1);
    var f3 := WithTakerBase(f2);
    var f4 := WithTakerQuote(f3);
    var f5 := WithOffset(f4);
    var f6 := WithKlinePct(f5);
    assert f6 == EngineColumns(f);
  }

  /** Cells of a column not added at a stage pass through it. */
  lemma EngineColumnsKeep(f: Frame, c: string, i: nat)
    requires i < |f.rows|
    requires c !in {"trade_num", "taker_buy_base_asset_volume", "taker_buy_quote_asset_volume", "offset", "kline_pct"}
    ensures Cell(EngineColumns(f).rows[i], c) == Cell(WithQuoteVolume(f).rows[i], c)
  {
    var f1 := WithQuoteVolume(f);
    var f2 := WithTradeNum(f1);
    var f3 := WithTakerBase(f2);
    var f4 := WithTakerQuote(f3);
    var f5 := WithOffset(f4);
    assert Cell(f2.rows[i], c) == Cell(f1.rows[i], c);
    assert Cell(f3.rows[i], c) == Cell(f2.rows[i], c);
    assert Cell(f4.rows[i], c) == Cell(f3.rows[i], c);
    assert Cell(f5.rows[i], c) == Cell(f4.rows[i], c);
  }

  /** The derived columns, where the input lacked them: quote volume is volume times
      close and the taker-buy quote volume half of it; a column the input had keeps
      its cells. */
  lemma PrepareQuoteVolumes(f: Frame, i: nat)
    requires i < |f.rows|
    ensures var r := EngineColumns(f).rows[i];
      && Cell(r, "quote_volume") == (if "quote_volume" in f.columns then Cell(f.rows[i], "quote_volume")
                                     else Mul(f.rows[i].volume, f.rows[i].close))
      && Cell(r, "taker_buy_quote_asset_volume")
         == (if "taker_buy_quote_asset_volume" in f.columns then Cell(f.rows[i], "taker_buy_quote_asset_volume")
             else Mul(Cell(r, "quote_volume"), Some(0.5)))
  {
    EngineColumnsKeep(f, "quote_volume", i);
    var f1 := WithQuoteVolume(f);
    var f2 := WithTradeNum(f1);
    var f3 := WithTakerBase(f2);
    var f4 := WithTakerQuote(f3);
    var f5 := WithOffset(f4);
    var f6 := WithKlinePct(f5);
    assert Cell(f3.rows[i], "quote_volume") == Cell(f1.rows[i], "quote_volume");
    assert ColumnCells(f3, "quote_volume")[i] == Cell(f3.rows[i], "quote_volume");
    assert Cell(f3.rows[i], "taker_buy_quote_asset_volume") == Cell(f.rows[i], "taker_buy_quote_asset_volume");
    assert Cell(f6.rows[i], "taker_buy_quote_asset_volume") == Cell(f4.rows[i], "taker_buy_quote_asset_volume");
  }

  /** Where the input lacked them: the taker-buy base volume is half the volume, and
      trade count and offset are 0. */
  lemma PrepareConstantColumns(f: Frame, i: nat)
    requires i < |f.rows|
    ensures var r := EngineColumns(f).rows[i];
      && Cell(r, "taker_buy_base_asset_volume")
         == (if "taker_buy_base_asset_volume" in f.columns then Cell(f.rows[i], "taker_buy_base_asset_volume")
             else Mul(f.rows[i].volume, Some(0.5)))
      && Cell(r, "trade_num") == (if "trade_num" in f.columns then Cell(f.rows[i], "trade_num") else Some(0.0))
      && Cell(r, "offset") == (if "offset" in f.columns then Cell(f.rows[i], "offset") else Some(0.0))
  {
    var f1 := WithQuoteVolume(f);
    var f2 := WithTradeNum(f1);
    var f3 := WithTakerBase(f2);
    var f4 := WithTakerQuote(f3);
    var f5 := WithOffset(f4);
    var f6 := WithKlinePct(f5);
    assert VolumeCells(f2)[i] == f.rows[i].volume;
    assert Cell(f6.rows[i], "taker_buy_base_asset_volume") == Cell(f3.rows[i], "taker_buy_base_asset_volume");
    assert Cell(f6.rows[i], "trade_num") == Cell(f2.rows[i], "trade_num");
    assert Cell(f2.rows[i], "trade_num") == (if "trade_num" in f.columns then Cell(f.rows[i], "trade_num") else Some(0.0));
    assert Cell(f6.rows[i], "offset") == Cell(f5.rows[i], "offset");
    assert Cell(f4.rows[i], "offset") == Cell(f.rows[i], "offset");
  }

  /** Where the input had no `kline_pct`, it is 0 on the first row and the relative
      change of the close on later rows whose previous close is non-zero. */
  lemma PrepareKlinePct(f: Frame, i: nat)
    requires "kline_pct" !in f.columns && i < |f.rows|
    ensures var r := EngineColumns(f).rows;
      && (i == 0 ==> Cell(r[i], "kline_pct") == Some(0.0))
      && (i > 0 && f.rows[i - 1].close.Some? && f.rows[i].close.Some? && f.rows[i - 1].close.value != 0.0 ==>
            Cell(r[i], "kline_pct") == Some(f.rows[i].close.value / f.rows[i - 1].close.value - 1.0))
  {
    var f5 := WithOffset(WithTakerQuote(WithTakerBase(WithTradeNum(WithQuoteVolume(f)))));
    var r := EngineColumns(f).rows;
    KlinePctIsPctChange(f, i);
    PrefixKeepsClose(f, i);
    PctChangeAt(f5, i);
    assert Cell(r[i], "kline_pct") == PctChange(f5)[i];
    if i > 0 {
      PrefixKeepsClose(f, i - 1);
      var prev, cur := f.rows[i - 1].close, f.rows[i].close;
      assert f5.rows[i - 1].close == prev && f5.rows[i].close == cur;
      if prev.Some? && cur.Some? && prev.value != 0.0 {
        assert Cell(r[i], "kline_pct") == Some(cur.value / prev.value - 1.0);
      }
    }
  }

  lemma KlinePctIsPctChange(f: Frame, i: nat)
    requires "kline_pct" !in f.columns && i < |f.rows|
    ensures var f5 := WithOffset(WithTakerQuote(WithTakerBase(WithTradeNum(WithQuoteVolume(f)))));
      |f5.rows| == |f.rows| && Cell(EngineColumns(f).rows[i], "kline_pct") == PctChange(f5)[i]
  {
    var f5 := WithOffset(WithTakerQuote(WithTakerBase(WithTradeNum(WithQuoteVolume(f)))));
    PrefixKeepsClose(f, i);
    assert EngineColumns(f) == WithKlinePct(f5);
  }

  lemma PctChangeAt(f: Frame, i: nat)
    requires i < |f.rows|
    ensures i == 0 ==> PctChange(f)[i] == Some(0.0)
    ensures i > 0 && f.rows[i - 1].close.Some? && f.rows[i].close.Some? && f.rows[i - 1].close.value != 0.0 ==>
      PctChange(f)[i] == Some(f.rows[i].close.value / f.rows[i - 1].close.value - 1.0)
  {
  }

  lemma PrefixKeepsClose(f: Frame, i: nat)
    requires i < |f.rows|
    ensures var f5 := WithOffset(WithTakerQuote(WithTakerBase(WithTradeNum(WithQuoteVolume(f)))));
      |f5.rows| == |f.rows| && f5.rows[i].close == f.rows[i].close && ("kline_pct" in f5.columns <==> "kline_pct" in f.columns)
  {
    var f1 := WithQuoteVolume(f);
    var f2 := WithTradeNum(f1);
    var f3 := WithTakerBase(f2);
    var f4 := WithTakerQuote(f3);
    assert f4.rows[i].close == f.rows[i].close;
  }

  /** `get_symbol_data_for_backtest`: spot data, swap data only when spot is missing or
      empty, `None` when neither has rows; otherwise the prepared frame. */
  function SymbolDataForBacktest(store: Store, symbol: string, start: Option<int>, end: Option<int>): Option<Frame> {
    var df := PreferSpot(store, symbol, start, end).0;
    if !HasRows(df) then None else Some(PrepareForBacktest(df.value, symbol))
  }

  lemma BacktestDataSource(store: Store, symbol: string, start: Option<int>, end: Option<int>)
    ensures var spot := GetSymbolData(store, symbol, "spot", start, end);
      var swap := GetSymbolData(store, symbol, "swap", start, end);
      && (HasRows(spot) ==> SymbolDataForBacktest(store, symbol, start, end) == Some(PrepareForBacktest(spot.value, symbol)))
      && (!HasRows(spot) && HasRows(swap) ==> SymbolDataForBacktest(store, symbol, start, end) == Some(PrepareForBacktest(swap.value, symbol)))
      && (!HasRows(spot) && !HasRows(swap) ==> SymbolDataForBacktest(store, symbol, start, end).None?)
  {
  }

  /** `validate_symbol_format`: hyphens removed and upper-cased; it never rejects (a
      non-USDT result is only logged). */
  function ValidateSymbolFormat(symbol: string): (r: string)
    ensures '-' !in r && |r| <= |symbol|
  {
    RemoveHyphenShorter(symbol);
    UpperKeepsHyphenFree(RemoveChar(symbol, '-'));
    Upper(RemoveChar(symbol, '-'))
  }

  lemma {:induction false} RemoveHyphenShorter(s: string)
    ensures |RemoveChar(s, '-')| <= |s|
  {
    if s != [] { RemoveHyphenShorter(s[1..]); }
  }

  lemma UpperKeepsHyphenFree(s: string)
    requires '-' !in s
    ensures '-' !in Upper(s)
  {
    forall k | 0 <= k < |s| ensures Upper(s)[k] != '-' { assert s[k] != '-'; }
  }

  lemma UpperIdempotent(s: string)
    ensures Upper(Upper(s)) == Upper(s)
  {
  }

  /** Validating twice is validating once, and validating a local key gives back the
      upper-cased standard symbol. */
  lemma ValidateIdempotent(symbol: string)
    ensures ValidateSymbolFormat(ValidateSymbolFormat(symbol)) == ValidateSymbolFormat(symbol)
    ensures '-' !in symbol ==> ValidateSymbolFormat(ConvertToLocalFormat(symbol)) == Upper(symbol)
  {
    var v := ValidateSymbolFormat(symbol);
    RemoveAbsent(v, '-');
    UpperIdempotent(RemoveChar(symbol, '-'));
    if '-' !in symbol { ConvertRoundTrip(symbol); }
  }
}
