/** The local store of preprocessed candle data (backend/app/services/local_data_manager.py):
    symbol-name conversion, frame standardisation, date filtering, symbol listing,
    availability classification and the suggested common time range. Times are
    milliseconds since the epoch; a date is the millisecond at which its day starts. */
module LocalData {
  import opened Wrappers
  import opened Strs
  import opened Seqs
  import opened Sorting

  const Day: int := 86400000

  /** One candle. Numeric cells are `None` where pandas holds NaN; `extra` holds the
      other numeric columns by name; `symbol` is the symbol column's cell. */
  datatype Row = Row(time: int, open: Option<real>, high: Option<real>, low: Option<real>, close: Option<real>,
                     volume: Option<real>, extra: map<string, Option<real>>, symbol: Option<string>)

  /** A data frame: its column names and its rows. */
  datatype Frame = Frame(columns: set<string>, rows: seq<Row>)

  predicate IsEmpty(f: Frame) {
    f.rows == []
  }

  /** The one-symbol-per-key dictionaries loaded from the spot and swap files. */
  datatype Store = Store(spot: map<string, Frame>, swap: map<string, Frame>)

  // ---------------------------------------------------------------- symbol names

  const BaseCurrencies: seq<string> := ["BTC", "ETH", "BNB", "ADA", "SOL", "DOT", "LINK", "UNI", "AVAX", "MATIC"]

  /** The first listed base that `symbol` starts with, if it also ends in USDT. */
  function ListedBase(symbol: string, k: nat): (r: Option<string>)
    requires k <= |BaseCurrencies|
    ensures r.Some? ==> r.value in BaseCurrencies && StartsWith(symbol, r.value) && EndsWith(symbol, "USDT")
    ensures r.None? <==> !EndsWith(symbol, "USDT") || forall j :: k <= j < |BaseCurrencies| ==> !StartsWith(symbol, BaseCurrencies[j])
    decreases |BaseCurrencies| - k
  {
    if k == |BaseCurrencies| then None
    else if StartsWith(symbol, BaseCurrencies[k]) && EndsWith(symbol, "USDT") then Some(BaseCurrencies[k])
    else ListedBase(symbol, k + 1)
  }

  /** `_convert_to_local_format` as written: BTCUSDT -> BTC-USDT. A listed base prefix
      wins over the general rule, whatever follows it. */
  function ConvertAsWritten(symbol: string): string {
    if '-' in symbol then symbol
    else
      match ListedBase(symbol, 0)
      case Some(base) => base + "-USDT"
      case None => if EndsWith(symbol, "USDT") then symbol[..|symbol| - 4] + "-USDT" else symbol
  }

  lemma EthFiFindsEth()
    ensures ListedBase("ETHFIUSDT", 0) == Some("ETH")
  {
    assert "ETHFIUSDT"[..3][0] != "BTC"[0];
    assert "ETHFIUSDT"[..3] == "ETH";
    assert "ETHFIUSDT"[5..] == "USDT";
  }

  lemma EthFindsEth()
    ensures ListedBase("ETHUSDT", 0) == Some("ETH")
  {
    assert "ETHUSDT"[..3][0] != "BTC"[0];
    assert "ETHUSDT"[..3] == "ETH";
    assert "ETHUSDT"[3..] == "USDT";
  }

  /** Two different listed symbols name the same local key: ETHFIUSDT is looked up as
      ETH's data, and removing the hyphen does not give it back. */
  lemma ConvertAsWrittenConflates()
    ensures ConvertAsWritten("ETHFIUSDT") == ConvertAsWritten("ETHUSDT") == "ETH-USDT"
    ensures RemoveChar(ConvertAsWritten("ETHFIUSDT"), '-') != "ETHFIUSDT"
  {
    EthFiFindsEth();
    EthFindsEth();
    assert '-' !in "ETHFIUSDT" && '-' !in "ETHUSDT";
    assert "ETH" + "-USDT" == "ETH-USDT";
    assert ConvertAsWritten("ETHFIUSDT") == "ETH-USDT";
    assert ConvertAsWritten("ETHUSDT") == "ETH-USDT";
    assert |RemoveChar("ETH-USDT", '-')| <= |"ETH-USDT"| by { RemoveShorter("ETH-USDT", '-'); }
  }

  lemma {:induction false} RemoveShorter(s: string, c: char)
    ensures |RemoveChar(s, c)| <= |s|
  {
    if s != [] { RemoveShorter(s[1..], c); }
  }

  lemma {:induction false} RemoveAbsent(s: string, c: char)
    requires c !in s
    ensures RemoveChar(s, c) == s
  {
    if s != [] {
      RemoveAbsent(s[1..], c);
      assert s == [s[0]] + s[1..];
    }
  }

  /** The conversion the rule evidently intends: the quote asset is split off, so the
      base is everything before the final USDT. */
  function ConvertToLocalFormat(symbol: string): (r: string)
    ensures '-' in symbol || !EndsWith(symbol, "USDT") ==> r == symbol
  {
    if '-' in symbol then symbol
    else if EndsWith(symbol, "USDT") then symbol[..|symbol| - 4] + "-USDT"
    else symbol
  }

  /** On hyphen-free symbols the conversion is undone by removing the hyphen, so it
      never sends two symbols to one key. */
  lemma ConvertRoundTrip(symbol: string)
    requires '-' !in symbol
    ensures RemoveChar(ConvertToLocalFormat(symbol), '-') == symbol
  {
    if EndsWith(symbol, "USDT") {
      var base := symbol[..|symbol| - 4];
      assert symbol == base + symbol[|symbol| - 4..];
      assert '-' !in base by {
        forall k | 0 <= k < |base| ensures base[k] != '-' { assert base[k] == symbol[k]; }
      }
      calc {
        RemoveChar(ConvertToLocalFormat(symbol), '-');
        RemoveChar(base + "-USDT", '-');
        { RemoveConcat(base, "-USDT", '-'); }
        RemoveChar(base, '-') + RemoveChar("-USDT", '-');
        { RemoveAbsent(base, '-'); RemoveDashUsdt(); }
        base + "USDT";
      }
    } else {
      RemoveAbsent(symbol, '-');
    }
  }

  lemma RemoveDashUsdt()
    ensures RemoveChar("-USDT", '-') == "USDT"
  {
    assert "-USDT"[1..] == "USDT";
    RemoveAbsent("USDT", '-');
  }

  lemma ConvertInjective(a: string, b: string)
    requires '-' !in a && '-' !in b
    requires ConvertToLocalFormat(a) == ConvertToLocalFormat(b)
    ensures a == b
  {
    ConvertRoundTrip(a);
    ConvertRoundTrip(b);
  }

  /** Where the two versions differ: only on a symbol whose listed base prefix is
      followed by more than "USDT". For the listed bases themselves they agree. */
  lemma ConvertVersionsAgree(symbol: string)
    requires ConvertAsWritten(symbol) != ConvertToLocalFormat(symbol)
    ensures '-' !in symbol && ListedBase(symbol, 0).Some?
    ensures symbol != ListedBase(symbol, 0).value + "USDT"
  {
  }

  lemma {:induction false} RemoveConcat(a: string, b: string, c: char)
    ensures RemoveChar(a + b, c) == RemoveChar(a, c) + RemoveChar(b, c)
  {
    if a != [] {
      RemoveConcat(a[1..], b, c);
      assert (a + b)[1..] == a[1..] + b;
      assert (a + b)[0] == a[0];
    } else {
      assert a + b == b;
    }
  }

  // ---------------------------------------------------------------- frames

  const RequiredColumns: seq<string> := ["candle_begin_time", "open", "high", "low", "close", "volume"]

  predicate HasRequired(f: Frame) {
    forall k :: 0 <= k < |RequiredColumns| ==> RequiredColumns[k] in f.columns
  }

  /** `dropna(subset=['open', 'high', 'low', 'close'])` keeps these rows. */
  predicate HasOhlc(r: Row) {
    r.open.Some? && r.high.Some? && r.low.Some? && r.close.Some?
  }

  predicate TimeLe(a: Row, b: Row) {
    a.time <= b.time
  }

  lemma TimeLeIsPreorder()
    ensures TotalPreorder(TimeLe)
  {
  }

  function WithSymbol(r: Row, symbol: string): Row {
    r.(symbol := Some(symbol))
  }

  function WithSymbols(rows: seq<Row>, symbol: string): (r: seq<Row>)
    ensures |r| == |rows|
    ensures forall i :: 0 <= i < |rows| ==> r[i] == WithSymbol(rows[i], symbol)
  {
    if rows == [] then [] else [WithSymbol(rows[0], symbol)] + WithSymbols(rows[1..], symbol)
  }

  /** Rows cleaned and ordered by time. The contract fixes the multiset and the order by
      time only: how rows with equal times are arranged is left open. */
  function SortedComplete(rows: seq<Row>): (r: seq<Row>)
    ensures SortedBy(r, TimeLe) && multiset(r) == multiset(Filter(rows, HasOhlc))
  {
    TimeLeIsPreorder();
    SortBy(Filter(rows, HasOhlc), TimeLe)
  }

  /** `_standardize_dataframe`. */
  function Standardize(f: Frame, symbol: string): Frame {
    if !HasRequired(f) then Frame({}, [])
    else
      var rows := SortedComplete(f.rows);
      if "symbol" in f.columns then Frame(f.columns, rows)
      else Frame(f.columns + {"symbol"}, WithSymbols(rows, symbol))
  }

  /** A frame missing a required column becomes the empty frame; otherwise the rows are
      the complete rows ordered by time, each with a symbol cell (the given symbol when
      the frame had no symbol column), and the count of rows is the count of complete
      rows. */
  lemma StandardizeShape(f: Frame, symbol: string)
    ensures var g := Standardize(f, symbol);
      && (!HasRequired(f) ==> g == Frame({}, []))
      && (HasRequired(f) ==>
            && SortedBy(g.rows, TimeLe)
            && |g.rows| == |Filter(f.rows, HasOhlc)|
            && g.columns == f.columns + {"symbol"}
            && (forall i :: 0 <= i < |g.rows| ==> HasOhlc(g.rows[i]))
            && ("symbol" in f.columns ==> multiset(g.rows) == multiset(Filter(f.rows, HasOhlc)))
            && ("symbol" !in f.columns ==> forall i :: 0 <= i < |g.rows| ==> g.rows[i].symbol == Some(symbol)))
  {
    if HasRequired(f) {
      var rows := SortedComplete(f.rows);
      var kept := Filter(f.rows, HasOhlc);
      assert |rows| == |kept| by {
        assert |multiset(rows)| == |multiset(kept)|;
      }
      forall i | 0 <= i < |rows| ensures HasOhlc(rows[i]) {
        assert rows[i] in multiset(kept);
      }
    }
  }

  /** Rows at or after `start` and before the day after `end`. */
  predicate InDateRange(r: Row, start: Option<int>, end: Option<int>) {
    (start.None? || r.time >= start.value) && (end.None? || r.time < end.value + Day)
  }

  function AfterStartTest(start: int): Row -> bool {
    (r: Row) => r.time >= start
  }

  function BeforeEndTest(end: int): Row -> bool {
    (r: Row) => r.time < end + Day
  }

  function InDateRangeTest(start: Option<int>, end: Option<int>): Row -> bool {
    (r: Row) => InDateRange(r, start, end)
  }

  /** `_filter_by_date_range`: first the start bound, then the end bound, each only
      when given. */
  function FilterByDateRange(f: Frame, start: Option<int>, end: Option<int>): Frame {
    if IsEmpty(f) then f
    else
      var afterStart := if start.Some? then Filter(f.rows, AfterStartTest(start.value)) else f.rows;
      var beforeEnd := if end.Some? then Filter(afterStart, BeforeEndTest(end.value)) else afterStart;
      Frame(f.columns, beforeEnd)
  }

  /** The filter keeps exactly the rows in [start, end + 1 day), in order. */
  lemma FilterByDateRangeKeeps(f: Frame, start: Option<int>, end: Option<int>)
    ensures FilterByDateRange(f, start, end) == Frame(f.columns, Filter(f.rows, InDateRangeTest(start, end)))
    ensures SubsequenceOf(FilterByDateRange(f, start, end).rows, f.rows)
  {
    var inRange := InDateRangeTest(start, end);
    if IsEmpty(f) {
    } else if start.Some? && end.Some? {
      FilterFilter(f.rows, AfterStartTest(start.value), BeforeEndTest(end.value), inRange);
    } else if start.Some? {
      FilterSameTest(f.rows, AfterStartTest(start.value), inRange);
    } else if end.Some? {
      FilterSameTest(f.rows, BeforeEndTest(end.value), inRange);
    } else {
      FilterAll(f.rows, inRange);
    }
    FilterIsSubsequence(f.rows, inRange);
  }

  /** The frame stored under `key`, standardised for `symbol` and date-filtered when a
      bound is given; `None` when the market's dictionary lacks the key. */
  function DataUnderKey(store: Store, key: string, symbol: string, market: string, start: Option<int>, end: Option<int>)
    : Option<Frame>
  {
    var data := if market == "spot" then store.spot else store.swap;
    if key !in data then None
    else
      var df := Standardize(data[key], symbol);
      Some(if start.Some? || end.Some? then FilterByDateRange(df, start, end) else df)
  }

  /** `get_symbol_data` as written: the key is `_convert_to_local_format`'s, so a symbol
      with a listed base prefix reads that base's data. */
  function GetSymbolData(store: Store, symbol: string, market: string, start: Option<int>, end: Option<int>)
    : Option<Frame>
  {
    DataUnderKey(store, ConvertAsWritten(symbol), symbol, market, start, end)
  }

  /** The lookup with the corrected conversion. */
  function CorrectedSymbolData(store: Store, symbol: string, market: string, start: Option<int>, end: Option<int>)
    : Option<Frame>
  {
    DataUnderKey(store, ConvertToLocalFormat(symbol), symbol, market, start, end)
  }

  /** The data is found exactly when the as-written key is in the market's dictionary,
      and without bounds it is that entry standardised for the requested symbol. */
  lemma GetSymbolDataFound(store: Store, symbol: string, market: string, start: Option<int>, end: Option<int>)
    ensures var data := if market == "spot" then store.spot else store.swap;
      var r := GetSymbolData(store, symbol, market, start, end);
      && (r.Some? <==> ConvertAsWritten(symbol) in data)
      && (r.Some? && start.None? && end.None? ==> r.value == Standardize(data[ConvertAsWritten(symbol)], symbol))
  {
  }

  /** The two lookups differ only for the symbols on which the conversions differ. */
  lemma LookupsAgree(store: Store, symbol: string, market: string, start: Option<int>, end: Option<int>)
    requires ConvertAsWritten(symbol) == ConvertToLocalFormat(symbol)
    ensures GetSymbolData(store, symbol, market, start, end) == CorrectedSymbolData(store, symbol, market, start, end)
  {
  }

  /** A store holding only ETH's spot data answers a request for ETHFIUSDT with that
      data; the corrected lookup finds nothing. */
  lemma LookupConflates(f: Frame)
    ensures var store := Store(map["ETH-USDT" := f], map[]);
      GetSymbolData(store, "ETHFIUSDT", "spot", None, None) == Some(Standardize(f, "ETHFIUSDT"))
      && CorrectedSymbolData(store, "ETHFIUSDT", "spot", None, None).None?
  {
    var store := Store(map["ETH-USDT" := f], map[]);
    assert ConvertAsWritten("ETHFIUSDT") == "ETH-USDT" by { ConvertAsWrittenConflates(); }
    assert ConvertToLocalFormat("ETHFIUSDT") == "ETHFI-USDT" by { EthFiCorrected(); }
    assert "ETHFI-USDT" !in store.spot by { assert "ETHFI-USDT"[3] != "ETH-USDT"[3]; }
  }

  lemma EthFiCorrected()
    ensures ConvertToLocalFormat("ETHFIUSDT") == "ETHFI-USDT"
  {
    assert '-' !in "ETHFIUSDT";
    assert "ETHFIUSDT"[5..] == "USDT";
    assert "ETHFIUSDT"[..5] == "ETHFI";
    assert "ETHFI" + "-USDT" == "ETHFI-USDT";
  }

  predicate HasRows(df: Option<Frame>) {
    df.Some? && !IsEmpty(df.value)
  }

  /** Spot data first; swap data only when the spot lookup is missing or empty. */
  function PreferSpot(store: Store, symbol: string, start: Option<int>, end: Option<int>)
    : (r: (Option<Frame>, string))
    ensures r.1 == "spot" <==> HasRows(GetSymbolData(store, symbol, "spot", start, end))
    ensures r.1 == "spot" ==> r.0 == GetSymbolData(store, symbol, "spot", start, end)
    ensures r.1 != "spot" ==> r.1 == "swap" && r.0 == GetSymbolData(store, symbol, "swap", start, end)
  {
    var spot := GetSymbolData(store, symbol, "spot", start, end);
    if !HasRows(spot) then (GetSymbolData(store, symbol, "swap", start, end), "swap") else (spot, "spot")
  }

  // ---------------------------------------------------------------- listing

  /** The keys `get_available_symbols` collects for a market type. */
  function MarketKeys(store: Store, market: string): set<string> {
    (if market == "spot" || market == "all" then store.spot.Keys else {})
    + (if market == "swap" || market == "all" then store.swap.Keys else {})
  }

  function StandardSymbols(store: Store, market: string): set<string> {
    set k | k in MarketKeys(store, market) :: RemoveChar(k, '-')
  }

  lemma LexLeIsPreorder()
    ensures TotalPreorder(LexLe)
  {
    forall a, b ensures LexLe(a, b) || LexLe(b, a) { LexLeTotal(a, b); }
    forall a, b, c | LexLe(a, b) && LexLe(b, c) ensures LexLe(a, c) { LexLeTransitive(a, b, c); }
  }

  /** The loop turning the collected keys into their hyphen-free names. */
  method StandardNames(symbols: set<string>) returns (standard: set<string>)
    ensures standard == set k | k in symbols :: RemoveChar(k, '-')
  {
    standard := {};
    var todo := symbols;
    while todo != {}
      invariant todo <= symbols
      invariant standard == set k | k in symbols - todo :: RemoveChar(k, '-')
      decreases |todo|
    {
      var k :| k in todo;
      ghost var done := symbols - todo;
      assert symbols - (todo - {k}) == done + {k};
      standard := standard + {RemoveChar(k, '-')};
      todo := todo - {k};
      assert standard == set k' | k' in done + {k} :: RemoveChar(k', '-') by {
        forall y | y in set k' | k' in done + {k} :: RemoveChar(k', '-') ensures y in standard {
          var k' :| k' in done + {k} && RemoveChar(k', '-') == y;
          if k' != k { assert y in set k'' | k'' in done :: RemoveChar(k'', '-'); }
        }
      }
    }
  }

  /** `sorted(...)` of a set of names. */
  method SortedNames(names: set<string>) returns (r: seq<string>)
    ensures SortedBy(r, LexLe) && Distinct(r)
    ensures forall s :: s in r <==> s in names
  {
    LexLeIsPreorder();
    r := [];
    var rest := names;
    while rest != {}
      invariant rest <= names
      invariant SortedBy(r, LexLe) && Distinct(r)
      invariant forall s :: s in r <==> s in names && s !in rest
      decreases |rest|
    {
      var x :| x in rest;
      InsertSorted(x, r, LexLe);
      InsertDistinct(x, r, LexLe);
      InsertPermutes(x, r, LexLe);
      assert forall s :: s in Insert(x, r, LexLe) <==> s in multiset(r) + multiset{x};
      r := Insert(x, r, LexLe);
      rest := rest - {x};
    }
  }

  /** `get_available_symbols`: the hyphen-free names of the requested market's keys,
      sorted and without duplicates. */
  method AvailableSymbols(store: Store, market: string) returns (r: seq<string>)
    ensures SortedBy(r, LexLe) && Distinct(r)
    ensures forall s :: s in r <==> s in StandardSymbols(store, market)
  {
    var standard := StandardNames(MarketKeys(store, market));
    r := SortedNames(standard);
  }

  /** Every listed name is hyphen-free and comes from a key of the requested market. */
  lemma AvailableSymbolsSource(store: Store, market: string, s: string)
    requires s in StandardSymbols(store, market)
    ensures '-' !in s
    ensures exists k :: k in MarketKeys(store, market) && RemoveChar(k, '-') == s
    ensures market == "spot" || market == "swap" || market == "all"
  {
  }

  // ---------------------------------------------------------------- availability

  predicate HasClose(r: Row) {
    r.close.Some?
  }

  /** `len(df.dropna(subset=['close']))` */
  function ValidRecords(f: Frame): nat {
    |Filter(f.rows, HasClose)|
  }

  datatype Quality = Good | Acceptable | Insufficient

  datatype QualityRecord = QualityRecord(market: string, records: nat, quality: Quality)

  /** The two advisory messages: the first five short symbols, and a hint to change
      the range or the symbols. */
  datatype Recommendation = ShortOfData(symbols: seq<string>) | AdjustRange

  datatype Availability = Availability(
    total: nat, available: seq<string>, unavailable: seq<string>,
    quality: map<string, QualityRecord>, recommendations: seq<Recommendation>)

  /** The quality entry of one symbol, `None` when neither market has rows for it. */
  function Assess(store: Store, symbol: string, start: Option<int>, end: Option<int>, minRecords: int)
    : Option<QualityRecord>
  {
    var (df, market) := PreferSpot(store, symbol, start, end);
    if !HasRows(df) then None
    else
      var n := ValidRecords(df.value);
      Some(QualityRecord(market, n,
        if n >= minRecords then (if n as real >= minRecords as real * 1.5 then Good else Acceptable)
        else Insufficient))
  }

  predicate Available(store: Store, symbol: string, start: Option<int>, end: Option<int>, minRecords: int) {
    var q := Assess(store, symbol, start, end, minRecords);
    q.Some? && q.value.records >= minRecords
  }

  function AvailableTest(store: Store, start: Option<int>, end: Option<int>, minRecords: int): string -> bool {
    s => Available(store, s, start, end, minRecords)
  }

  function UnavailableTest(store: Store, start: Option<int>, end: Option<int>, minRecords: int): string -> bool {
    s => !Available(store, s, start, end, minRecords)
  }

  function AssessFn(store: Store, start: Option<int>, end: Option<int>, minRecords: int): string -> Option<QualityRecord> {
    s => Assess(store, s, start, end, minRecords)
  }

  /** The listed keys on which `f` gives a value, each mapped to that value. */
  function Defined<V>(keys: seq<string>, f: string -> Option<V>): map<string, V> {
    map s | s in keys && f(s).Some? :: f(s).value
  }

  lemma DefinedSnoc<V>(keys: seq<string>, k: string, f: string -> Option<V>)
    ensures Defined(keys + [k], f) == if f(k).Some? then Defined(keys, f)[k := f(k).value] else Defined(keys, f)
  {
    var after := Defined(keys + [k], f);
    var expected := if f(k).Some? then Defined(keys, f)[k := f(k).value] else Defined(keys, f);
    assert forall x :: x in keys + [k] <==> x in keys || x == k;
    assert after.Keys == expected.Keys;
  }

  function QualityMap(store: Store, symbols: seq<string>, start: Option<int>, end: Option<int>, minRecords: int)
    : map<string, QualityRecord>
  {
    Defined(symbols, AssessFn(store, start, end, minRecords))
  }

  function Recommendations(total: nat, available: seq<string>, unavailable: seq<string>): seq<Recommendation> {
    (if unavailable != [] then [ShortOfData(unavailable[..if |unavailable| < 5 then |unavailable| else 5])] else [])
    + (if (|available| as real) < total as real * 0.5 then [AdjustRange] else [])
  }

  /** What `check_data_availability` reports. */
  function AvailabilityOf(store: Store, symbols: seq<string>, start: Option<int>, end: Option<int>, minRecords: int)
    : Availability
  {
    var available := Filter(symbols, AvailableTest(store, start, end, minRecords));
    var unavailable := Filter(symbols, UnavailableTest(store, start, end, minRecords));
    Availability(|symbols|, available, unavailable, QualityMap(store, symbols, start, end, minRecords),
                 Recommendations(|symbols|, available, unavailable))
  }

  lemma QualityMapSnoc(store: Store, prefix: seq<string>, symbol: string, start: Option<int>, end: Option<int>,
                       minRecords: int)
    ensures var q := Assess(store, symbol, start, end, minRecords);
      QualityMap(store, prefix + [symbol], start, end, minRecords)
      == if q.Some? then QualityMap(store, prefix, start, end, minRecords)[symbol := q.value]
         else QualityMap(store, prefix, start, end, minRecords)
  {
    DefinedSnoc(prefix, symbol, AssessFn(store, start, end, minRecords));
  }

  lemma QualityMapAt(store: Store, symbols: seq<string>, i: int, start: Option<int>, end: Option<int>, minRecords: int)
    requires 0 <= i < |symbols|
    ensures var q := Assess(store, symbols[i], start, end, minRecords);
      QualityMap(store, symbols[..i + 1], start, end, minRecords)
      == if q.Some? then QualityMap(store, symbols[..i], start, end, minRecords)[symbols[i] := q.value]
         else QualityMap(store, symbols[..i], start, end, minRecords)
  {
    assert symbols[..i + 1] == symbols[..i] + [symbols[i]];
    QualityMapSnoc(store, symbols[..i], symbols[i], start, end, minRecords);
  }

  /** One symbol's step of `check_data_availability`: spot first, then swap; no entry
      without rows; otherwise the count of valid rows rated against `minRecords`. */
  method AssessOne(store: Store, symbol: string, start: Option<int>, end: Option<int>, minRecords: int)
    returns (q: Option<QualityRecord>)
    ensures q == Assess(store, symbol, start, end, minRecords)
  {
    var (df, market) := PreferSpot(store, symbol, start, end);
    if !HasRows(df) {
      return None;
    }
    var validRecords := ValidRecords(df.value);
    if validRecords >= minRecords {
      q := Some(QualityRecord(market, validRecords,
        if validRecords as real >= minRecords as real * 1.5 then Good else Acceptable));
    } else {
      q := Some(QualityRecord(market, validRecords, Insufficient));
    }
  }

  /** The per-symbol loop of `check_data_availability`. */
  method Classify(store: Store, symbols: seq<string>, start: Option<int>, end: Option<int>, minRecords: int)
    returns (available: seq<string>, unavailable: seq<string>, quality: map<string, QualityRecord>)
    ensures available == Filter(symbols, AvailableTest(store, start, end, minRecords))
    ensures unavailable == Filter(symbols, UnavailableTest(store, start, end, minRecords))
    ensures quality == QualityMap(store, symbols, start, end, minRecords)
  {
    var isAvailable := AvailableTest(store, start, end, minRecords);
    var isUnavailable := UnavailableTest(store, start, end, minRecords);
    available, unavailable, quality := [], [], map[];
    for i := 0 to |symbols|
      invariant available == Filter(symbols[..i], isAvailable)
      invariant unavailable == Filter(symbols[..i], isUnavailable)
      invariant quality == QualityMap(store, symbols[..i], start, end, minRecords)
    {
      var symbol := symbols[i];
      FilterAt(symbols, i, isAvailable);
      FilterAt(symbols, i, isUnavailable);
      QualityMapAt(store, symbols, i, start, end, minRecords);
      var q := AssessOne(store, symbol, start, end, minRecords);
      if q.None? {
        unavailable := unavailable + [symbol];
        continue;
      }
      if q.value.records >= minRecords {
        available := available + [symbol];
      } else {
        unavailable := unavailable + [symbol];
      }
      quality := quality[symbol := q.value];
    }
    assert symbols[..|symbols|] == symbols;
  }

  /** `check_data_availability`. */
  method CheckDataAvailability(store: Store, symbols: seq<string>, start: Option<int>, end: Option<int>,
                               minRecords: int) returns (r: Availability)
    ensures r == AvailabilityOf(store, symbols, start, end, minRecords)
  {
    var available, unavailable, quality := Classify(store, symbols, start, end, minRecords);
    var recommendations: seq<Recommendation> := [];
    if unavailable != [] {
      recommendations := recommendations + [ShortOfData(unavailable[..if |unavailable| < 5 then |unavailable| else 5])];
    }
    if (|available| as real) < |symbols| as real * 0.5 {
      recommendations := recommendations + [AdjustRange];
    }
    r := Availability(|symbols|, available, unavailable, quality, recommendations);
  }

  /** An entry is rated good iff it has at least 1.5 times `minRecords` valid rows (and at
      least `minRecords`), insufficient iff it has fewer than `minRecords`, and its market is
      spot whenever spot has rows. */
  lemma AssessRates(store: Store, s: string, start: Option<int>, end: Option<int>, minRecords: int)
    ensures var q := Assess(store, s, start, end, minRecords);
      q.Some? ==>
        && (q.value.quality == Good <==> q.value.records as real >= minRecords as real * 1.5 && q.value.records >= minRecords)
        && (q.value.quality == Insufficient <==> q.value.records < minRecords)
        && (q.value.market == "spot" <==> HasRows(GetSymbolData(store, s, "spot", start, end)))
  {
  }

  /** The quality map holds the assessment of every listed symbol that has one. */
  lemma QualityMapEntry(store: Store, symbols: seq<string>, s: string, start: Option<int>, end: Option<int>, minRecords: int)
    ensures var q := Assess(store, s, start, end, minRecords);
      var m := QualityMap(store, symbols, start, end, minRecords);
      (s in m <==> s in symbols && q.Some?) && (s in m ==> m[s] == q.value)
  {
  }

  /** Each symbol is in exactly one of the two lists (input order kept); an available
      symbol has at least `minRecords` valid rows and is rated good iff it has at least
      1.5 times as many; the market is spot whenever spot has rows. */
  lemma AvailabilityClassifies(store: Store, symbols: seq<string>, start: Option<int>, end: Option<int>,
                               minRecords: int, s: string)
    ensures var a := AvailabilityOf(store, symbols, start, end, minRecords);
      && multiset(a.available) + multiset(a.unavailable) == multiset(symbols)
      && (s in a.available ==> s in a.quality && a.quality[s].records >= minRecords && a.quality[s].quality != Insufficient)
      && (s in a.quality ==> (a.quality[s].quality == Good <==> a.quality[s].records as real >= minRecords as real * 1.5 && a.quality[s].records >= minRecords))
      && (s in a.quality ==> (a.quality[s].market == "spot" <==> HasRows(GetSymbolData(store, s, "spot", start, end))))
      && (s in symbols && s !in a.quality ==> s in a.unavailable)
  {
    var isAvailable := AvailableTest(store, start, end, minRecords);
    var isUnavailable := UnavailableTest(store, start, end, minRecords);
    var available := Filter(symbols, isAvailable);
    var unavailable := Filter(symbols, isUnavailable);
    FilterPartition(symbols, isAvailable, isUnavailable);
    AssessRates(store, s, start, end, minRecords);
    QualityMapEntry(store, symbols, s, start, end, minRecords);
    if s in available {
      assert isAvailable(s);
    }
    if s in symbols && !Available(store, s, start, end, minRecords) {
      assert isUnavailable(s);
      assert s in unavailable;
    }
  }

  // ---------------------------------------------------------------- common time range

  /** `strftime('%Y-%m-%d')` read back by `to_datetime`: the start of the day. */
  function DayFloor(t: int): (r: int)
    ensures r <= t < r + Day && r % Day == 0
  {
    t - t % Day
  }

  function MinTime(rows: seq<Row>): int
    requires rows != []
  {
    if |rows| == 1 then rows[0].time
    else var m := MinTime(rows[1..]); if rows[0].time < m then rows[0].time else m
  }

  function MaxTime(rows: seq<Row>): int
    requires rows != []
  {
    if |rows| == 1 then rows[0].time
    else var m := MaxTime(rows[1..]); if rows[0].time > m then rows[0].time else m
  }

  lemma {:induction false} TimeBounds(rows: seq<Row>)
    requires rows != []
    ensures forall k :: 0 <= k < |rows| ==> MinTime(rows) <= rows[k].time <= MaxTime(rows)
  {
    if |rows| > 1 {
      TimeBounds(rows[1..]);
      forall k | 1 <= k < |rows| ensures MinTime(rows) <= rows[k].time <= MaxTime(rows) {
        assert rows[k] == rows[1..][k - 1];
      }
    }
  }

  /** A standardised frame from the store has only complete rows. */
  lemma StoredRowsComplete(store: Store, symbol: string, market: string)
    requires GetSymbolData(store, symbol, market, None, None).Some?
    ensures var f := GetSymbolData(store, symbol, market, None, None).value;
      Filter(f.rows, HasClose) == f.rows
  {
    var data := if market == "spot" then store.spot else store.swap;
    var f := Standardize(data[ConvertAsWritten(symbol)], symbol);
    StandardizeShape(data[ConvertAsWritten(symbol)], symbol);
    FilterAll(f.rows, HasClose);
  }

  /** `get_data_info`'s availability and day range (first and last day with a close). */
  function DataRange(store: Store, symbol: string, market: string): Option<(int, int)> {
    var df := GetSymbolData(store, symbol, market, None, None);
    if !HasRows(df) then None
    else
      var valid := Filter(df.value.rows, HasClose);
      StoredRowsComplete(store, symbol, market);
      Some((DayFloor(MinTime(valid)), DayFloor(MaxTime(valid))))
  }

  /** The day range of a symbol, from spot data when spot has it, else from swap. */
  function SymbolRange(store: Store, symbol: string): Option<(int, int)> {
    var spot := DataRange(store, symbol, "spot");
    if spot.Some? then spot else DataRange(store, symbol, "swap")
  }

  /** The ranges of the symbols that have data, in symbol order. */
  function Ranges(store: Store, symbols: seq<string>): (r: seq<(int, int)>)
    ensures r == [] <==> forall k :: 0 <= k < |symbols| ==> SymbolRange(store, symbols[k]).None?
  {
    if symbols == [] then []
    else
      var init := Ranges(store, symbols[..|symbols| - 1]);
      var q := SymbolRange(store, symbols[|symbols| - 1]);
      assert forall k :: 0 <= k < |symbols| - 1 ==> symbols[k] == symbols[..|symbols| - 1][k];
      init + (if q.Some? then [q.value] else [])
  }

  function MaxStart(rs: seq<(int, int)>): int
    requires rs != []
  {
    if |rs| == 1 then rs[0].0 else var m := MaxStart(rs[1..]); if rs[0].0 > m then rs[0].0 else m
  }

  function MinEnd(rs: seq<(int, int)>): int
    requires rs != []
  {
    if |rs| == 1 then rs[0].1 else var m := MinEnd(rs[1..]); if rs[0].1 < m then rs[0].1 else m
  }

  /** The common range starts at the latest start and ends at the earliest end. */
  lemma {:induction false} CommonRangeBounds(rs: seq<(int, int)>)
    requires rs != []
    ensures forall k :: 0 <= k < |rs| ==> rs[k].0 <= MaxStart(rs) && MinEnd(rs) <= rs[k].1
    ensures exists k :: 0 <= k < |rs| && rs[k].0 == MaxStart(rs)
    ensures exists k :: 0 <= k < |rs| && rs[k].1 == MinEnd(rs)
  {
    if |rs| > 1 {
      CommonRangeBounds(rs[1..]);
      forall k | 1 <= k < |rs| ensures rs[k].0 <= MaxStart(rs) && MinEnd(rs) <= rs[k].1 {
        assert rs[k] == rs[1..][k - 1];
      }
      var i :| 0 <= i < |rs[1..]| && rs[1..][i].0 == MaxStart(rs[1..]);
      var j :| 0 <= j < |rs[1..]| && rs[1..][j].1 == MinEnd(rs[1..]);
      assert rs[i + 1] == rs[1..][i] && rs[j + 1] == rs[1..][j];
    }
  }

  /** The requested range clamped to the common one; the common range itself when the
      clamp leaves nothing. */
  function Adjusted(commonStart: int, commonEnd: int, requestedStart: int, requestedEnd: int): (int, int) {
    var s := if commonStart > requestedStart then commonStart else requestedStart;
    var e := if commonEnd < requestedEnd then commonEnd else requestedEnd;
    if e <= s then (commonStart, commonEnd) else (s, e)
  }

  /** Either the suggestion is a non-empty range inside both the common and the
      requested range, or it is the common range and their intersection is empty. */
  lemma AdjustedIsClamp(commonStart: int, commonEnd: int, requestedStart: int, requestedEnd: int)
    ensures var (s, e) := Adjusted(commonStart, commonEnd, requestedStart, requestedEnd);
      || (s < e && commonStart <= s && requestedStart <= s && e <= commonEnd && e <= requestedEnd
          && (s == commonStart || s == requestedStart) && (e == commonEnd || e == requestedEnd))
      || ((s, e) == (commonStart, commonEnd)
          && (commonEnd <= requestedStart || requestedEnd <= commonStart || commonEnd <= commonStart
              || requestedEnd <= requestedStart))
  {
  }

  /** A symbol passes when the chosen market (spot first) has at least `minRecords`
      rows inside the adjusted day range. */
  predicate Passes(store: Store, symbol: string, range: (int, int), minRecords: int) {
    var df := PreferSpot(store, symbol, Some(DayFloor(range.0)), Some(DayFloor(range.1))).0;
    df.Some? && |df.value.rows| >= minRecords
  }

  function PassTest(store: Store, range: (int, int), minRecords: int): string -> bool {
    s => Passes(store, s, range, minRecords)
  }

  datatype RangeReport =
    | NoData
    | Suggested(success: bool, requested: (int, int), suggested: (int, int),
                available: seq<string>, unavailable: seq<string>, coverage: real)

  /** What `get_intelligent_time_range` reports. */
  function IntelligentRange(store: Store, symbols: seq<string>, requestedStart: int, requestedEnd: int,
                            minRecords: int): RangeReport
  {
    var rs := Ranges(store, symbols);
    if rs == [] then NoData
    else
      var (s, e) := Adjusted(MaxStart(rs), MinEnd(rs), requestedStart, requestedEnd);
      var final := Filter(symbols, PassTest(store, (s, e), minRecords));
      Suggested(|final| > 0, (requestedStart, requestedEnd), (DayFloor(s), DayFloor(e)), final,
                Filter(symbols, (x: string) => x !in final), |final| as real / |symbols| as real)
  }

  lemma RangesAt(store: Store, symbols: seq<string>, i: int)
    requires 0 <= i < |symbols|
    ensures var q := SymbolRange(store, symbols[i]);
      Ranges(store, symbols[..i + 1]) == Ranges(store, symbols[..i]) + (if q.Some? then [q.value] else [])
  {
    assert symbols[..i + 1][..i] == symbols[..i];
    assert symbols[..i + 1][i] == symbols[i];
  }

  /** The loop collecting each symbol's day range. */
  method CollectRanges(store: Store, symbols: seq<string>) returns (rs: seq<(int, int)>)
    ensures rs == Ranges(store, symbols)
  {
    rs := [];
    for i := 0 to |symbols|
      invariant rs == Ranges(store, symbols[..i])
    {
      RangesAt(store, symbols, i);
      var info := DataRange(store, symbols[i], "spot");
      if info.None? {
        info := DataRange(store, symbols[i], "swap");
      }
      assert info == SymbolRange(store, symbols[i]);
      if info.Some? {
        rs := rs + [info.value];
      }
    }
    assert symbols[..|symbols|] == symbols;
  }

  /** One symbol's re-check: spot data over the adjusted range, swap data when spot has
      none, and at least `minRecords` rows. */
  method CheckPasses(store: Store, symbol: string, range: (int, int), minRecords: int) returns (passes: bool)
    ensures passes == Passes(store, symbol, range, minRecords)
  {
    var df := GetSymbolData(store, symbol, "spot", Some(DayFloor(range.0)), Some(DayFloor(range.1)));
    if df.None? || IsEmpty(df.value) {
      df := GetSymbolData(store, symbol, "swap", Some(DayFloor(range.0)), Some(DayFloor(range.1)));
    }
    passes := df.Some? && |df.value.rows| >= minRecords;
  }

  /** The loop re-checking every symbol over the adjusted range. */
  method PassingSymbols(store: Store, symbols: seq<string>, range: (int, int), minRecords: int)
    returns (final: seq<string>)
    ensures final == Filter(symbols, PassTest(store, range, minRecords))
  {
    final := [];
    for i := 0 to |symbols|
      invariant final == Filter(symbols[..i], PassTest(store, range, minRecords))
    {
      FilterAt(symbols, i, PassTest(store, range, minRecords));
      var passes := CheckPasses(store, symbols[i], range, minRecords);
      if passes {
        final := final + [symbols[i]];
      }
    }
    assert symbols[..|symbols|] == symbols;
  }

  /** `get_intelligent_time_range`. */
  method GetIntelligentTimeRange(store: Store, symbols: seq<string>, requestedStart: int, requestedEnd: int,
                                 minRecords: int) returns (r: RangeReport)
    ensures r == IntelligentRange(store, symbols, requestedStart, requestedEnd, minRecords)
  {
    var rs := CollectRanges(store, symbols);
    if rs == [] {
      return NoData;
    }
    var commonStart, commonEnd := MaxStart(rs), MinEnd(rs);
    var adjustedStart := if commonStart > requestedStart then commonStart else requestedStart;
    var adjustedEnd := if commonEnd < requestedEnd then commonEnd else requestedEnd;
    if adjustedEnd <= adjustedStart {
      adjustedStart, adjustedEnd := commonStart, commonEnd;
    }
    assert (adjustedStart, adjustedEnd) == Adjusted(commonStart, commonEnd, requestedStart, requestedEnd);
    var final := PassingSymbols(store, symbols, (adjustedStart, adjustedEnd), minRecords);
    r := Suggested(|final| > 0, (requestedStart, requestedEnd), (DayFloor(adjustedStart), DayFloor(adjustedEnd)),
                   final, Filter(symbols, (x: string) => x !in final), |final| as real / |symbols| as real);
  }

  lemma ShareInUnit(n: nat, m: nat)
    requires 0 < m && n <= m
    ensures 0.0 <= n as real / m as real <= 1.0
  {
    var c := n as real / m as real;
    assert c * m as real == n as real;
  }

  /** The symbols not passing, written as `[s for s in symbols if s not in final]`,
      are those failing the test. */
  lemma RestFails(symbols: seq<string>, pass: string -> bool)
    ensures var final := Filter(symbols, pass);
      multiset(final) + multiset(Filter(symbols, (x: string) => x !in final)) == multiset(symbols)
  {
    var final := Filter(symbols, pass);
    var fails := (x: string) => !pass(x);
    forall i | 0 <= i < |symbols| ensures (symbols[i] !in final) == fails(symbols[i]) {
    }
    FilterCongruent(symbols, (x: string) => x !in final, fails);
    FilterPartition(symbols, pass, fails);
  }

  /** With no data for any symbol the report is the failure; otherwise the lists split
      the symbols into passing and failing ones, success means some symbol passes, and
      the coverage is their share, between 0 and 1. */
  lemma IntelligentRangeReport(store: Store, symbols: seq<string>, requestedStart: int, requestedEnd: int,
                               minRecords: int)
    ensures var r := IntelligentRange(store, symbols, requestedStart, requestedEnd, minRecords);
      && (r == NoData <==> forall k :: 0 <= k < |symbols| ==> SymbolRange(store, symbols[k]).None?)
      && (r.Suggested? ==>
            && multiset(r.available) + multiset(r.unavailable) == multiset(symbols)
            && (r.success <==> r.available != [])
            && 0.0 <= r.coverage <= 1.0)
  {
    var rs := Ranges(store, symbols);
    if rs != [] {
      var range := Adjusted(MaxStart(rs), MinEnd(rs), requestedStart, requestedEnd);
      var pass := PassTest(store, range, minRecords);
      RestFails(symbols, pass);
      var n, m := |Filter(symbols, pass)|, |symbols|;
      assert 0 < m && n <= m;
      ShareInUnit(n, m);
    }
  }
}
