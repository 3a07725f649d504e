/** Download-prefix and local-path construction of the Binance data downloader
    (bn_data/core/common.py). */
module Common {
  import opened Wrappers
  import opened Strs
  import Symbols

  /** The bucket root: USD-M futures for "swap", spot otherwise. */
  function TradingTypePath(tradingType: string): string {
    if tradingType == "swap" then "data/futures/um" else "data/spot"
  }

  /** `get_download_prefix`: root/period/type/SYMBOL/interval/ */
  function DownloadPrefix(tradingType: string, marketDataType: string, timePeriod: string, symbol: string,
                          interval: string): (r: string)
    ensures EndsWith(r, "/")
  {
    TradingTypePath(tradingType) + "/" + timePeriod + "/" + marketDataType + "/" + Upper(symbol) + "/" + interval + "/"
  }

  /** The root as "/"-separated pieces. */
  function RootPieces(tradingType: string): seq<string> {
    if tradingType == "swap" then ["data", "futures", "um"] else ["data", "spot"]
  }

  lemma RootSplits(tradingType: string)
    ensures Split(TradingTypePath(tradingType), '/') == RootPieces(tradingType)
  {
    var data, futures, um, spot := "data", "futures", "um", "spot";
    SplitFree(data, '/');
    if tradingType == "swap" {
      assert TradingTypePath(tradingType) == data + "/" + futures + "/" + um;
      SplitSnoc(data, futures, '/');
      SplitSnoc(data + "/" + futures, um, '/');
      assert [data] + [futures] + [um] == [data, futures, um];
    } else {
      assert TradingTypePath(tradingType) == data + "/" + spot;
      SplitSnoc(data, spot, '/');
      assert [data] + [spot] == [data, spot];
    }
  }

  lemma UpperKeepsSlashFree(symbol: string)
    requires '/' !in symbol
    ensures '/' !in Upper(symbol)
  {
    var up := Upper(symbol);
    forall k | 0 <= k < |up| ensures up[k] != '/' {
      assert symbol[k] != '/';
    }
  }

  lemma AppendFive<T>(r: seq<T>, a: T, b: T, c: T, d: T, e: T)
    ensures r + [a] + [b] + [c] + [d] + [e] == r + [a, b, c, d, e]
  {
  }

  /** Splitting a download prefix on "/" gives back the pieces it was built from. */
  lemma DownloadPrefixPieces(tradingType: string, marketDataType: string, timePeriod: string,
                             symbol: string, interval: string)
    requires '/' !in timePeriod && '/' !in marketDataType && '/' !in symbol && '/' !in interval
    ensures Split(DownloadPrefix(tradingType, marketDataType, timePeriod, symbol, interval), '/')
         == RootPieces(tradingType) + [timePeriod, marketDataType, Upper(symbol), interval, ""]
  {
    var up := Upper(symbol);
    UpperKeepsSlashFree(symbol);
    var root := TradingTypePath(tradingType);
    RootSplits(tradingType);
    var p1 := root + "/" + timePeriod;
    var p2 := p1 + "/" + marketDataType;
    var p3 := p2 + "/" + up;
    var p4 := p3 + "/" + interval;
    var p5 := p4 + "/" + "";
    SplitSnoc(root, timePeriod, '/');
    SplitSnoc(p1, marketDataType, '/');
    SplitSnoc(p2, up, '/');
    SplitSnoc(p3, interval, '/');
    SplitSnoc(p4, "", '/');
    AppendFive(RootPieces(tradingType), timePeriod, marketDataType, up, interval, "");
    assert p5 == DownloadPrefix(tradingType, marketDataType, timePeriod, symbol, interval);
  }

  /** Cut after its symbol piece, a download prefix is a listing prefix naming the
      upper-cased symbol. */
  lemma DownloadPrefixNamesSymbol(tradingType: string, marketDataType: string, timePeriod: string,
                                  symbol: string)
    requires '/' !in timePeriod && '/' !in marketDataType && '/' !in symbol
    ensures Symbols.SymbolFromPrefix(TradingTypePath(tradingType) + "/" + timePeriod + "/" + marketDataType
                                     + "/" + Upper(symbol) + "/") == Upper(symbol)
  {
    var up := Upper(symbol);
    UpperKeepsSlashFree(symbol);
    var root := TradingTypePath(tradingType);
    RootSplits(tradingType);
    SplitSnoc(root, timePeriod, '/');
    SplitSnoc(root + "/" + timePeriod, marketDataType, '/');
    SplitSnoc(root + "/" + timePeriod + "/" + marketDataType, up, '/');
    SplitSnoc(root + "/" + timePeriod + "/" + marketDataType + "/" + up, "", '/');
    assert root + "/" + timePeriod + "/" + marketDataType + "/" + up + "/" + ""
        == root + "/" + timePeriod + "/" + marketDataType + "/" + up + "/";
  }

  /** `os.path.join(a, b)` on POSIX: an absolute `b` replaces `a`; otherwise one "/" is
      inserted unless `a` is empty or already ends in "/". */
  function PathJoin(a: string, b: string): string {
    if StartsWith(b, "/") then b
    else if a == [] || EndsWith(a, "/") then a + b
    else a + "/" + b
  }

  /** The interval defaults to "5m". */
  function IntervalOrDefault(interval: Option<string>): string {
    if interval.Some? then interval.value else "5m"
  }

  /** `get_local_path`: root/(type_interval)/(period_datatype)[/SYMBOL], the symbol
      piece only for a non-empty symbol (`None` and "" are both falsy). */
  function LocalPath(rootPath: string, tradingType: string, marketDataType: string, timePeriod: string,
                     symbol: Option<string>, interval: Option<string>): string
  {
    var folder := tradingType + "_" + IntervalOrDefault(interval);
    var path := PathJoin(PathJoin(rootPath, folder), timePeriod + "_" + marketDataType);
    if symbol.Some? && symbol.value != "" then PathJoin(path, Upper(symbol.value)) else path
  }

  /** With a symbol, the path is the path without one joined to the upper-cased symbol. */
  lemma LocalPathWithSymbol(rootPath: string, tradingType: string, marketDataType: string, timePeriod: string,
                            symbol: string, interval: Option<string>)
    requires symbol != ""
    ensures LocalPath(rootPath, tradingType, marketDataType, timePeriod, Some(symbol), interval)
         == PathJoin(LocalPath(rootPath, tradingType, marketDataType, timePeriod, None, interval), Upper(symbol))
    ensures LocalPath(rootPath, tradingType, marketDataType, timePeriod, Some(""), interval)
         == LocalPath(rootPath, tradingType, marketDataType, timePeriod, None, interval)
  {
  }

  /** An inner join of a non-empty path that does not end in "/" with a relative
      piece inserts exactly one "/". */
  lemma PlainJoin(a: string, b: string)
    requires a != [] && !EndsWith(a, "/") && !StartsWith(b, "/")
    ensures PathJoin(a, b) == a + "/" + b
  {
  }

  /** A non-absolute piece joined by "_": neither absolute nor ending in "/" when the
      last part does not end in "/". */
  lemma Underscored(x: string, y: string)
    requires !StartsWith(x, "/") && !EndsWith(y, "/")
    ensures !StartsWith(x + "_" + y, "/") && !EndsWith(x + "_" + y, "/")
  {
    var z := x + "_" + y;
    if x == "" { assert z[0] == '_'; } else { assert z[0] == x[0]; }
    if y == "" { assert z[|z| - 1] == '_'; } else { assert z[|z| - 1] == y[|y| - 1]; }
  }

  lemma JoinedNotSlash(a: string, b: string)
    requires !EndsWith(b, "/") && b != []
    ensures !EndsWith(a + "/" + b, "/")
  {
    var z := a + "/" + b;
    assert z[|z| - 1] == b[|b| - 1];
  }

  /** For a relative root not ending in "/", non-absolute pieces and pieces that do
      not end in "/", each join inserts exactly one "/". */
  lemma LocalPathLayout(rootPath: string, tradingType: string, marketDataType: string, timePeriod: string,
                        interval: Option<string>)
    requires rootPath != "" && !EndsWith(rootPath, "/")
    requires !StartsWith(tradingType, "/") && !StartsWith(timePeriod, "/")
    requires !EndsWith(IntervalOrDefault(interval), "/")
    ensures LocalPath(rootPath, tradingType, marketDataType, timePeriod, None, interval)
         == rootPath + "/" + tradingType + "_" + IntervalOrDefault(interval) + "/" + timePeriod + "_" + marketDataType
  {
    var folder := tradingType + "_" + IntervalOrDefault(interval);
    Underscored(tradingType, IntervalOrDefault(interval));
    PlainJoin(rootPath, folder);
    JoinedNotSlash(rootPath, folder);
    var leaf := timePeriod + "_" + marketDataType;
    assert !StartsWith(leaf, "/") by {
      if timePeriod == "" { assert leaf[0] == '_'; } else { assert leaf[0] == timePeriod[0]; }
    }
    PlainJoin(rootPath + "/" + folder, leaf);
  }

  /** The path without a symbol ends in the market data type, so not in "/". */
  lemma LocalPathEnd(rootPath: string, tradingType: string, marketDataType: string, timePeriod: string,
                     interval: Option<string>)
    requires rootPath != "" && !EndsWith(rootPath, "/")
    requires !StartsWith(tradingType, "/") && !StartsWith(timePeriod, "/")
    requires !EndsWith(IntervalOrDefault(interval), "/") && !EndsWith(marketDataType, "/")
    ensures var p := LocalPath(rootPath, tradingType, marketDataType, timePeriod, None, interval);
      p != [] && !EndsWith(p, "/")
  {
    LocalPathLayout(rootPath, tradingType, marketDataType, timePeriod, interval);
    var p := LocalPath(rootPath, tradingType, marketDataType, timePeriod, None, interval);
    var m := marketDataType;
    if m == [] {
      assert p[|p| - 1] == '_';
    } else {
      assert p[|p| - 1] == m[|m| - 1];
      assert m[|m| - 1..] != "/";
    }
    assert p[|p| - 1..] == [p[|p| - 1]];
  }

  /** The symbol piece, when there is one, is added after exactly one more "/". */
  lemma LocalPathSymbolLayout(rootPath: string, tradingType: string, marketDataType: string, timePeriod: string,
                              symbol: string, interval: Option<string>)
    requires rootPath != "" && !EndsWith(rootPath, "/")
    requires !StartsWith(tradingType, "/") && !StartsWith(timePeriod, "/")
    requires !EndsWith(IntervalOrDefault(interval), "/") && !EndsWith(marketDataType, "/")
    requires symbol != "" && !StartsWith(symbol, "/")
    ensures LocalPath(rootPath, tradingType, marketDataType, timePeriod, Some(symbol), interval)
         == LocalPath(rootPath, tradingType, marketDataType, timePeriod, None, interval) + "/" + Upper(symbol)
  {
    LocalPathWithSymbol(rootPath, tradingType, marketDataType, timePeriod, symbol, interval);
    LocalPathEnd(rootPath, tradingType, marketDataType, timePeriod, interval);
    var up := Upper(symbol);
    assert !StartsWith(up, "/") by { assert up[0] == UpperChar(symbol[0]); }
    PlainJoin(LocalPath(rootPath, tradingType, marketDataType, timePeriod, None, interval), up);
  }
}
