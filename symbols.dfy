/** Spot-symbol classification and the symbol listings of the Binance data
    downloader (bn_data/core/symbols.py). */
module Symbols {
  import opened Strs
  import opened Seqs

  /** Quote assets whose USDT pairs are stablecoin or fiat pairs. */
  const StableBases: seq<string> := ["BKRW", "USDC", "USDP", "TUSD", "BUSD", "FDUSD", "DAI", "EUR", "GBP"]

  function StableSymbols(): (r: seq<string>)
    ensures |r| == |StableBases|
  {
    seq(|StableBases|, i requires 0 <= i < |StableBases| => StableBases[i] + "USDT")
  }

  /** Pairs that the suffix rule would misclassify and are kept outright. */
  const SpecialSymbols: seq<string> := ["JUPUSDT"]

  /** Leveraged-token pairs. */
  predicate Leveraged(s: string) {
    EndsWith(s, "UPUSDT") || EndsWith(s, "DOWNUSDT") || EndsWith(s, "BULLUSDT") || EndsWith(s, "BEARUSDT")
  }

  /** The decision `spot_symbols_filter` takes for one symbol, in its order:
      special first, then the leveraged suffixes, then the stablecoin list. */
  predicate PureSpot(s: string) {
    if s in SpecialSymbols then true
    else if Leveraged(s) then false
    else s !in StableSymbols()
  }

  predicate Filtered(s: string) {
    !PureSpot(s)
  }

  /** `spot_symbols_filter(symbols)`: the kept symbols and the dropped ones (the source
      prints the dropped list; here it is returned). */
  method SpotSymbolsFilter(symbols: seq<string>) returns (pure: seq<string>, others: seq<string>)
    ensures pure == Filter(symbols, PureSpot)
    ensures others == Filter(symbols, Filtered)
  {
    var stable := StableSymbols();
    pure, others := [], [];
    for i := 0 to |symbols|
      invariant pure == Filter(symbols[..i], PureSpot)
      invariant others == Filter(symbols[..i], Filtered)
    {
      var symbol := symbols[i];
      var kept: bool;
      if symbol in SpecialSymbols {
        kept := true;
      } else if EndsWith(symbol, "UPUSDT") || EndsWith(symbol, "DOWNUSDT") || EndsWith(symbol, "BULLUSDT")
        || EndsWith(symbol, "BEARUSDT")
      {
        kept := false;
      } else {
        kept := symbol !in stable;
      }
      SpotStep(symbols, i, kept);
      if kept {
        pure := pure + [symbol];
      } else {
        others := others + [symbol];
      }
    }
    assert symbols[..|symbols|] == symbols;
  }

  /** One more symbol goes to the list its classification picks. */
  lemma SpotStep(symbols: seq<string>, i: int, kept: bool)
    requires 0 <= i < |symbols|
    requires kept == (if symbols[i] in SpecialSymbols then true else if Leveraged(symbols[i]) then false
                      else symbols[i] !in StableSymbols())
    ensures Filter(symbols[..i + 1], PureSpot) == Filter(symbols[..i], PureSpot) + (if kept then [symbols[i]] else [])
    ensures Filter(symbols[..i + 1], Filtered) == Filter(symbols[..i], Filtered) + (if kept then [] else [symbols[i]])
  {
    assert symbols[..i + 1] == symbols[..i] + [symbols[i]];
    FilterSnoc(symbols[..i], symbols[i], PureSpot);
    FilterSnoc(symbols[..i], symbols[i], Filtered);
  }

  /** Every symbol goes to exactly one of the two lists, and both keep input order. */
  lemma SpotFilterPartitions(symbols: seq<string>)
    ensures multiset(Filter(symbols, PureSpot)) + multiset(Filter(symbols, Filtered)) == multiset(symbols)
    ensures SubsequenceOf(Filter(symbols, PureSpot), symbols)
    ensures SubsequenceOf(Filter(symbols, Filtered), symbols)
  {
    FilterPartition(symbols, PureSpot, Filtered);
    FilterIsSubsequence(symbols, PureSpot);
    FilterIsSubsequence(symbols, Filtered);
  }

  /** Where a listed symbol ends up. JUPUSDT is kept although it ends in UPUSDT; other
      leveraged-token pairs and the stablecoin pairs are dropped; everything else is kept. */
  lemma SpotFilterClassifies(symbols: seq<string>, s: string)
    requires s in symbols
    ensures s == "JUPUSDT" ==> s in Filter(symbols, PureSpot)
    ensures s != "JUPUSDT" && Leveraged(s) ==> s in Filter(symbols, Filtered) && s !in Filter(symbols, PureSpot)
    ensures s in StableSymbols() ==> s in Filter(symbols, Filtered) && s !in Filter(symbols, PureSpot)
    ensures s != "JUPUSDT" && !Leveraged(s) && s !in StableSymbols() ==> s in Filter(symbols, PureSpot)
  {
    var k :| 0 <= k < |symbols| && symbols[k] == s;
    if s in StableSymbols() {
      var j :| 0 <= j < |StableBases| && StableSymbols()[j] == s;
      assert s != "JUPUSDT" by {
        assert |s| > 0 && s[0] != 'J' by { assert s == StableBases[j] + "USDT"; }
      }
    }
  }

  /** JUPUSDT ends in UPUSDT, so without the special list it would be dropped. */
  lemma JupIsSpecial()
    ensures Leveraged("JUPUSDT") && PureSpot("JUPUSDT")
  {
    assert "JUPUSDT"[1..] == "UPUSDT";
  }

  /** The set `async_get_usdt_symbols` fills from the listing. */
  method UsdtSymbols(all: seq<string>) returns (usdt: set<string>)
    ensures usdt == set s | s in all && EndsWith(s, "USDT")
  {
    usdt := {};
    for i := 0 to |all|
      invariant usdt == set s | s in all[..i] && EndsWith(s, "USDT")
    {
      assert all[..i + 1] == all[..i] + [all[i]];
      if EndsWith(all[i], "USDT") {
        usdt := usdt + {all[i]};
      }
    }
    assert all[..|all|] == all;
  }

  /** The symbol named by a listing prefix: the second-to-last "/"-separated piece
      (`s[len(s) - 2]`; with a single piece Python's index -1 takes that piece). */
  function SymbolFromPrefix(prefix: string): string {
    var parts := Split(prefix, '/');
    if |parts| >= 2 then parts[|parts| - 2] else parts[0]
  }

  /** A listing prefix `dir/…/SYMBOL/` names SYMBOL. */
  lemma {:induction false} SymbolFromListing(dirs: seq<string>, symbol: string)
    requires forall k :: 0 <= k < |dirs| ==> '/' !in dirs[k]
    requires '/' !in symbol
    ensures SymbolFromPrefix(Join(dirs + [symbol, ""], "/")) == symbol
  {
    var parts := dirs + [symbol, ""];
    assert forall k :: 0 <= k < |parts| ==> '/' !in parts[k] by {
      forall k | 0 <= k < |parts| ensures '/' !in parts[k] {
        if k < |dirs| { assert parts[k] == dirs[k]; }
      }
    }
    SplitJoin(parts, '/');
  }
}
