/** Search, filters and the summary row of the trade-details table
    (frontend/src/components/BacktestResults/TradeDetailsTable.tsx). Amounts are reals,
    timestamps milliseconds since the epoch. */
module TradeTable {
  import opened Wrappers
  import opened Strs
  import opened Seqs

  datatype Trade = Trade(id: string, symbol: string, side: string, pnl: real, commission: real, slippage: real, timestamp: int)

  datatype SideFilter = AllSides | Buy | Sell
  datatype PnlFilter = AllPnl | Profit | Loss

  /** The controls above the table; `dateRange` is the picker's (start, end). */
  datatype Controls = Controls(searchText: string, side: SideFilter, pnl: PnlFilter, dateRange: Option<(int, int)>)

  /** An empty search matches; otherwise a case-insensitive substring of the symbol or id. */
  predicate MatchesSearch(t: Trade, search: string) {
    search == "" || Contains(Lower(t.symbol), Lower(search)) || Contains(Lower(t.id), Lower(search))
  }

  predicate MatchesSide(t: Trade, f: SideFilter) {
    match f
    case AllSides => true
    case Buy => t.side == "buy"
    case Sell => t.side == "sell"
  }

  predicate MatchesPnl(t: Trade, f: PnlFilter) {
    f == AllPnl || (f == Profit && t.pnl > 0.0) || (f == Loss && t.pnl < 0.0)
  }

  /** Strictly after the start and strictly before the end. */
  predicate MatchesDate(t: Trade, range: Option<(int, int)>) {
    range.None? || (range.value.0 < t.timestamp && t.timestamp < range.value.1)
  }

  predicate Matches(t: Trade, c: Controls) {
    MatchesSearch(t, c.searchText) && MatchesSide(t, c.side) && MatchesPnl(t, c.pnl) && MatchesDate(t, c.dateRange)
  }

  function MatchTest(c: Controls): Trade -> bool {
    t => Matches(t, c)
  }

  /** `filteredTrades`: the trades that pass all four tests, in their original order. */
  function FilteredTrades(trades: seq<Trade>, c: Controls): (r: seq<Trade>)
    ensures SubsequenceOf(r, trades)
    ensures forall t :: t in r <==> t in trades && Matches(t, c)
  {
    FilterIsSubsequence(trades, MatchTest(c));
    Filter(trades, MatchTest(c))
  }

  /** With every control at its initial value the table shows every trade. */
  lemma NoFilterShowsAll(trades: seq<Trade>)
    ensures FilteredTrades(trades, Controls("", AllSides, AllPnl, None)) == trades
  {
    FilterAll(trades, MatchTest(Controls("", AllSides, AllPnl, None)));
  }

  /** The search ignores letter case in both the text and the fields. */
  lemma SearchIgnoresCase(t: Trade, search: string)
    ensures MatchesSearch(t, search) <==> MatchesSearch(t, Upper(search)) || search == ""
  {
    assert Lower(Upper(search)) == Lower(search) by {
      forall i | 0 <= i < |search| ensures Lower(Upper(search))[i] == Lower(search)[i] {
        var c := search[i];
        assert UpperChar(c) == c || ('a' <= c <= 'z');
      }
    }
    if search != "" {
      assert |Upper(search)| == |search|;
    }
  }

  /** A zero-profit trade passes the profit/loss control only when it is "all". */
  lemma ZeroPnlOnlyUnderAll(t: Trade, f: PnlFilter)
    requires t.pnl == 0.0
    ensures MatchesPnl(t, f) <==> f == AllPnl
  {
  }

  /** A trade stamped exactly at either end of the date range is left out. */
  lemma DateRangeIsOpen(t: Trade, start: int, end: int)
    requires t.timestamp == start || t.timestamp == end
    ensures !MatchesDate(t, Some((start, end)))
  {
  }

  // ---------------------------------------------------------------- summary

  function TotalPnl(ts: seq<Trade>): real {
    if ts == [] then 0.0 else TotalPnl(ts[..|ts| - 1]) + ts[|ts| - 1].pnl
  }

  function TotalCommission(ts: seq<Trade>): real {
    if ts == [] then 0.0 else TotalCommission(ts[..|ts| - 1]) + ts[|ts| - 1].commission
  }

  function TotalSlippage(ts: seq<Trade>): real {
    if ts == [] then 0.0 else TotalSlippage(ts[..|ts| - 1]) + ts[|ts| - 1].slippage
  }

  predicate IsWin(t: Trade) { t.pnl > 0.0 }
  predicate IsLoss(t: Trade) { t.pnl < 0.0 }

  datatype Summary = Summary(
    totalTrades: nat,
    totalPnl: real,
    totalCommission: real,
    totalSlippage: real,
    winningTrades: nat,
    losingTrades: nat,
    winRate: real)

  /** `summary` over the shown trades. */
  function Summarize(shown: seq<Trade>): (s: Summary)
    ensures s.totalTrades == |shown|
    ensures s.winningTrades + s.losingTrades <= s.totalTrades
    ensures s.winningTrades == |Filter(shown, IsWin)| && s.losingTrades == |Filter(shown, IsLoss)|
    ensures s.totalTrades == 0 ==> s.winRate == 0.0
    ensures s.totalTrades > 0 ==> s.winRate == WinRate(s.winningTrades, s.totalTrades)
    ensures 0.0 <= s.winRate <= 100.0
  {
    var wins := |Filter(shown, IsWin)|;
    var losses := |Filter(shown, IsLoss)|;
    WinsAndLosses(shown);
    var rate := if |shown| > 0 then WinRate(wins, |shown|) else 0.0;
    Summary(|shown|, TotalPnl(shown), TotalCommission(shown), TotalSlippage(shown), wins, losses, rate)
  }

  /** `(winning / total) * 100` for a non-empty table. */
  function WinRate(wins: nat, total: nat): (r: real)
    requires 0 < total && wins <= total
    ensures 0.0 <= r <= 100.0 && r * (total as real) == 100.0 * (wins as real)
  {
    var q := wins as real / total as real;
    assert q * (total as real) == wins as real;
    assert q <= 1.0 by {
      if q > 1.0 {
        assert q * (total as real) > 1.0 * (total as real);
      }
    }
    q * 100.0
  }

  /** No trade is both a win and a loss. */
  lemma {:induction false} WinsAndLosses(ts: seq<Trade>)
    ensures |Filter(ts, IsWin)| + |Filter(ts, IsLoss)| <= |ts|
  {
    if ts != [] {
      WinsAndLosses(ts[..|ts| - 1]);
    }
  }

  lemma TotalPnlSnoc(s: seq<Trade>, x: Trade)
    ensures TotalPnl(s + [x]) == TotalPnl(s) + x.pnl
  {
    assert (s + [x])[..|s|] == s;
  }

  /** One more trade adds its profit to the side it belongs to. */
  lemma SidePnlSnoc(ts: seq<Trade>, x: Trade, side: Trade -> bool)
    ensures TotalPnl(Filter(ts + [x], side)) == TotalPnl(Filter(ts, side)) + (if side(x) then x.pnl else 0.0)
  {
    FilterSnoc(ts, x, side);
    var w := Filter(ts, side);
    if side(x) {
      assert Filter(ts + [x], side) == w + [x];
      TotalPnlSnoc(w, x);
    } else {
      assert Filter(ts + [x], side) == w;
    }
  }

  /** Total profit is the winners' profit plus the losers' loss: break-even trades add nothing. */
  lemma {:induction false} PnlSplitsIntoWinsAndLosses(ts: seq<Trade>)
    ensures TotalPnl(ts) == TotalPnl(Filter(ts, IsWin)) + TotalPnl(Filter(ts, IsLoss))
  {
    if ts != [] {
      var init, x := ts[..|ts| - 1], ts[|ts| - 1];
      PnlSplitsIntoWinsAndLosses(init);
      assert ts == init + [x];
      TotalPnlSnoc(init, x);
      SidePnlSnoc(init, x, IsWin);
      SidePnlSnoc(init, x, IsLoss);
    }
  }

  /** The summary row describes exactly the rows the table shows. */
  lemma SummaryOfShown(trades: seq<Trade>, c: Controls)
    ensures var s := Summarize(FilteredTrades(trades, c));
      s.totalTrades <= |trades| && s.totalPnl == TotalPnl(Filter(trades, MatchTest(c)))
  {
  }
}
