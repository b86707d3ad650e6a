/** The web version of the simulator, demo-edit-file/server.js. Its
    `calculateMovingAverage`, `analyzeMarket`, `openPosition`, `closePosition`
    and `executeTrade` are copies of the console version's and are modelled once,
    in GoldMarket and GoldTrading. What is particular to the server is
    `updateGoldData`: after the capped push it builds a report with the
    unrealised profit/loss, the analysis and the win/loss statistics. */
module GoldServer {
  import opened Wrappers
  import opened GoldMarket
  import opened GoldTrading

  datatype PositionReport = PositionReport(side: Signal, entryPrice: real, margin: real, unrealizedPL: real)

  /** The numeric content of `cachedGoldData.trading` (formatting left out). */
  datatype Report = Report(
    capital: real,
    totalProfitLoss: real,
    profitLossPercent: real,
    marginAvailable: real,
    totalTrades: nat,
    winTrades: nat,
    lossTrades: nat,
    winRate: real,
    currentPosition: Option<PositionReport>,
    recentTrades: seq<TradeRecord>,
    analysis: Analysis,
    dataPoints: nat)

  /** `tradeHistory.filter((t) => t.profitLoss > 0).length`. */
  function WinCount(trades: seq<TradeRecord>): nat
  {
    if |trades| == 0 then 0
    else WinCount(trades[..|trades| - 1]) + (if trades[|trades| - 1].profitLoss > 0.0 then 1 else 0)
  }

  /** `tradeHistory.filter((t) => t.profitLoss < 0).length`. */
  function LossCount(trades: seq<TradeRecord>): nat
  {
    if |trades| == 0 then 0
    else LossCount(trades[..|trades| - 1]) + (if trades[|trades| - 1].profitLoss < 0.0 then 1 else 0)
  }

  /** A trade is a win, a loss, or neither (profit/loss exactly 0), never both. */
  lemma {:induction false} WinsAndLossesAtMostTrades(trades: seq<TradeRecord>)
    ensures WinCount(trades) + LossCount(trades) <= |trades|
  {
    if |trades| > 0 {
      WinsAndLossesAtMostTrades(trades[..|trades| - 1]);
    }
  }

  lemma RatioAtMostOne(a: real, b: real)
    requires 0.0 <= a <= b && b > 0.0
    ensures 0.0 <= a / b <= 1.0
  {
    var q := a / b;
    assert q * b == a;
  }

  /** The win rate in percent; 0 when there are no trades. */
  function WinRate(trades: seq<TradeRecord>): (r: real)
    ensures |trades| == 0 ==> r == 0.0
    ensures 0.0 <= r <= 100.0
  {
    if |trades| > 0 then
      WinsAndLossesAtMostTrades(trades);
      var wins, n := WinCount(trades) as real, |trades| as real;
      assert 0.0 <= wins <= n;
      RatioAtMostOne(wins, n);
      (wins / n) * 100.0
    else 0.0
  }

  /** `tradeHistory.slice(-5).reverse()`. */
  function RecentTrades(trades: seq<TradeRecord>): (r: seq<TradeRecord>)
    ensures |r| == if |trades| < 5 then |trades| else 5
    ensures forall i :: 0 <= i < |r| ==> r[i] == trades[|trades| - 1 - i]
  {
    var newest := if |trades| < 5 then trades else trades[|trades| - 5..];
    seq(|newest|, i requires 0 <= i < |newest| => newest[|newest| - 1 - i])
  }

  /** The report `updateGoldData` caches after pushing a price. */
  function BuildReport(s: Session): Report
    requires ValidSession(s)
  {
    var totalProfitLoss := s.capital - InitialCapital;
    Report(
      s.capital,
      totalProfitLoss,
      (totalProfitLoss / InitialCapital) * 100.0,
      s.capital * MaxMargin,
      |s.trades|,
      WinCount(s.trades),
      LossCount(s.trades),
      WinRate(s.trades),
      match s.position
        case None => None
        case Some(p) => Some(PositionReport(p.side, p.entryPrice, p.margin, UnrealizedPL(s.position, s.currentPrice))),
      RecentTrades(s.trades),
      Analyze(s.priceHistory),
      |s.priceHistory|)
  }

  /** The statistics of a report: wins and losses never exceed the trades, the win
      rate is 0 without trades, and the total profit/loss (capital minus
      10,000,000) is the sum of the recorded trades' profit/loss. */
  lemma ReportStatistics(s: Session)
    requires ValidSession(s)
    ensures BuildReport(s).winTrades + BuildReport(s).lossTrades <= BuildReport(s).totalTrades
    ensures BuildReport(s).totalTrades == 0 ==> BuildReport(s).winRate == 0.0
    ensures BuildReport(s).totalProfitLoss == TotalProfitLoss(s.trades)
    ensures BuildReport(s).totalProfitLoss == BuildReport(s).capital - InitialCapital
    ensures BuildReport(s).currentPosition.None? <==> s.position.None?
  {
    WinsAndLossesAtMostTrades(s.trades);
  }

  /** The unrealised profit/loss reported for the open position is exactly what
      the next `executeTrade` would realise if the price stayed where it is. */
  lemma ReportedPLIsWhatClosingRealises(s: Session)
    requires ValidSession(s) && s.position.Some? && s.capital > 0.0
    ensures BuildReport(s).currentPosition.value.unrealizedPL == Executed(s).trades[|s.trades|].profitLoss
    ensures Executed(s).capital == s.capital + BuildReport(s).currentPosition.value.unrealizedPL
  {
  }

  /** `updateGoldData()` once a quote has arrived: push it, then build the report. */
  method UpdateGoldData(t: Trader, price: real) returns (report: Report)
    requires t.Valid() && price > 0.0
    modifies t
    ensures t.Valid() && t.State() == AfterPush(old(t.State()), price)
    ensures report == BuildReport(t.State())
  {
    t.PushPrice(price);
    report := BuildReport(t.State());
  }
}
