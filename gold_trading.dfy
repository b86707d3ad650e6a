/** The stateful half of the gold-futures simulator in demo-edit-file/index.js:
    the module-level variables `priceHistory`, `currentGoldPriceVND`,
    `tradingCapital`, `currentPosition` and `tradeHistory`, and the operations that
    update them (the history push, `openPosition`, `closePosition`,
    `executeTrade`). Each method of `Trader` is proved against a function on
    `Session` values; the lemmas about those functions carry the invariants. */
module GoldTrading {
  import opened Wrappers
  import opened GoldMarket

  /** 10,000,000 VND of starting capital. */
  const InitialCapital: real := 10000000.0
  /** 30% of the capital is committed as margin; the leverage is its inverse. */
  const MaxMargin: real := 0.3

  datatype Position = Position(side: Signal, entryPrice: real, margin: real, leverage: real)

  datatype TradeRecord = TradeRecord(side: Signal, entryPrice: real, exitPrice: real, profitLoss: real, capitalAfter: real)

  /** A snapshot of the simulator's module-level variables. */
  datatype Session = Session(
    priceHistory: seq<real>, currentPrice: real, capital: real,
    position: Option<Position>, trades: seq<TradeRecord>)

  const Start: Session := Session([], 0.0, InitialCapital, None, [])

  /** Sum of the realised profit/loss of a trade history. */
  function TotalProfitLoss(trades: seq<TradeRecord>): real
  {
    if |trades| == 0 then 0.0 else TotalProfitLoss(trades[..|trades| - 1]) + trades[|trades| - 1].profitLoss
  }

  /** Every record's `capitalAfter` is the starting capital plus all profit/loss up to it. */
  predicate Ledger(trades: seq<TradeRecord>)
  {
    forall i :: 0 <= i < |trades| ==> trades[i].capitalAfter == InitialCapital + TotalProfitLoss(trades[..i + 1])
  }

  /** The invariant the simulator keeps between timer callbacks. */
  predicate ValidSession(s: Session)
  {
    && |s.priceHistory| <= HistoryCap
    && Positive(s.priceHistory)
    && (|s.priceHistory| > 0 ==> s.currentPrice == s.priceHistory[|s.priceHistory| - 1])
    && (s.position.Some? ==> s.position.value.entryPrice > 0.0 && s.position.value.side != Wait)
    && s.capital == InitialCapital + TotalProfitLoss(s.trades)
    && Ledger(s.trades)
  }

  /** The position `openPosition(side, price)` creates from the capital `capital`. */
  function NewPosition(side: Signal, price: real, capital: real): (p: Position)
    ensures p.side == side && p.entryPrice == price
    ensures p.margin * p.leverage == capital
  {
    Position(side, price, capital * MaxMargin, 1.0 / MaxMargin)
  }

  /** The profit/loss `closePosition(exitPrice)` realises. */
  function ProfitLoss(p: Position, exitPrice: real): real
    requires p.entryPrice > 0.0
  {
    var priceDiff := exitPrice - p.entryPrice;
    if p.side == Long then (priceDiff / p.entryPrice) * p.margin * p.leverage
    else (-priceDiff / p.entryPrice) * p.margin * p.leverage
  }

  /** The unrealised profit/loss shown for the open position at `price`, or 0 without one. */
  function UnrealizedPL(position: Option<Position>, price: real): (r: real)
    requires position.Some? ==> position.value.entryPrice > 0.0
    ensures position.None? ==> r == 0.0
    ensures position.Some? ==> r == ProfitLoss(position.value, price)
  {
    match position
    case None => 0.0
    case Some(p) =>
      if p.side == Long then ((price - p.entryPrice) / p.entryPrice) * p.margin * p.leverage
      else ((p.entryPrice - price) / p.entryPrice) * p.margin * p.leverage
  }

  /** Margin times leverage is the whole capital at open, so a LONG position earns
      the relative price change times that capital, a SHORT one loses it, and
      closing at the entry price earns nothing. */
  lemma ProfitIsPriceChangeTimesCapital(side: Signal, entry: real, exit: real, capital: real)
    requires entry > 0.0
    ensures side == Long ==> ProfitLoss(NewPosition(side, entry, capital), exit) == (exit - entry) / entry * capital
    ensures side != Long ==> ProfitLoss(NewPosition(side, entry, capital), exit) == -((exit - entry) / entry * capital)
    ensures exit == entry ==> ProfitLoss(NewPosition(side, entry, capital), exit) == 0.0
  {
    var p := NewPosition(side, entry, capital);
    var change := (exit - entry) / entry;
    assert change * p.margin * p.leverage == change * (p.margin * p.leverage);
    assert (-(exit - entry) / entry) == -change;
    assert -change * p.margin * p.leverage == -change * (p.margin * p.leverage);
  }

  // ---------------------------------------------------------------------------
  // Transitions of the session
  // ---------------------------------------------------------------------------

  /** A new quote: `currentGoldPriceVND = price` followed by the capped push. */
  function AfterPush(s: Session, price: real): Session
  {
    s.(currentPrice := price, priceHistory := Pushed(s.priceHistory, price))
  }

  /** `openPosition(side, price)`; an already open position is overwritten. */
  function Opened(s: Session, side: Signal, price: real): Session
  {
    s.(position := Some(NewPosition(side, price, s.capital)))
  }

  /** `closePosition(exitPrice)`. */
  function Closed(s: Session, exitPrice: real): (r: Session)
    requires s.position.Some? ==> s.position.value.entryPrice > 0.0
    ensures s.position.None? ==> r == s
    ensures s.position.Some? ==>
      && r.position.None?
      && r.capital == s.capital + ProfitLoss(s.position.value, exitPrice)
      && |r.trades| == |s.trades| + 1 && r.trades[..|s.trades|] == s.trades
      && r.trades[|s.trades|].capitalAfter == r.capital
      && r.trades[|s.trades|].profitLoss == r.capital - s.capital
    ensures r.priceHistory == s.priceHistory && r.currentPrice == s.currentPrice
  {
    match s.position
    case None => s
    case Some(p) =>
      var profitLoss := ProfitLoss(p, exitPrice);
      var capital := s.capital + profitLoss;
      s.(capital := capital,
         trades := s.trades + [TradeRecord(p.side, p.entryPrice, exitPrice, profitLoss, capital)],
         position := None)
  }

  /** `executeTrade()`: close an open position at the current price, otherwise open
      one when the analysis says LONG or SHORT; nothing once the capital is gone. */
  function Executed(s: Session): Session
    requires ValidSession(s)
  {
    if s.capital <= 0.0 then s
    else if s.position.Some? then Closed(s, s.currentPrice)
    else
      var analysis := Analyze(s.priceHistory);
      if analysis.signal == Long || analysis.signal == Short then Opened(s, analysis.signal, s.currentPrice)
      else s
  }

  // ---------------------------------------------------------------------------
  // Invariants
  // ---------------------------------------------------------------------------

  lemma StartIsValid()
    ensures ValidSession(Start)
  {
  }

  lemma PushPreservesValid(s: Session, price: real)
    requires ValidSession(s) && price > 0.0
    ensures ValidSession(AfterPush(s, price))
    ensures |AfterPush(s, price).priceHistory| <= HistoryCap
  {
    var h := Pushed(s.priceHistory, price);
    assert forall i :: 0 <= i < |h| ==> h[i] in s.priceHistory + [price];
  }

  lemma {:induction false} LedgerAppend(trades: seq<TradeRecord>, rec: TradeRecord)
    requires Ledger(trades)
    requires rec.capitalAfter == InitialCapital + TotalProfitLoss(trades) + rec.profitLoss
    ensures Ledger(trades + [rec])
    ensures TotalProfitLoss(trades + [rec]) == TotalProfitLoss(trades) + rec.profitLoss
  {
    var t := trades + [rec];
    assert t[..|t| - 1] == trades;
    forall i | 0 <= i < |t|
      ensures t[i].capitalAfter == InitialCapital + TotalProfitLoss(t[..i + 1])
    {
      if i < |trades| {
        assert t[..i + 1] == trades[..i + 1];
      } else {
        assert t[..i + 1] == t;
      }
    }
  }

  lemma ClosePreservesValid(s: Session, exitPrice: real)
    requires ValidSession(s)
    ensures ValidSession(Closed(s, exitPrice))
  {
    if s.position.Some? {
      var pl := ProfitLoss(s.position.value, exitPrice);
      var r := Closed(s, exitPrice);
      LedgerAppend(s.trades, r.trades[|s.trades|]);
      assert r.trades == s.trades + [r.trades[|s.trades|]];
    }
  }

  /** Every step of the simulator keeps the session invariant; in particular the
      capital is always the starting capital plus the realised profit/loss. */
  lemma ExecutePreservesValid(s: Session)
    requires ValidSession(s)
    ensures ValidSession(Executed(s))
    ensures Executed(s).capital == InitialCapital + TotalProfitLoss(Executed(s).trades)
  {
    if s.capital > 0.0 && s.position.Some? {
      ClosePreservesValid(s, s.currentPrice);
    }
  }

  /** What one call of `executeTrade` may do: nothing once the capital is gone; with
      an open position, only close it; without one, open a position exactly when
      the analysis says LONG or SHORT, at the current price, and record no trade. */
  lemma ExecuteTradeCases(s: Session)
    requires ValidSession(s)
    ensures s.capital <= 0.0 ==> Executed(s) == s
    ensures s.capital > 0.0 && s.position.Some? ==>
      Executed(s).position.None? && |Executed(s).trades| == |s.trades| + 1
    ensures s.capital > 0.0 && s.position.None? ==>
      && Executed(s).trades == s.trades && Executed(s).capital == s.capital
      && (Executed(s).position.Some? <==> Analyze(s.priceHistory).signal != Wait)
      && (Executed(s).position.Some? ==>
            Executed(s).position.value.side == Analyze(s.priceHistory).signal
            && Executed(s).position.value.entryPrice == s.priceHistory[|s.priceHistory| - 1])
  {
  }

  /** Opening and immediately closing at the entry price leaves the capital unchanged. */
  lemma OpenCloseAtEntryRoundTrip(s: Session, side: Signal, price: real)
    requires price > 0.0
    ensures Closed(Opened(s, side, price), price).capital == s.capital
    ensures Closed(Opened(s, side, price), price).position.None?
    ensures Closed(Opened(s, side, price), price).trades[|s.trades|].profitLoss == 0.0
  {
    ProfitIsPriceChangeTimesCapital(side, price, price, s.capital);
  }

  /** A LONG bought at 1,000 and sold at 1,100 earns a tenth of the capital. */
  lemma LongTenPercentExample(s: Session)
    ensures Closed(Opened(s, Long, 1000.0), 1100.0).capital == s.capital * 1.1
  {
    ProfitIsPriceChangeTimesCapital(Long, 1000.0, 1100.0, s.capital);
  }

  // ---------------------------------------------------------------------------
  // The simulator's state, updated in place
  // ---------------------------------------------------------------------------

  class Trader {
    var priceHistory: seq<real>
    var currentPrice: real
    var capital: real
    var position: Option<Position>
    var trades: seq<TradeRecord>

    function State(): Session
      reads this
    {
      Session(priceHistory, currentPrice, capital, position, trades)
    }

    predicate Valid()
      reads this
    {
      ValidSession(State())
    }

    /** The initial values of the module-level variables. */
    constructor ()
      ensures Valid() && State() == Start
    {
      priceHistory := [];
      currentPrice := 0.0;
      capital := InitialCapital;
      position := None;
      trades := [];
    }

    /** Record a new quote and push it onto the capped history. */
    method PushPrice(price: real)
      requires Valid() && price > 0.0
      modifies this
      ensures Valid() && State() == AfterPush(old(State()), price)
      ensures |priceHistory| <= HistoryCap && priceHistory[|priceHistory| - 1] == price
    {
      PushPreservesValid(State(), price);
      currentPrice := price;
      priceHistory := priceHistory + [price];
      if |priceHistory| > HistoryCap {
        priceHistory := priceHistory[1..];
      }
    }

    method OpenPosition(side: Signal, price: real)
      requires Valid() && side != Wait && price > 0.0
      modifies this
      ensures Valid() && State() == Opened(old(State()), side, price)
    {
      var margin := capital * MaxMargin;
      position := Some(Position(side, price, margin, 1.0 / MaxMargin));
    }

    method ClosePosition(exitPrice: real)
      requires Valid()
      modifies this
      ensures Valid() && State() == Closed(old(State()), exitPrice)
    {
      ghost var before := State();
      ClosePreservesValid(before, exitPrice);
      if position.None? {
        return;
      }
      var p := position.value;
      var priceDiff := exitPrice - p.entryPrice;
      var profitLoss := 0.0;
      if p.side == Long {
        profitLoss := (priceDiff / p.entryPrice) * p.margin * p.leverage;
      } else {
        profitLoss := (-priceDiff / p.entryPrice) * p.margin * p.leverage;
      }
      assert profitLoss == ProfitLoss(p, exitPrice);
      capital := capital + profitLoss;
      trades := trades + [TradeRecord(p.side, p.entryPrice, exitPrice, profitLoss, capital)];
      position := None;
      assert State() == Closed(before, exitPrice);
    }

    method ExecuteTrade()
      requires Valid()
      modifies this
      ensures Valid() && State() == Executed(old(State()))
    {
      if capital <= 0.0 {
        return;
      }
      if position.Some? {
        ClosePosition(currentPrice);
      } else {
        var analysis := Analyze(priceHistory);
        if analysis.signal == Long || analysis.signal == Short {
          OpenPosition(analysis.signal, currentPrice);
        }
      }
    }
  }
}
