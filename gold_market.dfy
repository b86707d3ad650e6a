/** The pure half of the gold-futures simulator (demo-edit-file/index.js and its
    twin demo-edit-file/server.js): the capped price history, the moving average,
    and the signal rule `analyzeMarket`. Prices are exact reals. */
module GoldMarket {
  import opened Wrappers

  /** The price history keeps at most this many samples. */
  const HistoryCap: nat := 50
  /** `analyzeMarket` answers WAIT until it has this many samples. */
  const MinSamples: nat := 20
  /** Below this volatility, in percent of the current price, no trade is proposed. */
  const MinVolatilityPercent: real := 0.05

  datatype Signal = Long | Short | Wait

  /** The `reason` text of an analysis, one constructor per distinct message.
      `NoReason` is the empty string left when the moving averages are strictly
      ordered but the momentum or price test of that branch fails. */
  datatype Reason =
    | InsufficientHistory
    | StrongUptrend
    | StrongDowntrend
    | ModerateUptrend
    | ModerateDowntrend
    | Sideways
    | VolatilityTooLow
    | NoReason

  /** The numeric indicators, before `toFixed` turns them into display strings. */
  datatype Indicators = Indicators(
    ma5: real, ma10: real, ma20: real, currentPrice: real,
    momentum: real, momentumPercent: real, volatilityPercent: real)

  datatype Analysis = Analysis(signal: Signal, reason: Reason, confidence: real, indicators: Option<Indicators>)

  datatype Decision = Decision(signal: Signal, reason: Reason, confidence: real)

  predicate Positive(h: seq<real>) {
    forall i :: 0 <= i < |h| ==> h[i] > 0.0
  }

  predicate StrictlyIncreasing(h: seq<real>) {
    forall i, j :: 0 <= i < j < |h| ==> h[i] < h[j]
  }

  // ---------------------------------------------------------------------------
  // Price history buffer
  // ---------------------------------------------------------------------------

  /** The history after one `push` followed by `shift` when it grew past the cap. */
  function Pushed(h: seq<real>, price: real): (r: seq<real>)
    ensures |h| <= HistoryCap ==> |r| <= HistoryCap
    ensures |r| > 0 && r[|r| - 1] == price
  {
    var grown := h + [price];
    if |grown| > HistoryCap then grown[1..] else grown
  }

  /** The history after pushing every price of `prices` in order. */
  function PushedAll(h: seq<real>, prices: seq<real>): seq<real>
  {
    if |prices| == 0 then h else Pushed(PushedAll(h, prices[..|prices| - 1]), prices[|prices| - 1])
  }

  /** The newest `HistoryCap` samples of a feed. */
  function Newest(s: seq<real>): seq<real>
  {
    if |s| <= HistoryCap then s else s[|s| - HistoryCap..]
  }

  /** One push evicts exactly the oldest sample, and only when the buffer was full. */
  lemma PushedIsFifo(h: seq<real>, price: real)
    requires |h| <= HistoryCap
    ensures |h| < HistoryCap ==> Pushed(h, price) == h + [price]
    ensures |h| == HistoryCap ==> Pushed(h, price) == h[1..] + [price]
  {
  }

  lemma NewestPushed(s: seq<real>, price: real)
    ensures Pushed(Newest(s), price) == Newest(s + [price])
  {
  }

  /** Whatever the feed, the buffer holds exactly its newest 50 samples. */
  lemma {:induction false} PushedAllKeepsNewest(h: seq<real>, prices: seq<real>)
    requires |h| <= HistoryCap
    ensures PushedAll(h, prices) == Newest(h + prices)
  {
    if |prices| == 0 {
      assert h + prices == h;
    } else {
      var init := prices[..|prices| - 1];
      var last := prices[|prices| - 1];
      PushedAllKeepsNewest(h, init);
      NewestPushed(h + init, last);
      assert (h + init) + [last] == h + prices;
    }
  }

  // ---------------------------------------------------------------------------
  // Sums and the moving average
  // ---------------------------------------------------------------------------

  /** `reduce((acc, val) => acc + val, 0)`, folding from the left. */
  function Sum(s: seq<real>): real
  {
    if |s| == 0 then 0.0 else Sum(s[..|s| - 1]) + s[|s| - 1]
  }

  lemma {:induction false} SumAppend(a: seq<real>, b: seq<real>)
    ensures Sum(a + b) == Sum(a) + Sum(b)
  {
    if |b| == 0 {
      assert a + b == a;
    } else {
      var init := b[..|b| - 1];
      SumAppend(a, init);
      assert (a + b)[..|a + b| - 1] == a + init;
    }
  }

  lemma SumSplit(s: seq<real>, k: nat)
    requires k <= |s|
    ensures Sum(s) == Sum(s[..k]) + Sum(s[k..])
  {
    SumAppend(s[..k], s[k..]);
    assert s[..k] + s[k..] == s;
  }

  lemma {:induction false} SumConstant(s: seq<real>, v: real)
    requires forall i :: 0 <= i < |s| ==> s[i] == v
    ensures Sum(s) == |s| as real * v
  {
    if |s| > 0 {
      SumConstant(s[..|s| - 1], v);
    }
  }

  lemma {:induction false} SumAtMost(s: seq<real>, b: real)
    requires forall i :: 0 <= i < |s| ==> s[i] <= b
    ensures Sum(s) <= |s| as real * b
  {
    if |s| > 0 {
      SumAtMost(s[..|s| - 1], b);
    }
  }

  lemma {:induction false} SumAbove(s: seq<real>, b: real)
    requires |s| > 0
    requires forall i :: 0 <= i < |s| ==> s[i] > b
    ensures Sum(s) > |s| as real * b
  {
    if |s| > 1 {
      SumAbove(s[..|s| - 1], b);
    }
  }

  /** `calculateMovingAverage(data, period)`. */
  function MovingAverage(data: seq<real>, period: nat): real
    requires period > 0
  {
    if |data| < period then (if |data| == 0 then 0.0 else data[|data| - 1])
    else Sum(data[|data| - period..]) / period as real
  }

  /** Short input falls back to the newest sample, or 0 when there is none. */
  lemma MovingAverageFallback(data: seq<real>, period: nat)
    requires 0 < period && |data| < period
    ensures |data| == 0 ==> MovingAverage(data, period) == 0.0
    ensures |data| > 0 ==> MovingAverage(data, period) == data[|data| - 1]
  {
  }

  /** `period` equal samples average to that sample. */
  lemma MovingAverageOfConstant(data: seq<real>, period: nat, v: real)
    requires 0 < period <= |data|
    requires forall i :: |data| - period <= i < |data| ==> data[i] == v
    ensures MovingAverage(data, period) == v
  {
    var window := data[|data| - period..];
    SumConstant(window, v);
    assert Sum(window) / period as real == (period as real * v) / period as real;
  }

  /** `Math.max(...s)`. */
  function SeqMax(s: seq<real>): (m: real)
    requires |s| > 0
    ensures m in s
    ensures forall i :: 0 <= i < |s| ==> s[i] <= m
  {
    if |s| == 1 then s[0]
    else
      var rest := SeqMax(s[..|s| - 1]);
      if s[|s| - 1] > rest then s[|s| - 1] else rest
  }

  /** `Math.min(...s)`. */
  function SeqMin(s: seq<real>): (m: real)
    requires |s| > 0
    ensures m in s
    ensures forall i :: 0 <= i < |s| ==> m <= s[i]
  {
    if |s| == 1 then s[0]
    else
      var rest := SeqMin(s[..|s| - 1]);
      if s[|s| - 1] < rest then s[|s| - 1] else rest
  }

  // ---------------------------------------------------------------------------
  // analyzeMarket
  // ---------------------------------------------------------------------------

  function Abs(x: real): real { if x < 0.0 then -x else x }

  function Min(a: real, b: real): real { if a <= b then a else b }

  /** MA5/MA10/MA20, 6-back momentum and the max-min volatility of the last 10 samples. */
  function ComputeIndicators(h: seq<real>): (ind: Indicators)
    requires |h| >= MinSamples && Positive(h)
    ensures ind.currentPrice == h[|h| - 1]
    ensures ind.momentum == h[|h| - 1] - h[|h| - 6]
    ensures ind.volatilityPercent >= 0.0
  {
    var currentPrice := h[|h| - 1];
    var momentum := currentPrice - h[|h| - 6];
    var recent := h[|h| - 10..];
    var volatility := SeqMax(recent) - SeqMin(recent);
    Indicators(
      MovingAverage(h, 5), MovingAverage(h, 10), MovingAverage(h, 20), currentPrice,
      momentum, momentum / h[|h| - 6] * 100.0, volatility / currentPrice * 100.0)
  }

  /** The trend branches, with the strong-trend tests nested exactly as in the source:
      once the averages are strictly ordered, a failed inner test gives WAIT and
      the moderate branches are not tried. */
  function TrendDecision(ma5: real, ma10: real, ma20: real, price: real, momentum: real, momentumPercent: real): (d: Decision)
    ensures d.signal == Wait <==> d.confidence == 0.0
    ensures d.signal == Long <==> d.reason == StrongUptrend || d.reason == ModerateUptrend
    ensures d.signal == Short <==> d.reason == StrongDowntrend || d.reason == ModerateDowntrend
    ensures d.signal == Long ==> momentum > 0.0 && price > ma10
    ensures d.signal == Short ==> momentum < 0.0 && price < ma10
    ensures d.reason == StrongUptrend || d.reason == StrongDowntrend ==> 60.0 <= d.confidence <= 90.0
    ensures d.reason == ModerateUptrend || d.reason == ModerateDowntrend ==> 50.0 <= d.confidence <= 75.0
    ensures ma5 > ma10 && ma10 > ma20 && !(momentum > 0.0 && price > ma5) ==> d == Decision(Wait, NoReason, 0.0)
    ensures ma5 < ma10 && ma10 < ma20 && !(momentum < 0.0 && price < ma5) ==> d == Decision(Wait, NoReason, 0.0)
  {
    if ma5 > ma10 && ma10 > ma20 then
      if momentum > 0.0 && price > ma5 then Decision(Long, StrongUptrend, Min(90.0, 60.0 + Abs(momentumPercent) * 10.0))
      else Decision(Wait, NoReason, 0.0)
    else if ma5 < ma10 && ma10 < ma20 then
      if momentum < 0.0 && price < ma5 then Decision(Short, StrongDowntrend, Min(90.0, 60.0 + Abs(momentumPercent) * 10.0))
      else Decision(Wait, NoReason, 0.0)
    else if ma5 > ma10 && price > ma10 && momentum > 0.0 then
      Decision(Long, ModerateUptrend, Min(75.0, 50.0 + Abs(momentumPercent) * 5.0))
    else if ma5 < ma10 && price < ma10 && momentum < 0.0 then
      Decision(Short, ModerateDowntrend, Min(75.0, 50.0 + Abs(momentumPercent) * 5.0))
    else
      Decision(Wait, Sideways, 0.0)
  }

  /** The low-volatility override, applied after every trend branch. */
  function VolatilityFilter(d: Decision, volatilityPercent: real): (f: Decision)
    ensures f.signal != Wait ==> f == d && volatilityPercent >= MinVolatilityPercent
    ensures d.signal != Wait && volatilityPercent < MinVolatilityPercent ==> f == Decision(Wait, VolatilityTooLow, 0.0)
    ensures d.signal == Wait || volatilityPercent >= MinVolatilityPercent ==> f == d
  {
    if volatilityPercent < MinVolatilityPercent && d.signal != Wait then Decision(Wait, VolatilityTooLow, 0.0)
    else d
  }

  /** `analyzeMarket()` over the given price history. */
  function Analyze(h: seq<real>): (a: Analysis)
    requires Positive(h)
    ensures |h| < MinSamples ==> a == Analysis(Wait, InsufficientHistory, 0.0, None)
    ensures |h| >= MinSamples ==> a.indicators == Some(ComputeIndicators(h))
    ensures a.signal == Wait <==> a.confidence == 0.0
    ensures a.signal != Wait ==> |h| >= MinSamples && a.indicators.value.volatilityPercent >= MinVolatilityPercent
    ensures a.signal == Long ==> a.indicators.value.momentum > 0.0 && h[|h| - 1] > a.indicators.value.ma10
    ensures a.signal == Short ==> a.indicators.value.momentum < 0.0 && h[|h| - 1] < a.indicators.value.ma10
    ensures a.signal != Wait ==> 50.0 <= a.confidence <= 90.0
  {
    if |h| < MinSamples then Analysis(Wait, InsufficientHistory, 0.0, None)
    else
      var ind := ComputeIndicators(h);
      var trend := TrendDecision(ind.ma5, ind.ma10, ind.ma20, ind.currentPrice, ind.momentum, ind.momentumPercent);
      var d := VolatilityFilter(trend, ind.volatilityPercent);
      Analysis(d.signal, d.reason, d.confidence, Some(ind))
  }

  /** A flat history: no momentum, no volatility, and no signal. */
  lemma ConstantHistoryWaits(h: seq<real>, v: real)
    requires |h| >= MinSamples && v > 0.0
    requires forall i :: 0 <= i < |h| ==> h[i] == v
    ensures Analyze(h).signal == Wait && Analyze(h).reason == Sideways
    ensures Analyze(h).indicators.value.momentum == 0.0
    ensures Analyze(h).indicators.value.volatilityPercent == 0.0
  {
    MovingAverageOfConstant(h, 5, v);
    MovingAverageOfConstant(h, 10, v);
    MovingAverageOfConstant(h, 20, v);
    var recent := h[|h| - 10..];
    assert SeqMax(recent) == v && SeqMin(recent) == v;
  }

  /** The newest k samples of a rising history average above the k before them. */
  lemma RisingHalves(h: seq<real>, k: nat)
    requires 0 < k && 2 * k <= |h| && StrictlyIncreasing(h)
    ensures Sum(h[|h| - 2 * k..|h| - k]) < Sum(h[|h| - k..])
  {
    var n := |h|;
    var older := h[n - 2 * k..n - k];
    var newer := h[n - k..];
    var pivot := h[n - k - 1];
    forall i | 0 <= i < |older|
      ensures older[i] <= pivot
    {
      assert older[i] == h[n - 2 * k + i];
      if n - 2 * k + i < n - k - 1 {
        assert h[n - 2 * k + i] < h[n - k - 1];
      }
    }
    SumAtMost(older, pivot);
    forall i | 0 <= i < |newer|
      ensures newer[i] > pivot
    {
      assert newer[i] == h[n - k + i];
      assert h[n - k - 1] < h[n - k + i];
    }
    SumAbove(newer, pivot);
  }

  /** On a rising history the shorter average of two lies above the longer one. */
  lemma RisingShortAverageAbove(h: seq<real>, k: nat)
    requires 0 < k && 2 * k <= |h| && StrictlyIncreasing(h)
    ensures MovingAverage(h, k) > MovingAverage(h, 2 * k)
  {
    var n := |h|;
    var wide := h[n - 2 * k..];
    RisingHalves(h, k);
    SumSplit(wide, k);
    assert wide[..k] == h[n - 2 * k..n - k] && wide[k..] == h[n - k..];
  }

  /** On a rising history the newest sample lies above MA5. */
  lemma RisingPriceAboveMa5(h: seq<real>)
    requires 5 <= |h| && StrictlyIncreasing(h)
    ensures h[|h| - 1] > MovingAverage(h, 5)
  {
    var n := |h|;
    var w5 := h[n - 5..];
    SumSplit(w5, 4);
    assert forall i :: 0 <= i < 4 ==> w5[..4][i] <= h[n - 2];
    SumAtMost(w5[..4], h[n - 2]);
    assert w5[4..] == [h[n - 1]];
  }

  /** A strictly rising history of at least 20 samples is a strong uptrend: the
      signal is LONG unless the volatility override turns it into WAIT. */
  lemma RisingHistoryGoesLong(h: seq<real>)
    requires |h| >= MinSamples && Positive(h) && StrictlyIncreasing(h)
    ensures Analyze(h).indicators.value.volatilityPercent >= MinVolatilityPercent ==>
              Analyze(h).signal == Long && Analyze(h).reason == StrongUptrend && 60.0 <= Analyze(h).confidence <= 90.0
    ensures Analyze(h).indicators.value.volatilityPercent < MinVolatilityPercent ==>
              Analyze(h).signal == Wait && Analyze(h).reason == VolatilityTooLow
  {
    RisingShortAverageAbove(h, 5);
    RisingShortAverageAbove(h, 10);
    RisingPriceAboveMa5(h);
    var ind := ComputeIndicators(h);
    assert ind.ma5 > ind.ma10 > ind.ma20 && ind.currentPrice > ind.ma5 && ind.momentum > 0.0;
    var trend := TrendDecision(ind.ma5, ind.ma10, ind.ma20, ind.currentPrice, ind.momentum, ind.momentumPercent);
    assert trend.signal == Long && trend.reason == StrongUptrend;
  }
}
