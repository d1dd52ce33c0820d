/** Candlestick pattern detectors and the pattern-conditioned outcome counter of
    `utils/indicators.py`. A window is the sequence of bars up to and including the
    current one; the last element is the current bar. */
module Indicators {
  import opened Common

  /** One OHLCV bar. */
  datatype Bar = Bar(open: real, high: real, low: real, close: real, volume: real)

  /** The bar-series invariant that every close is positive (no division by a zero close). */
  predicate PositiveCloses(bars: seq<Bar>)
  {
    forall i :: 0 <= i < |bars| ==> bars[i].close > 0.0
  }

  /** One-step percentage change, as pandas' pct_change. */
  function StepReturn(prev: real, cur: real): real
    requires prev != 0.0
  {
    (cur - prev) / prev
  }

  /** `close.iloc[-5:-1].pct_change().sum()`: the summed one-step returns across the four
      closes before the current bar (the leading NaN is skipped by the sum). */
  function RecentTrend(bars: seq<Bar>): real
    requires |bars| >= 5 && PositiveCloses(bars)
  {
    var n := |bars|;
    StepReturn(bars[n - 5].close, bars[n - 4].close)
      + StepReturn(bars[n - 4].close, bars[n - 3].close)
      + StepReturn(bars[n - 3].close, bars[n - 2].close)
  }

  /** Closes that never fall across the four bars before the current one cannot form a
      downtrend: the summed returns are then non-negative. */
  lemma RecentTrendOfRisingCloses(bars: seq<Bar>)
    requires |bars| >= 5 && PositiveCloses(bars)
    requires bars[|bars| - 5].close <= bars[|bars| - 4].close <= bars[|bars| - 3].close <= bars[|bars| - 2].close
    ensures RecentTrend(bars) >= 0.0
  {
    var n := |bars|;
    StepReturnNonNegative(bars[n - 5].close, bars[n - 4].close);
    StepReturnNonNegative(bars[n - 4].close, bars[n - 3].close);
    StepReturnNonNegative(bars[n - 3].close, bars[n - 2].close);
  }

  lemma StepReturnNonNegative(prev: real, cur: real)
    requires prev > 0.0 && prev <= cur
    ensures StepReturn(prev, cur) >= 0.0
  {
    assert StepReturn(prev, cur) * prev == cur - prev;
  }

  function Body(b: Bar): real
  {
    AbsReal(b.close - b.open)
  }

  function LowerShadow(b: Bar): real
  {
    MinReal(b.open, b.close) - b.low
  }

  function UpperShadow(b: Bar): real
  {
    b.high - MaxReal(b.open, b.close)
  }

  function Range(b: Bar): real
  {
    b.high - b.low
  }

  /** The single-candle hammer shape: a real body, a lower shadow longer than twice the
      body and an upper shadow shorter than the body. */
  predicate HammerShape(b: Bar)
  {
    LowerShadow(b) > 2.0 * Body(b) && UpperShadow(b) < Body(b) && Body(b) > 0.0
  }

  /** A hammer on the current bar after a downtrend (summed recent returns below -2%). */
  function DetectHammer(bars: seq<Bar>): (r: bool)
    requires PositiveCloses(bars)
    ensures r <==> |bars| >= 5 && HammerShape(bars[|bars| - 1]) && RecentTrend(bars) < -0.02
  {
    if |bars| < 5 then false
    else
      var hammerCondition := HammerShape(bars[|bars| - 1]);
      var downtrend := RecentTrend(bars) < -0.02;
      hammerCondition && downtrend
  }

  /** A hammer candle's lower shadow covers more than half of its high-low range. */
  lemma HammerShadowDominatesRange(b: Bar)
    requires HammerShape(b)
    ensures 2.0 * LowerShadow(b) > Range(b)
  {
    assert Range(b) == LowerShadow(b) + Body(b) + UpperShadow(b);
  }

  /** The two engulfing directions. */
  datatype EngulfingKind = Bullish | Bearish

  /** A down candle followed by an up candle whose body covers it. */
  predicate BullishPair(prev: Bar, curr: Bar)
  {
    prev.close < prev.open && curr.close > curr.open && curr.open <= prev.close && curr.close >= prev.open
  }

  /** An up candle followed by a down candle whose body covers it. */
  predicate BearishPair(prev: Bar, curr: Bar)
  {
    prev.close > prev.open && curr.close < curr.open && curr.open >= prev.close && curr.close <= prev.open
  }

  /** `detect_engulfing`: None stands for `(False, None)`, Some(kind) for `(True, kind)`.
      Bullish is tested first, but the two are exclusive. */
  function DetectEngulfing(bars: seq<Bar>): (r: Option<EngulfingKind>)
    ensures |bars| < 2 ==> r.None?
    ensures r == Some(Bullish) ==>
      bars[|bars| - 1].open <= bars[|bars| - 2].close < bars[|bars| - 2].open <= bars[|bars| - 1].close
    ensures r == Some(Bearish) ==>
      bars[|bars| - 1].close <= bars[|bars| - 2].open < bars[|bars| - 2].close <= bars[|bars| - 1].open
    ensures |bars| >= 2 ==>
      (r.Some? <==> BullishPair(bars[|bars| - 2], bars[|bars| - 1]) || BearishPair(bars[|bars| - 2], bars[|bars| - 1]))
  {
    if |bars| < 2 then None
    else
      var prev := bars[|bars| - 2];
      var curr := bars[|bars| - 1];
      if BullishPair(prev, curr) then Some(Bullish)
      else if BearishPair(prev, curr) then Some(Bearish)
      else None
  }

  /** No pair of candles is both a bullish and a bearish engulfing. */
  lemma EngulfingKindsExclusive(prev: Bar, curr: Bar)
    ensures !(BullishPair(prev, curr) && BearishPair(prev, curr))
  {
  }

  /** A doji: a body under 5% of a non-empty high-low range. */
  function DetectDoji(bars: seq<Bar>): (r: bool)
    requires |bars| >= 1
    ensures r ==> Range(bars[|bars| - 1]) > 0.0 && 20.0 * Body(bars[|bars| - 1]) < Range(bars[|bars| - 1])
    ensures Range(bars[|bars| - 1]) > 0.0 && 20.0 * Body(bars[|bars| - 1]) < Range(bars[|bars| - 1]) ==> r
  {
    var b := bars[|bars| - 1];
    var body := Body(b);
    var range := Range(b);
    body < 0.05 * range && range > 0.0
  }

  /** The patterns the signal generator conditions on. */
  datatype Pattern = HammerPattern | DojiPattern | BullishEngulfingPattern | BearishEngulfingPattern

  /** Whether `pattern` holds on the window ending at its last bar. */
  predicate Matches(pattern: Pattern, window: seq<Bar>)
    requires |window| >= 1 && PositiveCloses(window)
  {
    match pattern
    case HammerPattern => DetectHammer(window)
    case DojiPattern => DetectDoji(window)
    case BullishEngulfingPattern => DetectEngulfing(window) == Some(Bullish)
    case BearishEngulfingPattern => DetectEngulfing(window) == Some(Bearish)
  }

  /** Whether the close `lookback` bars after index i is above the close at i. */
  predicate Rose(bars: seq<Bar>, i: nat, lookback: nat)
    requires i + lookback < |bars| && PositiveCloses(bars)
  {
    StepReturn(bars[i].close, bars[i + lookback].close) > 0.0
  }

  /** Number of indices i < k whose prefix bars[..i+1] matches the pattern. */
  function Occurrences(bars: seq<Bar>, pattern: Pattern, lookback: nat, k: nat): nat
    requires k + lookback <= |bars| && PositiveCloses(bars)
  {
    if k == 0 then 0
    else Occurrences(bars, pattern, lookback, k - 1) + (if Matches(pattern, bars[..k]) then 1 else 0)
  }

  /** Number of those occurrences after which the close rose over `lookback` bars. */
  function UpCount(bars: seq<Bar>, pattern: Pattern, lookback: nat, k: nat): (n: nat)
    requires k + lookback <= |bars| && PositiveCloses(bars)
    ensures n <= Occurrences(bars, pattern, lookback, k)
  {
    if k == 0 then 0
    else
      UpCount(bars, pattern, lookback, k - 1)
        + (if Matches(pattern, bars[..k]) && Rose(bars, k - 1, lookback) then 1 else 0)
  }

  /** Sum of the `lookback`-bar returns following each occurrence. */
  function ChangeSum(bars: seq<Bar>, pattern: Pattern, lookback: nat, k: nat): real
    requires k + lookback <= |bars| && PositiveCloses(bars)
  {
    if k == 0 then 0.0
    else
      ChangeSum(bars, pattern, lookback, k - 1)
        + (if Matches(pattern, bars[..k]) then StepReturn(bars[k - 1].close, bars[k - 1 + lookback].close) else 0.0)
  }

  /** `calculate_pattern_probability`: (fraction of occurrences followed by a rise, mean
      following return), scanning every index i < len - lookback on the prefix ending at i;
      (0, 0) when the window is too short or the pattern never occurred. */
  function PatternProbability(bars: seq<Bar>, pattern: Pattern, lookback: nat): (r: (real, real))
    requires PositiveCloses(bars)
    ensures 0.0 <= r.0 <= 1.0
    ensures |bars| < lookback + 1 ==> r == (0.0, 0.0)
    ensures |bars| >= lookback + 1 && Occurrences(bars, pattern, lookback, |bars| - lookback) == 0 ==> r == (0.0, 0.0)
    ensures |bars| >= lookback + 1 && Occurrences(bars, pattern, lookback, |bars| - lookback) > 0 ==>
      r.0 == UpCount(bars, pattern, lookback, |bars| - lookback) as real
               / Occurrences(bars, pattern, lookback, |bars| - lookback) as real
    // The second component is the mean of the returns following the occurrences.
    ensures |bars| >= lookback + 1 && Occurrences(bars, pattern, lookback, |bars| - lookback) > 0 ==>
      r.1 == ChangeSum(bars, pattern, lookback, |bars| - lookback)
               / Occurrences(bars, pattern, lookback, |bars| - lookback) as real
  {
    if |bars| < lookback + 1 then (0.0, 0.0)
    else
      var k := |bars| - lookback;
      var n := Occurrences(bars, pattern, lookback, k);
      if n == 0 then
        assert UpCount(bars, pattern, lookback, k) == 0;
        (0.0, 0.0)
      else
        var up := UpCount(bars, pattern, lookback, k);
        FractionOfCount(up, n);
        (up as real / n as real, ChangeSum(bars, pattern, lookback, k) / n as real)
  }

  lemma FractionOfCount(part: nat, whole: nat)
    requires 0 < whole && part <= whole
    ensures 0.0 <= part as real / whole as real <= 1.0
    ensures (part as real / whole as real) * whole as real == part as real
  {
  }

  /** No look-ahead: appending later bars never changes which of the first k indices count as
      occurrences, nor their outcomes, as long as each outcome bar was already present. */
  lemma {:induction false} CountsIgnoreLaterBars(bars: seq<Bar>, later: seq<Bar>, pattern: Pattern, lookback: nat, k: nat)
    requires k + lookback <= |bars| && PositiveCloses(bars + later)
    ensures PositiveCloses(bars)
    ensures Occurrences(bars + later, pattern, lookback, k) == Occurrences(bars, pattern, lookback, k)
    ensures UpCount(bars + later, pattern, lookback, k) == UpCount(bars, pattern, lookback, k)
    ensures ChangeSum(bars + later, pattern, lookback, k) == ChangeSum(bars, pattern, lookback, k)
    decreases k
  {
    assert PositiveCloses(bars) by {
      forall i | 0 <= i < |bars| ensures bars[i].close > 0.0 {
        assert (bars + later)[i] == bars[i];
      }
    }
    if k > 0 {
      CountsIgnoreLaterBars(bars, later, pattern, lookback, k - 1);
      assert (bars + later)[..k] == bars[..k];
      assert (bars + later)[k - 1] == bars[k - 1];
      assert (bars + later)[k - 1 + lookback] == bars[k - 1 + lookback];
    }
  }
}
