/** The trend-following policy of `strategies/trend_following.py`: buy on a moving-average
    cross-up, a MACD cross-up or a breakout above the recent highs; sell on the mirror
    conditions. The moving averages and MACD lines are computed by pandas and enter the model
    as their previous and latest values. */
module TrendFollowing {
  import opened Common
  import opened Indicators

  /** Constructor parameters of the strategy. */
  datatype Params = Params(shortMa: nat, longMa: nat, adxPeriod: nat, adxThreshold: real)

  const DefaultParams: Params := Params(10, 30, 14, 20.0)

  /** The breakout window: the bars iloc[-10:-1], i.e. the nine before the current one. */
  const Lookback: nat := 10

  /** Previous (iloc[-2]) and latest (iloc[-1]) indicator values. The ADX series is computed
      by the strategy but never consulted. */
  datatype Readings = Readings(
    prevShort: real, prevLong: real, currShort: real, currLong: real,
    prevMacd: real, prevMacdSignal: real, macd: real, macdSignal: real,
    adx: real)

  /** Highest high of a non-empty run of bars. */
  function MaxHigh(bars: seq<Bar>): (m: real)
    requires |bars| >= 1
    ensures forall i :: 0 <= i < |bars| ==> bars[i].high <= m
    ensures exists i :: 0 <= i < |bars| && bars[i].high == m
  {
    if |bars| == 1 then bars[0].high
    else
      var rest := MaxHigh(bars[1..]);
      assert forall i :: 1 <= i < |bars| ==> bars[i] == bars[1..][i - 1];
      MaxReal(bars[0].high, rest)
  }

  /** Lowest low of a non-empty run of bars. */
  function MinLow(bars: seq<Bar>): (m: real)
    requires |bars| >= 1
    ensures forall i :: 0 <= i < |bars| ==> m <= bars[i].low
    ensures exists i :: 0 <= i < |bars| && bars[i].low == m
  {
    if |bars| == 1 then bars[0].low
    else
      var rest := MinLow(bars[1..]);
      assert forall i :: 1 <= i < |bars| ==> bars[i] == bars[1..][i - 1];
      MinReal(bars[0].low, rest)
  }

  /** The bars the breakout compares against. */
  function BreakoutWindow(window: seq<Bar>): (w: seq<Bar>)
    requires |window| >= Lookback
    ensures |w| == Lookback - 1
  {
    window[|window| - Lookback .. |window| - 1]
  }

  predicate BullishCross(x: Readings, window: seq<Bar>)
    requires |window| >= Lookback
  {
    (x.prevShort < x.prevLong && x.currShort > x.currLong)
    || (x.prevMacd < x.prevMacdSignal && x.macd > x.macdSignal)
    || window[|window| - 1].close > MaxHigh(BreakoutWindow(window))
  }

  predicate BearishCross(x: Readings, window: seq<Bar>)
    requires |window| >= Lookback
  {
    (x.prevShort > x.prevLong && x.currShort < x.currLong)
    || (x.prevMacd > x.prevMacdSignal && x.macd < x.macdSignal)
    || window[|window| - 1].close < MinLow(BreakoutWindow(window))
  }

  /** The length guard of `check`. */
  function MinRows(p: Params): nat
  {
    p.longMa + p.adxPeriod + 2
  }

  /** `check` on a window of bars; the guard must leave room for the breakout window. */
  function Check(p: Params, window: seq<Bar>, x: Readings): (r: Option<StrategySignal>)
    requires MinRows(p) >= Lookback
    ensures |window| < MinRows(p) ==> r.None?
    ensures r.Some? ==> r.value.confidence == 0.5
    ensures |window| >= MinRows(p) ==>
      && (r.Some? && r.value.action == Buy <==> BullishCross(x, window))
      && (r.Some? && r.value.action == Sell <==> !BullishCross(x, window) && BearishCross(x, window))
  {
    if |window| < MinRows(p) then None
    else
      var prevHigh := MaxHigh(window[|window| - Lookback .. |window| - 1]);
      var prevLow := MinLow(window[|window| - Lookback .. |window| - 1]);
      var price := window[|window| - 1].close;
      if (x.prevShort < x.prevLong && x.currShort > x.currLong)
        || (x.prevMacd < x.prevMacdSignal && x.macd > x.macdSignal)
        || price > prevHigh
      then Some(StrategySignal(Buy, 0.5))
      else if (x.prevShort > x.prevLong && x.currShort < x.currLong)
        || (x.prevMacd > x.prevMacdSignal && x.macd < x.macdSignal)
        || price < prevLow
      then Some(StrategySignal(Sell, 0.5))
      else None
  }

  /** With the default parameters the strategy needs 46 bars. */
  lemma DefaultMinRows()
    ensures MinRows(DefaultParams) == 46
  {
  }

  /** The ADX reading never influences the decision. */
  lemma AdxIsIgnored(p: Params, window: seq<Bar>, x: Readings, adx: real)
    requires MinRows(p) >= Lookback
    ensures Check(p, window, x) == Check(p, window, x.(adx := adx))
  {
  }

  /** The breakout clause holds exactly when the close exceeds each of the nine previous highs. */
  lemma BreakoutMeansAboveEveryHigh(window: seq<Bar>)
    requires |window| >= Lookback
    ensures window[|window| - 1].close > MaxHigh(BreakoutWindow(window))
      <==> forall j :: |window| - Lookback <= j < |window| - 1 ==> window[|window| - 1].close > window[j].high
  {
    var w := BreakoutWindow(window);
    var price := window[|window| - 1].close;
    assert forall j :: |window| - Lookback <= j < |window| - 1 ==> window[j] == w[j - (|window| - Lookback)];
    if price > MaxHigh(w) {
      assert forall j :: |window| - Lookback <= j < |window| - 1 ==> price > window[j].high by {
        forall j | |window| - Lookback <= j < |window| - 1 ensures price > window[j].high {
          assert window[j] == w[j - (|window| - Lookback)];
        }
      }
    } else {
      var i :| 0 <= i < |w| && w[i].high == MaxHigh(w);
      assert window[i + (|window| - Lookback)] == w[i];
    }
  }
}
