/** The mean-reversion policy of `strategies/mean_reversion.py`: buy an oversold market
    (low RSI or a close well below its moving average), sell an overbought one. RSI and the
    moving average are computed by pandas and enter the model as the latest readings. */
module MeanReversion {
  import opened Common

  /** Constructor parameters of the strategy. */
  datatype Params = Params(rsiPeriod: nat, rsiLow: real, rsiHigh: real, maPeriod: nat)

  const DefaultParams: Params := Params(14, 40.0, 60.0, 20)

  /** Relative distance of the close from its moving average. */
  function Deviation(close: real, ma: real): real
    requires ma != 0.0
  {
    (close - ma) / ma
  }

  predicate Oversold(p: Params, rsi: real, deviation: real)
  {
    rsi < p.rsiLow || deviation < -0.03
  }

  predicate Overbought(p: Params, rsi: real, deviation: real)
  {
    rsi > p.rsiHigh || deviation > 0.03
  }

  /** Confidence before rounding: half plus a twentieth of the RSI gap past the threshold,
      capped at one. Nothing bounds it below: the gap is negative when the deviation alone
      triggered the signal. */
  function RawConfidence(gap: real): (c: real)
    ensures c <= 1.0
    ensures gap <= 10.0 ==> c * 20.0 == gap + 10.0
    ensures gap >= 10.0 ==> c == 1.0
  {
    MinReal(1.0, gap / 20.0 + 0.5)
  }

  /** `check` on a window of `rows` bars whose latest RSI, close and moving average are
      given; None stands for a NaN reading. `round2` is Python's round(x, 2). */
  function Check(p: Params, rows: nat, rsi: Option<real>, close: real, ma: Option<real>, round2: real -> real): (r: Option<StrategySignal>)
    requires ma.Some? ==> ma.value != 0.0
    ensures rows < p.rsiPeriod || rsi.None? || ma.None? ==> r.None?
    ensures rows >= p.rsiPeriod && rsi.Some? && ma.Some? ==>
      var dev := Deviation(close, ma.value);
      && (r.Some? && r.value.action == Buy <==> Oversold(p, rsi.value, dev))
      && (r.Some? && r.value.action == Sell <==> !Oversold(p, rsi.value, dev) && Overbought(p, rsi.value, dev))
      && (r.Some? && r.value.action == Buy ==> r.value.confidence == round2(RawConfidence(p.rsiLow - rsi.value)))
      && (r.Some? && r.value.action == Sell ==> r.value.confidence == round2(RawConfidence(rsi.value - p.rsiHigh)))
  {
    if rows < p.rsiPeriod then None
    else if rsi.None? || ma.None? then None
    else
      var deviation := Deviation(close, ma.value);
      if rsi.value < p.rsiLow || deviation < -0.03 then
        Some(StrategySignal(Buy, round2(MinReal(1.0, (p.rsiLow - rsi.value) / 20.0 + 0.5))))
      else if rsi.value > p.rsiHigh || deviation > 0.03 then
        Some(StrategySignal(Sell, round2(MinReal(1.0, (rsi.value - p.rsiHigh) / 20.0 + 0.5))))
      else None
  }

  /** Inside the RSI band and within 3% of the average, the strategy stays silent. */
  lemma QuietInsideBand(p: Params, rows: nat, rsi: real, close: real, ma: real, round2: real -> real)
    requires rows >= p.rsiPeriod && ma > 0.0
    requires p.rsiLow <= rsi <= p.rsiHigh
    requires 0.97 * ma <= close <= 1.03 * ma
    ensures Check(p, rows, Some(rsi), close, Some(ma), round2).None?
  {
    var dev := Deviation(close, ma);
    assert dev * ma == close - ma;
    assert -0.03 * ma <= dev * ma <= 0.03 * ma;
  }

  /** A buy triggered by the RSI itself carries a confidence above one half before rounding. */
  lemma RsiBuyIsConfident(p: Params, rsi: real)
    requires rsi < p.rsiLow
    ensures 0.5 < RawConfidence(p.rsiLow - rsi) <= 1.0
  {
  }

  /** The cap is one-sided: with the default thresholds, an RSI of 100 and a close 10% below
      the average still yield a buy, with raw confidence -2.5. */
  lemma ConfidenceUnboundedBelow(round2: real -> real)
    ensures RawConfidence(DefaultParams.rsiLow - 100.0) == -2.5
    ensures Check(DefaultParams, 20, Some(100.0), 90.0, Some(100.0), round2) == Some(StrategySignal(Buy, round2(-2.5)))
  {
  }
}
