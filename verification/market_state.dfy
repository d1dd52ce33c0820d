/** The regime classifier of `core/market_state.py`: a weighted composite of six
    indicator readings, thresholded into "trending", "ranging" or "neutral", with "unknown"
    for short windows and failed computations. The readings are computed by an indicator
    library and enter the model as inputs. */
module MarketState {
  import opened Common

  /** Latest indicator values of the window the score is built from. */
  datatype Readings = Readings(
    adx: real,            // latest ADX(14)
    atr: real,            // latest ATR(atr_window)
    close: real,          // latest close
    bbWidth: real,        // latest Bollinger band width, (upper - lower) / ma
    avgBbWidth: real,     // mean band width over the 19 bars before the latest
    volume: real,         // latest volume
    avgVolume: real,      // mean volume over the 19 bars before the latest
    volumeFiveBack: real, // volume four bars before the latest (iloc[-5])
    volatility: real,     // latest 20-bar rolling standard deviation of the close
    avgVolatility: real)  // mean of that deviation over the 19 bars before the latest

  /** Default ATR window of the detector. */
  const DefaultAtrWindow: nat := 14

  const AdxWeight: real := 0.3
  const AtrWeight: real := 0.2
  const BbWeight: real := 0.2
  const VolumeWeight: real := 0.1
  const VolatilityWeight: real := 0.1
  const VolumeTrendWeight: real := 0.1

  /** The composite is a weighted average: its six weights sum to one. */
  lemma WeightsSumToOne()
    ensures AdxWeight + AtrWeight + BbWeight + VolumeWeight + VolatilityWeight + VolumeTrendWeight == 1.0
  {
  }

  /** All four ratios have non-zero denominators. */
  predicate Computable(r: Readings)
  {
    r.close != 0.0 && r.avgBbWidth != 0.0 && r.avgVolatility != 0.0 && r.volumeFiveBack != 0.0
  }

  /** Current volume above twice the trailing average. */
  predicate VolumeSpike(r: Readings)
  {
    r.volume > 2.0 * r.avgVolume
  }

  /** Relative volume change over the last four bars, floored at zero in the score. */
  function ClampedVolumeTrend(r: Readings): (t: real)
    requires r.volumeFiveBack != 0.0
    ensures t >= 0.0
  {
    MaxReal(0.0, (r.volume - r.volumeFiveBack) / r.volumeFiveBack)
  }

  /** The six normalised terms the score averages. */
  function AdxTerm(r: Readings): real { r.adx / 100.0 }
  function AtrTerm(r: Readings): real requires r.close != 0.0 { (r.atr / r.close) / 0.02 }
  function BbTerm(r: Readings): real requires r.avgBbWidth != 0.0 { r.bbWidth / r.avgBbWidth }
  function SpikeTerm(r: Readings): real { if VolumeSpike(r) then 1.0 else 0.0 }
  function VolatilityTerm(r: Readings): real requires r.avgVolatility != 0.0 { r.volatility / r.avgVolatility }

  function TrendScore(r: Readings): real
    requires Computable(r)
  {
    AdxWeight * AdxTerm(r)
      + AtrWeight * AtrTerm(r)
      + BbWeight * BbTerm(r)
      + VolumeWeight * SpikeTerm(r)
      + VolatilityWeight * VolatilityTerm(r)
      + VolumeTrendWeight * ClampedVolumeTrend(r)
  }

  /** When every normalised term lies in [0, 1], so does the score. */
  lemma ScoreOfUnitTermsIsUnit(r: Readings)
    requires Computable(r)
    requires 0.0 <= AdxTerm(r) <= 1.0 && 0.0 <= AtrTerm(r) <= 1.0 && 0.0 <= BbTerm(r) <= 1.0
    requires 0.0 <= VolatilityTerm(r) <= 1.0 && ClampedVolumeTrend(r) <= 1.0
    ensures 0.0 <= TrendScore(r) <= 1.0
  {
  }

  /** A falling volume never lowers the score: the volume-trend term is floored at zero. */
  lemma FallingVolumeAddsNothing(r: Readings)
    requires Computable(r) && r.volumeFiveBack > 0.0 && r.volume <= r.volumeFiveBack
    ensures TrendScore(r)
      == AdxWeight * AdxTerm(r) + AtrWeight * AtrTerm(r) + BbWeight * BbTerm(r)
         + VolumeWeight * SpikeTerm(r) + VolatilityWeight * VolatilityTerm(r)
  {
    var q := (r.volume - r.volumeFiveBack) / r.volumeFiveBack;
    assert q * r.volumeFiveBack == r.volume - r.volumeFiveBack;
  }

  /** Threshold classification; the three labels partition the real line. */
  function Classify(score: real): (state: string)
    ensures state == "trending" <==> score > 0.7
    ensures state == "ranging" <==> score < 0.005
    ensures state == "neutral" <==> 0.005 <= score <= 0.7
  {
    if score > 0.7 then "trending"
    else if score < 0.005 then "ranging"
    else "neutral"
  }

  /** `detect_state` on a window of `rows` bars. `readings` is None when computing the
      indicators raised; a zero denominator is classified "unknown" as well. */
  function DetectState(rows: nat, atrWindow: nat, readings: Option<Readings>): (state: string)
    ensures rows < atrWindow + 10 || readings.None? ==> state == "unknown"
    ensures state == "trending" || state == "ranging" || state == "neutral" || state == "unknown"
    ensures rows >= atrWindow + 10 && readings.Some? && Computable(readings.value) ==>
      state != "unknown" && state == Classify(TrendScore(readings.value))
  {
    if rows < atrWindow + 10 then "unknown"
    else match readings
      case None => "unknown"
      case Some(r) =>
        if !Computable(r) then "unknown"
        else Classify(TrendScore(r))
  }

  /** With the default ATR window, fewer than 24 rows is always "unknown". */
  lemma ShortWindowIsUnknown(rows: nat, readings: Option<Readings>)
    requires rows < 24
    ensures DetectState(rows, DefaultAtrWindow, readings) == "unknown"
  {
  }
}
