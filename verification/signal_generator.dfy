/** Signal fusion of `core/signal_generator.py`: the regime picks a strategy, the strategy
    proposes a direction, and candlestick evidence, a volume spike and an agreeing AI
    prediction add up to a confidence that must reach 0.2 for a signal to be emitted. */
module SignalGenerator {
  import opened Common
  import opened Indicators
  import MarketState
  import MeanReversion
  import TrendFollowing

  /** The symbol every emitted signal carries. */
  const Symbol: string := "BTC/USDT"

  /** The 'volume_change' weight, the only weight of the table that is ever used. */
  const VolumeChangeWeight: real := 0.12

  /** Look-ahead of every pattern-outcome statistic. */
  const PatternLookback: nat := 5

  /** Totals below this are discarded. */
  const MinConfidence: real := 0.2

  /** Bars the generator needs: the volume average reads the 19 bars before the latest. */
  const MinWindow: nat := 20

  /** An emitted signal; `structure` names the strategy that proposed it. */
  datatype Signal = Signal(symbol: string, action: Side, confidence: real, structure: StrategyKind)

  /** The per-bar readings computed by indicator libraries and the AI model. */
  datatype Features = Features(
    market: Option<MarketState.Readings>,  // None when the regime computation raised
    rsi: Option<real>,                     // latest RSI(14), None when NaN
    ma: Option<real>,                      // latest 20-bar mean close, None when NaN
    trend: TrendFollowing.Readings,        // moving-average and MACD values
    aiPrediction: int,                     // 1 = up, 0 = down
    aiConfidence: real)

  function SumVolumes(bars: seq<Bar>): real
    decreases |bars|
  {
    if |bars| == 0 then 0.0 else SumVolumes(bars[..|bars| - 1]) + bars[|bars| - 1].volume
  }

  /** The 19 bars iloc[-20:-1] before the latest. */
  function PriorBars(window: seq<Bar>): (w: seq<Bar>)
    requires |window| >= MinWindow
    ensures |w| == 19
  {
    window[|window| - 20 .. |window| - 1]
  }

  /** Latest volume above 1.1 times the mean of the previous 19 volumes; equivalently, without
      the division, 19 times the latest volume exceeds 1.1 times their sum. */
  function VolumeSpike(window: seq<Bar>): (spike: bool)
    requires |window| >= MinWindow
    ensures spike <==> 19.0 * window[|window| - 1].volume > 1.1 * SumVolumes(PriorBars(window))
  {
    window[|window| - 1].volume > 1.1 * (SumVolumes(PriorBars(window)) / 19.0)
  }

  /** The candlestick and volume evidence for the latest bar. */
  datatype Evidence = Evidence(
    hammer: bool, doji: bool, engulfing: Option<EngulfingKind>,
    downtrend: bool, uptrend: bool, volumeSpike: bool,
    hammerUpProb: real, dojiUpProb: real, engulfingDownProb: real)

  function EvidenceOf(window: seq<Bar>): (e: Evidence)
    requires |window| >= MinWindow && PositiveCloses(window)
    // A hammer is only recognised after a decline; the two trends exclude each other.
    ensures e.hammer ==> e.downtrend
    ensures !(e.downtrend && e.uptrend)
    ensures e.doji ==> Range(window[|window| - 1]) > 0.0
    ensures 0.0 <= e.hammerUpProb <= 1.0 && 0.0 <= e.dojiUpProb <= 1.0 && 0.0 <= e.engulfingDownProb <= 1.0
  {
    var trend := RecentTrend(window);
    Evidence(
      DetectHammer(window), DetectDoji(window), DetectEngulfing(window),
      trend < -0.02, trend > 0.02, VolumeSpike(window),
      PatternProbability(window, HammerPattern, PatternLookback).0,
      PatternProbability(window, DojiPattern, PatternLookback).0,
      PatternProbability(window, BearishEngulfingPattern, PatternLookback).0)
  }

  predicate HammerSetup(e: Evidence)
  {
    e.hammer && e.downtrend && e.volumeSpike && e.hammerUpProb > 0.1
  }

  predicate DojiSetup(e: Evidence)
  {
    e.doji && e.downtrend && e.volumeSpike && e.dojiUpProb > 0.1
  }

  predicate BearishEngulfingSetup(e: Evidence)
  {
    e.engulfing == Some(Bearish) && e.uptrend && e.volumeSpike && e.engulfingDownProb > 0.1
  }

  /** Pattern boost: 0.4 for a confirmed hammer (buy) or bearish engulfing (sell), 0.2 for a
      confirmed doji when no hammer confirms a buy, 0 otherwise. */
  function PatternConfidence(action: Side, e: Evidence): (c: real)
    ensures c == 0.0 || c == 0.2 || c == 0.4
    ensures action == Buy ==> (c == 0.4 <==> HammerSetup(e))
    ensures action == Buy ==> (c == 0.2 <==> !HammerSetup(e) && DojiSetup(e))
    ensures action == Sell ==> (c == 0.4 <==> BearishEngulfingSetup(e))
    ensures action == Sell ==> c != 0.2
  {
    match action
    case Buy =>
      if e.hammer && e.downtrend && e.volumeSpike && e.hammerUpProb > 0.1 then 0.4
      else if e.doji && e.downtrend && e.volumeSpike && e.dojiUpProb > 0.1 then 0.2
      else 0.0
    case Sell =>
      if e.engulfing.Some? && e.engulfing.value == Bearish && e.uptrend && e.volumeSpike && e.engulfingDownProb > 0.1 then 0.4
      else 0.0
  }

  function VolumeConfidence(e: Evidence): (c: real)
    ensures c == VolumeChangeWeight <==> e.volumeSpike
    ensures c == 0.0 <==> !e.volumeSpike
  {
    if e.volumeSpike then VolumeChangeWeight else 0.0
  }

  /** The AI agrees when it predicts up for a buy or down for a sell. */
  predicate AiAgrees(prediction: int, action: Side)
  {
    (prediction == 1 && action == Buy) || (prediction == 0 && action == Sell)
  }

  /** Fused confidence; the AI's confidence counts only when it agrees. */
  function TotalConfidence(action: Side, e: Evidence, prediction: int, aiConfidence: real): (t: real)
    ensures !AiAgrees(prediction, action) ==> 0.0 <= t <= 0.52
    ensures !AiAgrees(prediction, action) && PatternConfidence(action, e) == 0.0 ==> t < MinConfidence
    // Every confirmed pattern needs a volume spike, so without one only the AI can count,
    // and with one the spike's 0.12 is always added to the pattern boost.
    ensures !e.volumeSpike ==> t == (if AiAgrees(prediction, action) then aiConfidence else 0.0)
    ensures e.volumeSpike && !AiAgrees(prediction, action) ==> t == PatternConfidence(action, e) + VolumeChangeWeight
    ensures e.volumeSpike && AiAgrees(prediction, action) ==>
      t == aiConfidence + PatternConfidence(action, e) + VolumeChangeWeight
  {
    if AiAgrees(prediction, action) then aiConfidence + PatternConfidence(action, e) + VolumeConfidence(e)
    else PatternConfidence(action, e) + VolumeConfidence(e)
  }

  /** Agreement adds exactly the AI's confidence; disagreement never subtracts. */
  lemma AgreementAddsAiConfidence(action: Side, e: Evidence, agreeing: int, other: int, aiConfidence: real, otherConfidence: real)
    requires AiAgrees(agreeing, action) && !AiAgrees(other, action)
    ensures TotalConfidence(action, e, agreeing, aiConfidence)
      == aiConfidence + TotalConfidence(action, e, other, otherConfidence)
  {
  }

  /** Mean reversion in a ranging market, trend following in every other regime. */
  function StrategyForRegime(regime: string): (k: StrategyKind)
    ensures k == MeanReversion <==> regime == "ranging"
  {
    if regime == "ranging" then MeanReversion else TrendFollowing
  }

  function Regime(window: seq<Bar>, f: Features): string
  {
    MarketState.DetectState(|window|, MarketState.DefaultAtrWindow, f.market)
  }

  /** The selected strategy's proposal for the latest bar. */
  function Proposal(window: seq<Bar>, f: Features, round2: real -> real): (r: Option<StrategySignal>)
    requires f.ma.Some? ==> f.ma.value != 0.0
    requires |window| >= 1
    // In a ranging market only mean reversion proposes, and it needs both readings.
    ensures Regime(window, f) == "ranging" && r.Some? ==>
      |window| >= MeanReversion.DefaultParams.rsiPeriod && f.rsi.Some? && f.ma.Some?
    // In every other regime only the trend follower proposes, always at confidence 0.5.
    ensures Regime(window, f) != "ranging" && r.Some? ==>
      |window| >= TrendFollowing.MinRows(TrendFollowing.DefaultParams) && r.value.confidence == 0.5
  {
    match StrategyForRegime(Regime(window, f))
    case MeanReversion =>
      MeanReversion.Check(MeanReversion.DefaultParams, |window|, f.rsi, window[|window| - 1].close, f.ma, round2)
    case TrendFollowing =>
      TrendFollowing.Check(TrendFollowing.DefaultParams, window, f.trend)
  }

  /** `generate` on a window ending at the current bar. `round2` is Python's round(x, 2). */
  function Generate(window: seq<Bar>, f: Features, round2: real -> real): (r: Option<Signal>)
    requires |window| >= MinWindow && PositiveCloses(window)
    requires f.ma.Some? ==> f.ma.value != 0.0
    ensures Proposal(window, f, round2).None? ==> r.None?
    ensures r.Some? ==>
      var p := Proposal(window, f, round2).value;
      var t := TotalConfidence(p.action, EvidenceOf(window), f.aiPrediction, f.aiConfidence);
      && r.value.action == p.action
      && r.value.structure == StrategyForRegime(Regime(window, f))
      && r.value.symbol == Symbol
      && t >= MinConfidence
      && r.value.confidence == round2(t)
    ensures Proposal(window, f, round2).Some? ==>
      var p := Proposal(window, f, round2).value;
      (r.Some? <==> TotalConfidence(p.action, EvidenceOf(window), f.aiPrediction, f.aiConfidence) >= MinConfidence)
  {
    var kind := StrategyForRegime(Regime(window, f));
    var proposal := Proposal(window, f, round2);
    if proposal.None? then None
    else
      var action := proposal.value.action;
      var total := TotalConfidence(action, EvidenceOf(window), f.aiPrediction, f.aiConfidence);
      if total < MinConfidence then None
      else Some(Signal(Symbol, action, round2(total), kind))
  }

  /** Conversely, a confirmed pattern alone is enough: without the AI's agreement the total
      is the pattern boost plus the spike's 0.12, at least 0.32, and a signal is emitted. */
  lemma PatternAloneSignals(window: seq<Bar>, f: Features, round2: real -> real)
    requires |window| >= MinWindow && PositiveCloses(window)
    requires f.ma.Some? ==> f.ma.value != 0.0
    requires Proposal(window, f, round2).Some?
    requires !AiAgrees(f.aiPrediction, Proposal(window, f, round2).value.action)
    requires PatternConfidence(Proposal(window, f, round2).value.action, EvidenceOf(window)) > 0.0
    ensures var p := Proposal(window, f, round2).value;
      TotalConfidence(p.action, EvidenceOf(window), f.aiPrediction, f.aiConfidence)
        == PatternConfidence(p.action, EvidenceOf(window)) + VolumeChangeWeight
    ensures Generate(window, f, round2).Some?
  {
  }

  /** Without the AI's agreement and without a confirmed pattern, a volume spike alone (0.12)
      cannot reach the gate: nothing is emitted. */
  lemma NoAgreementNoPatternNoSignal(window: seq<Bar>, f: Features, round2: real -> real)
    requires |window| >= MinWindow && PositiveCloses(window)
    requires f.ma.Some? ==> f.ma.value != 0.0
    requires Proposal(window, f, round2).Some? ==>
      !AiAgrees(f.aiPrediction, Proposal(window, f, round2).value.action)
      && PatternConfidence(Proposal(window, f, round2).value.action, EvidenceOf(window)) == 0.0
    ensures Generate(window, f, round2).None?
  {
  }
}
