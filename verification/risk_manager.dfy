/** The risk controller of `core/risk_manager.py`: account balance with a running peak,
    the one-way drawdown pause latch, ATR-based stop-loss / take-profit levels,
    fixed-fraction-risk position sizing and the trade admission check. */
module RiskManager {
  import opened Common

  /** The `risk` section of the configuration. */
  datatype RiskConfig = RiskConfig(
    initialBalance: real,
    slAtrMultiplier: real,
    tpAtrMultiplier: real,
    maxDrawdownPct: real,
    maxPositionRiskPct: real)

  /** Defaults used when the configuration omits a key. */
  const DefaultConfig: RiskConfig := RiskConfig(10000.0, 2.0, 3.0, 0.20, 0.02)

  /** Account state: current balance, peak balance and the trading-paused latch. */
  datatype RiskState = RiskState(currentBalance: real, peakBalance: real, tradingPaused: bool)

  /** A freshly constructed controller. */
  function Init(cfg: RiskConfig): RiskState
  {
    RiskState(cfg.initialBalance, cfg.initialBalance, false)
  }

  /** Fractional decline of the current balance from its peak; 0 when the peak is not positive. */
  function Drawdown(st: RiskState): (d: real)
    ensures st.peakBalance > 0.0 ==> d * st.peakBalance == st.peakBalance - st.currentBalance
    ensures st.peakBalance <= 0.0 ==> d == 0.0
  {
    if st.peakBalance <= 0.0 then 0.0 else 1.0 - st.currentBalance / st.peakBalance
  }

  /** The drawdown test, stated without division: the balance has fallen below
      (1 - max_drawdown_pct) of a positive peak. With a non-positive peak the drawdown
      counts as 0, which exceeds only a negative limit. */
  predicate BelowDrawdownFloor(cfg: RiskConfig, st: RiskState)
  {
    if st.peakBalance > 0.0 then st.currentBalance < (1.0 - cfg.maxDrawdownPct) * st.peakBalance
    else cfg.maxDrawdownPct < 0.0
  }

  /** Sets the latch when the drawdown exceeds the limit; never clears it. */
  function CheckDrawdown(cfg: RiskConfig, st: RiskState): (r: RiskState)
    ensures r.currentBalance == st.currentBalance && r.peakBalance == st.peakBalance
    ensures r.tradingPaused <==> st.tradingPaused || BelowDrawdownFloor(cfg, st)
  {
    var drawdown := Drawdown(st);
    assert st.peakBalance > 0.0 ==>
      (drawdown > cfg.maxDrawdownPct <==> st.currentBalance < (1.0 - cfg.maxDrawdownPct) * st.peakBalance) by {
      if st.peakBalance > 0.0 {
        ThresholdWithoutDivision(drawdown, st.peakBalance, st.currentBalance, cfg.maxDrawdownPct);
      }
    }
    if drawdown > cfg.maxDrawdownPct && !st.tradingPaused then st.(tradingPaused := true) else st
  }

  lemma ThresholdWithoutDivision(d: real, p: real, c: real, m: real)
    requires p > 0.0 && d * p == p - c
    ensures d > m <==> c < (1.0 - m) * p
  {
    assert (d - m) * p == (1.0 - m) * p - c;
    if d > m {
      assert (d - m) * p > 0.0;
    } else {
      assert (m - d) * p >= 0.0;
    }
  }

  /** Applies a realised PnL: the peak follows the balance up, and the latch is re-checked. */
  function UpdateBalance(cfg: RiskConfig, st: RiskState, pnl: real): (r: RiskState)
    ensures r.currentBalance == st.currentBalance + pnl
    ensures r.peakBalance >= st.peakBalance && r.peakBalance >= r.currentBalance
    ensures r.peakBalance == st.peakBalance || r.peakBalance == r.currentBalance
    ensures r.tradingPaused <==> st.tradingPaused || BelowDrawdownFloor(cfg, r)
  {
    var current := st.currentBalance + pnl;
    CheckDrawdown(cfg, RiskState(current, MaxReal(st.peakBalance, current), st.tradingPaused))
  }

  /** Overwrites the balance; the peak can only rise, and the drawdown is not checked. */
  function SetBalance(st: RiskState, balance: real): (r: RiskState)
    ensures r.currentBalance == balance
    ensures r.peakBalance >= st.peakBalance && r.peakBalance >= balance
    ensures r.peakBalance == st.peakBalance || r.peakBalance == balance
    ensures r.tradingPaused == st.tradingPaused
  {
    RiskState(balance, MaxReal(st.peakBalance, balance), st.tradingPaused)
  }

  /** Setting the balance never trips the latch, even far below the peak. */
  lemma SetBalanceNeverPauses()
    ensures var st := SetBalance(RiskState(1000.0, 1000.0, false), 500.0);
      !st.tradingPaused && BelowDrawdownFloor(DefaultConfig, st)
  {
  }

  /** Manual resumption: clears the latch and rebases the peak on the current balance;
      does nothing when trading is not paused. */
  function ResetTradingPause(st: RiskState): (r: RiskState)
    ensures !r.tradingPaused
    ensures r.currentBalance == st.currentBalance
    ensures st.tradingPaused ==> r.peakBalance == st.currentBalance
    ensures !st.tradingPaused ==> r == st
    ensures st.tradingPaused ==> Drawdown(r) <= 0.0
  {
    if st.tradingPaused then RiskState(st.currentBalance, st.currentBalance, false) else st
  }

  /** Latest ATR for risk sizing: 0 when the window has fewer than window + 1 rows or the
      reading is missing (NaN or a failed computation). */
  function CalculateAtr(rows: nat, window: nat, latest: Option<real>): (atr: real)
    ensures rows < window + 1 || latest.None? ==> atr == 0.0
    ensures rows >= window + 1 && latest.Some? ==> atr == latest.value
  {
    if rows < window + 1 then 0.0
    else if latest.None? then 0.0
    else latest.value
  }

  /** A stop-loss price and a take-profit price. */
  datatype Levels = Levels(stopLoss: real, takeProfit: real)

  /** ATR-scaled exit levels: a long's stop lies k_sl ATRs below the entry and its target
      k_tp ATRs above; a short mirrors this. None when ATR is not positive or the action is
      neither "buy" nor "sell". */
  function SlTpPrices(cfg: RiskConfig, entry: real, atr: real, action: string): (r: Option<Levels>)
    ensures r.Some? <==> atr > 0.0 && (action == "buy" || action == "sell")
    ensures r.Some? && action == "buy" ==>
      entry - r.value.stopLoss == cfg.slAtrMultiplier * atr && r.value.takeProfit - entry == cfg.tpAtrMultiplier * atr
    ensures r.Some? && action == "sell" ==>
      r.value.stopLoss - entry == cfg.slAtrMultiplier * atr && entry - r.value.takeProfit == cfg.tpAtrMultiplier * atr
    ensures r.Some? && action == "buy" && cfg.slAtrMultiplier > 0.0 && cfg.tpAtrMultiplier > 0.0 ==>
      r.value.stopLoss < entry < r.value.takeProfit
    ensures r.Some? && action == "sell" && cfg.slAtrMultiplier > 0.0 && cfg.tpAtrMultiplier > 0.0 ==>
      r.value.takeProfit < entry < r.value.stopLoss
  {
    if atr <= 0.0 then None
    else if action == "buy" then
      Some(Levels(entry - cfg.slAtrMultiplier * atr, entry + cfg.tpAtrMultiplier * atr))
    else if action == "sell" then
      Some(Levels(entry + cfg.slAtrMultiplier * atr, entry - cfg.tpAtrMultiplier * atr))
    else None
  }

  /** The quote amount the controller is willing to lose on one trade. */
  function RiskBudget(cfg: RiskConfig, st: RiskState): real
  {
    st.currentBalance * cfg.maxPositionRiskPct
  }

  /** Unrounded size whose loss at the stop equals the risk budget. */
  function RawPositionSize(cfg: RiskConfig, st: RiskState, entry: real, stop: real): (size: real)
    requires entry != stop
    ensures size * AbsReal(entry - stop) == RiskBudget(cfg, st)
  {
    RiskBudget(cfg, st) / AbsReal(entry - stop)
  }

  /** Fixed-fraction-risk position size, rounded by `round6` (Python's round(x, 6));
      0 when there is no stop, the entry is not positive or the stop equals the entry. */
  function PositionSize(cfg: RiskConfig, st: RiskState, entry: real, stop: Option<real>, round6: real -> real): (size: real)
    ensures stop.None? || entry <= 0.0 || stop == Some(entry) ==> size == 0.0
    ensures stop.Some? && entry > 0.0 && stop.value != entry ==>
      size == round6(RawPositionSize(cfg, st, entry, stop.value))
  {
    if stop.None? || entry <= 0.0 || AbsReal(entry - stop.value) == 0.0 then 0.0
    else
      var riskPerUnit := AbsReal(entry - stop.value);
      if riskPerUnit <= 0.0 then 0.0
      else round6(RiskBudget(cfg, st) / riskPerUnit)
  }

  /** Balance 10000 risking 2% with entry 100 and stop 98 sizes 100 units before rounding. */
  lemma PositionSizeExample(round6: real -> real)
    ensures RawPositionSize(DefaultConfig, RiskState(10000.0, 10000.0, false), 100.0, 98.0) == 100.0
    ensures PositionSize(DefaultConfig, RiskState(10000.0, 10000.0, false), 100.0, Some(98.0), round6) == round6(100.0)
  {
  }

  /** Admission: refused while paused, or when the notional exceeds 99% of the balance. */
  function ValidateTrade(st: RiskState, size: real, price: real): (ok: bool)
    ensures ok <==> !st.tradingPaused && size * price <= 0.99 * st.currentBalance
  {
    if st.tradingPaused then false
    else if size * price > st.currentBalance * 0.99 then false
    else true
  }

  /** The driver's pause probe `validate_trade(0, 0)` also fails on a negative balance. */
  lemma PauseProbe(st: RiskState)
    ensures ValidateTrade(st, 0.0, 0.0) <==> !st.tradingPaused && st.currentBalance >= 0.0
  {
  }

  /** The operations that change account state. */
  datatype RiskEvent = BalanceUpdate(pnl: real) | BalanceSet(balance: real) | ManualReset

  function ApplyEvent(cfg: RiskConfig, st: RiskState, e: RiskEvent): RiskState
  {
    match e
    case BalanceUpdate(pnl) => UpdateBalance(cfg, st, pnl)
    case BalanceSet(b) => SetBalance(st, b)
    case ManualReset => ResetTradingPause(st)
  }

  function ApplyEvents(cfg: RiskConfig, st: RiskState, es: seq<RiskEvent>): RiskState
    decreases |es|
  {
    if |es| == 0 then st else ApplyEvents(cfg, ApplyEvent(cfg, st, es[0]), es[1..])
  }

  predicate NoManualReset(es: seq<RiskEvent>)
  {
    forall i :: 0 <= i < |es| ==> !es[i].ManualReset?
  }

  /** Once paused, trading stays paused through any sequence of balance updates and
      balance sets, whatever the balance does; only a manual reset clears the latch. */
  lemma {:induction false} PauseIsLatched(cfg: RiskConfig, st: RiskState, es: seq<RiskEvent>)
    requires st.tradingPaused && NoManualReset(es)
    ensures ApplyEvents(cfg, st, es).tradingPaused
    decreases |es|
  {
    if |es| > 0 {
      assert !es[0].ManualReset?;
      PauseIsLatched(cfg, ApplyEvent(cfg, st, es[0]), es[1..]);
    }
  }

  /** Without a manual reset the peak balance never decreases and stays at or above every
      balance it has seen, in particular the final one when it started there. */
  lemma {:induction false} PeakNeverDecreases(cfg: RiskConfig, st: RiskState, es: seq<RiskEvent>)
    requires NoManualReset(es)
    ensures ApplyEvents(cfg, st, es).peakBalance >= st.peakBalance
    ensures |es| > 0 ==> ApplyEvents(cfg, st, es).peakBalance >= ApplyEvents(cfg, st, es).currentBalance
    decreases |es|
  {
    if |es| > 0 {
      assert !es[0].ManualReset?;
      var next := ApplyEvent(cfg, st, es[0]);
      PeakNeverDecreases(cfg, next, es[1..]);
      if |es| > 1 {
      } else {
        assert ApplyEvents(cfg, next, es[1..]) == next;
      }
    }
  }

  /** Losses taking 1000 down to 790 (21% drawdown against the 20% limit) pause trading on
      the update that crosses the limit, and a later profit does not resume it. */
  lemma DrawdownTripScenario()
    ensures var s1 := UpdateBalance(DefaultConfig, Init(DefaultConfig.(initialBalance := 1000.0)), -100.0);
      var s2 := UpdateBalance(DefaultConfig, s1, -110.0);
      var s3 := UpdateBalance(DefaultConfig, s2, 150.0);
      !s1.tradingPaused && s2.currentBalance == 790.0 && s2.tradingPaused && s3.tradingPaused
  {
  }
}
