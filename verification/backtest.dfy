/** The per-bar driver of `run_backtest.py`: a fold over the bars from the start index on,
    carrying the risk controller, the execution simulator, the single open position (if any)
    and the trade log. Exits are handled before entries, and a bar that exits never enters.
    The signal for each bar is an input: the generator runs on the window ending at that bar. */
module Backtest {
  import opened Common
  import opened Indicators
  import opened Executor
  import opened RiskManager
  import SignalGenerator

  /** The ATR window of both the slippage model and the risk sizing. */
  const AtrWindow: nat := 14

  /** Default `ai_model.window_size`; the loop starts this many bars plus 20 in. */
  const DefaultWindowSize: nat := 180

  /** Everything the driver knows about one bar: the candle, its timestamp, the latest
      ATR(14) of the window ending at it (None for NaN or a failed computation), and the
      generator's signal on that window (None for no signal or a generator exception). */
  datatype BarInput = BarInput(bar: Bar, time: int, atr: Option<real>, signal: Option<SignalGenerator.Signal>)

  /** The driver's record of the open long position. */
  datatype Position = Position(entryPrice: real, amount: real, stopLoss: real, takeProfit: real, entryTime: int)

  /** Loop state: risk controller, simulator, open position and trade log. */
  datatype BtState = BtState(risk: RiskState, exec: ExecState, active: Option<Position>, logs: seq<Fill>)

  /** Configuration of a run; `round6` is Python's round(x, 6) used by position sizing. */
  datatype Settings = Settings(execCfg: ExecConfig, riskCfg: RiskConfig, windowSize: nat, round6: real -> real)

  /** Index of the first bar the loop processes. */
  function StartIndex(s: Settings): nat
  {
    s.windowSize + 20
  }

  /** Before the loop: a flat simulator and the balance set to the initial balance. */
  function Start(s: Settings): (st: BtState)
    ensures st.risk.currentBalance == s.riskCfg.initialBalance == st.risk.peakBalance
    ensures !st.risk.tradingPaused && st.exec == Flat && st.active.None? && st.logs == []
  {
    BtState(SetBalance(RiskManager.Init(s.riskCfg), s.riskCfg.initialBalance), Flat, None, [])
  }

  /** Stop-loss is checked before take-profit: the exit price of a triggered exit. */
  function ExitTrigger(p: Position, bar: Bar): (r: Option<real>)
    ensures r.Some? <==> bar.low <= p.stopLoss || bar.high >= p.takeProfit
    ensures bar.low <= p.stopLoss ==> r == Some(p.stopLoss)
    ensures bar.low > p.stopLoss && bar.high >= p.takeProfit ==> r == Some(p.takeProfit)
  {
    if bar.low <= p.stopLoss then Some(p.stopLoss)
    else if bar.high >= p.takeProfit then Some(p.takeProfit)
    else None
  }

  /** Sells the whole recorded amount at `price`. A fill is logged and its PnL applied to the
      balance; the position record is cleared whether or not the sell filled. */
  function ClosePosition(s: Settings, st: BtState, price: real, inp: BarInput): (r: BtState)
    requires st.active.Some?
    ensures r.active.None?
    // The order is a sell of the recorded amount at exactly `price`.
    ensures var out := Execute(s.execCfg, st.exec, Order("sell", price, st.active.value.amount, inp.time), inp.atr);
      && r.exec == out.state
      && (out.fill.Some? ==> r.logs == st.logs + [out.fill.value])
      && (out.fill.None? ==> r.logs == st.logs)
    ensures r.logs == st.logs ==> r.risk == st.risk && r.exec == st.exec
    ensures r.logs != st.logs ==>
      && |r.logs| == |st.logs| + 1
      && r.logs[..|st.logs|] == st.logs
      && r.logs[|st.logs|].action == Sell
      && r.risk == UpdateBalance(s.riskCfg, st.risk, r.logs[|st.logs|].pnl)
  {
    var order := Order("sell", price, st.active.value.amount, inp.time);
    var out := Execute(s.execCfg, st.exec, order, inp.atr);
    match out.fill
    case Some(fill) =>
      assert (st.logs + [fill])[..|st.logs|] == st.logs;
      BtState(UpdateBalance(s.riskCfg, st.risk, fill.pnl), out.state, None, st.logs + [fill])
    case None => BtState(st.risk, out.state, None, st.logs)
  }

  /** The entry chain for a buy signal while flat: ATR, then SL/TP, then size, then
      admission, then execution. Each failed check leaves the state unchanged. */
  function TryEnter(s: Settings, st: BtState, rows: nat, inp: BarInput): (r: BtState)
    ensures r.risk == st.risk
    ensures r != st ==>
      var atr := CalculateAtr(rows, AtrWindow, inp.atr);
      var levels := SlTpPrices(s.riskCfg, inp.bar.close, atr, "buy");
      && atr > 0.0
      && levels.Some?
      && 0.0 < levels.value.stopLoss < levels.value.takeProfit
      && PositionSize(s.riskCfg, st.risk, inp.bar.close, Some(levels.value.stopLoss), s.round6) > 0.0
      && ValidateTrade(st.risk, PositionSize(s.riskCfg, st.risk, inp.bar.close, Some(levels.value.stopLoss), s.round6), inp.bar.close)
    // Conversely, a passed chain buys the computed size at the bar's close and opens the
    // position at the fill's price and amount with the computed levels.
    ensures
      var atr := CalculateAtr(rows, AtrWindow, inp.atr);
      var levels := SlTpPrices(s.riskCfg, inp.bar.close, atr, "buy");
      atr > 0.0 && levels.Some? && 0.0 < levels.value.stopLoss < levels.value.takeProfit ==>
        var size := PositionSize(s.riskCfg, st.risk, inp.bar.close, Some(levels.value.stopLoss), s.round6);
        size > 0.0 && ValidateTrade(st.risk, size, inp.bar.close) ==>
          var out := Execute(s.execCfg, st.exec, Order("buy", inp.bar.close, size, inp.time), inp.atr);
          && out.fill.Some?
          && r.exec == out.state
          && r.logs == st.logs + [out.fill.value]
          && r.active == Some(Position(out.fill.value.price, size, levels.value.stopLoss, levels.value.takeProfit, inp.time))
  {
    var price := inp.bar.close;
    var atr := CalculateAtr(rows, AtrWindow, inp.atr);
    if atr <= 0.0 then st
    else
      var levels := SlTpPrices(s.riskCfg, price, atr, "buy");
      if levels.None? || levels.value.stopLoss <= 0.0 || levels.value.takeProfit <= levels.value.stopLoss then st
      else
        var size := PositionSize(s.riskCfg, st.risk, price, Some(levels.value.stopLoss), s.round6);
        if size <= 0.0 then st
        else if !ValidateTrade(st.risk, size, price) then st
        else
          var out := Execute(s.execCfg, st.exec, Order("buy", price, size, inp.time), inp.atr);
          if out.fill.Some? && out.fill.value.amount > 0.0 then
            var fill := out.fill.value;
            BtState(st.risk, out.state, Some(Position(fill.price, fill.amount, levels.value.stopLoss, levels.value.takeProfit, inp.time)), st.logs + [fill])
          else BtState(st.risk, out.state, st.active, st.logs)
  }

  /** One iteration of the main loop on the window of `rows` bars ending at `inp`. */
  function Step(s: Settings, st: BtState, rows: nat, inp: BarInput): (r: BtState)
    // The trade log is append-only and grows by at most one fill per bar.
    ensures |st.logs| <= |r.logs| <= |st.logs| + 1
    ensures r.logs[..|st.logs|] == st.logs
    // Without an open position and without a logged fill nothing moves.
    ensures st.active.None? && r.logs == st.logs ==> r == st
  {
    var trigger := if st.active.Some? then ExitTrigger(st.active.value, inp.bar) else None;
    if trigger.Some? then ClosePosition(s, st, trigger.value, inp)
    else if !ValidateTrade(st.risk, 0.0, 0.0) && st.active.None? then st
    else match inp.signal
      case None => st
      case Some(sig) =>
        if sig.action == Buy && st.active.None? then
          if st.risk.tradingPaused then st else TryEnter(s, st, rows, inp)
        else if sig.action == Sell && st.active.Some? then ClosePosition(s, st, inp.bar.close, inp)
        else st
  }

  /** Realised PnL summed over a trade log. */
  function SumPnl(logs: seq<Fill>): (total: real)
    ensures (forall i :: 0 <= i < |logs| ==> logs[i].pnl >= 0.0) ==> total >= 0.0
    ensures (forall i :: 0 <= i < |logs| ==> logs[i].pnl <= 0.0) ==> total <= 0.0
    decreases |logs|
  {
    if |logs| == 0 then 0.0 else SumPnl(logs[..|logs| - 1]) + logs[|logs| - 1].pnl
  }

  /** The driver's bookkeeping invariant: the simulator is consistent; a position record
      exists exactly when something is held, and then it records the held amount, the average
      entry price and a stop below the target; the peak is at or above the balance; and the
      balance is the initial balance plus every logged PnL. */
  predicate Inv(s: Settings, st: BtState)
    // A recorded position always holds a positive amount at a positive stop.
    ensures Inv(s, st) && st.active.Some? ==> st.active.value.amount > 0.0 && st.exec.holdings > 0.0
  {
    && Consistent(st.exec)
    && (st.active.None? <==> st.exec.holdings == 0.0)
    && (st.active.Some? ==>
          && st.active.value.amount == st.exec.holdings
          && st.active.value.entryPrice == st.exec.avgEntryPrice
          && 0.0 < st.active.value.stopLoss < st.active.value.takeProfit)
    && st.risk.peakBalance >= st.risk.currentBalance
    && st.risk.currentBalance == s.riskCfg.initialBalance + SumPnl(st.logs)
  }

  lemma StartSatisfiesInv(s: Settings)
    ensures Inv(s, Start(s))
  {
  }

  lemma SumPnlSnoc(logs: seq<Fill>, f: Fill)
    ensures SumPnl(logs + [f]) == SumPnl(logs) + f.pnl
  {
    assert (logs + [f])[..|logs|] == logs;
  }

  /** Under the invariant an exit sells everything: the simulator returns to Flat, one sell
      is logged and its PnL is applied to the balance. */
  lemma CloseFlattens(s: Settings, st: BtState, price: real, inp: BarInput)
    requires Inv(s, st) && st.active.Some?
    ensures var r := ClosePosition(s, st, price, inp);
      && r.exec == Flat
      && |r.logs| == |st.logs| + 1
      && Inv(s, r)
  {
    var r := ClosePosition(s, st, price, inp);
    var out := SimulateSell(s.execCfg, st.exec, price, st.active.value.amount, inp.atr, inp.time);
    assert out.fill.Some?;
    SumPnlSnoc(st.logs, out.fill.value);
  }

  /** Under the invariant an entry starts from Flat and records the fill exactly. */
  lemma EnterRecordsFill(s: Settings, st: BtState, rows: nat, inp: BarInput)
    requires Inv(s, st) && st.active.None?
    ensures var r := TryEnter(s, st, rows, inp);
      && Inv(s, r)
      && (r != st ==>
            && r.active.Some?
            && |r.logs| == |st.logs| + 1
            && r.logs[|st.logs|].action == Buy
            && r.active.value.entryPrice == r.logs[|st.logs|].price
            && r.active.value.amount == r.logs[|st.logs|].amount == r.exec.holdings)
  {
    var r := TryEnter(s, st, rows, inp);
    assert st.exec == Flat;
    if r != st {
      var atr := CalculateAtr(rows, AtrWindow, inp.atr);
      var levels := SlTpPrices(s.riskCfg, inp.bar.close, atr, "buy");
      var size := PositionSize(s.riskCfg, st.risk, inp.bar.close, Some(levels.value.stopLoss), s.round6);
      var b := SimulateBuy(s.execCfg, Flat, inp.bar.close, size, inp.atr, inp.time);
      FirstFillSetsAverage(b.state.avgEntryPrice, b.fill.value.price, size);
      assert r.logs == st.logs + [b.fill.value];
      SumPnlSnoc(st.logs, b.fill.value);
    }
  }

  /** Every step preserves the bookkeeping invariant. */
  lemma StepPreservesInv(s: Settings, st: BtState, rows: nat, inp: BarInput)
    requires Inv(s, st)
    ensures Inv(s, Step(s, st, rows, inp))
  {
    var trigger := if st.active.Some? then ExitTrigger(st.active.value, inp.bar) else None;
    if trigger.Some? {
      CloseFlattens(s, st, trigger.value, inp);
    } else if st.active.None? {
      EnterRecordsFill(s, st, rows, inp);
    } else {
      CloseFlattens(s, st, inp.bar.close, inp);
    }
  }

  /** A bar whose low or high crosses the open position's levels only exits: the position is
      cleared, nothing is bought, and at most one sell is logged. */
  lemma ExitBarNeverEnters(s: Settings, st: BtState, rows: nat, inp: BarInput)
    requires Inv(s, st) && st.active.Some?
    requires inp.bar.low <= st.active.value.stopLoss || inp.bar.high >= st.active.value.takeProfit
    ensures var r := Step(s, st, rows, inp);
      && r.active.None?
      && r.exec == Flat
      && |r.logs| == |st.logs| + 1
      && r.logs[|st.logs|].action == Sell
  {
    CloseFlattens(s, st, ExitTrigger(st.active.value, inp.bar).value, inp);
  }

  /** When both levels are crossed the stop-loss price is the one sold at. */
  lemma StopLossTakesPrecedence(s: Settings, st: BtState, rows: nat, inp: BarInput)
    requires st.active.Some?
    requires inp.bar.low <= st.active.value.stopLoss && inp.bar.high >= st.active.value.takeProfit
    ensures Step(s, st, rows, inp) == ClosePosition(s, st, st.active.value.stopLoss, inp)
    ensures st.exec.holdings > 0.0 && st.active.value.amount > 0.0 ==>
      var r := Step(s, st, rows, inp);
      && |r.logs| == |st.logs| + 1
      && r.logs[|st.logs|].action == Sell
      && r.logs[|st.logs|].price == st.active.value.stopLoss - DynamicSlippage(s.execCfg, st.active.value.stopLoss, inp.atr)
  {
  }

  /** A bar that crosses the open position's levels sells it at the trigger price: the stop
      when the low reaches it, otherwise the target. */
  lemma ExitAtTrigger(s: Settings, st: BtState, rows: nat, inp: BarInput)
    requires st.active.Some? && ExitTrigger(st.active.value, inp.bar).Some?
    ensures Step(s, st, rows, inp) == ClosePosition(s, st, ExitTrigger(st.active.value, inp.bar).value, inp)
    ensures inp.bar.low > st.active.value.stopLoss ==>
      Step(s, st, rows, inp) == ClosePosition(s, st, st.active.value.takeProfit, inp)
  {
  }

  /** Holding a position, a bar that crosses no level and brings no signal changes nothing. */
  lemma NoSignalHolds(s: Settings, st: BtState, rows: nat, inp: BarInput)
    requires st.active.Some? && ExitTrigger(st.active.value, inp.bar).None?
    requires inp.signal.None?
    ensures Step(s, st, rows, inp) == st
  {
  }

  /** With a position held and no level crossed, a sell signal closes the whole position at
      the bar's close. */
  lemma SellSignalExits(s: Settings, st: BtState, rows: nat, inp: BarInput)
    requires st.active.Some? && ExitTrigger(st.active.value, inp.bar).None?
    requires inp.signal.Some? && inp.signal.value.action == Sell
    ensures Step(s, st, rows, inp) == ClosePosition(s, st, inp.bar.close, inp)
  {
  }

  /** Flat, not paused and with a non-negative balance, a buy signal runs the entry chain. */
  lemma BuySignalEnters(s: Settings, st: BtState, rows: nat, inp: BarInput)
    requires st.active.None? && !st.risk.tradingPaused && st.risk.currentBalance >= 0.0
    requires inp.signal.Some? && inp.signal.value.action == Buy
    ensures Step(s, st, rows, inp) == TryEnter(s, st, rows, inp)
  {
    PauseProbe(st.risk);
  }

  /** Paused (or with a negative balance) and flat, the bar is skipped entirely. */
  lemma PausedAndFlatSkips(s: Settings, st: BtState, rows: nat, inp: BarInput)
    requires st.active.None?
    requires st.risk.tradingPaused || st.risk.currentBalance < 0.0
    ensures Step(s, st, rows, inp) == st
  {
    PauseProbe(st.risk);
  }

  /** A sell signal while flat is ignored. */
  lemma SellWhileFlatIgnored(s: Settings, st: BtState, rows: nat, inp: BarInput)
    requires st.active.None? && inp.signal.Some? && inp.signal.value.action == Sell
    ensures Step(s, st, rows, inp) == st
  {
  }

  /** A buy signal while holding a position is ignored unless the bar exits it. */
  lemma BuyWhileHoldingIgnored(s: Settings, st: BtState, rows: nat, inp: BarInput)
    requires st.active.Some? && ExitTrigger(st.active.value, inp.bar).None?
    requires inp.signal.Some? && inp.signal.value.action == Buy
    ensures Step(s, st, rows, inp) == st
  {
  }

  /** An entry happens only from flat, on a buy signal, with every check of the chain passed,
      and it never touches the balance. */
  lemma EntryNeedsFullChain(s: Settings, st: BtState, rows: nat, inp: BarInput)
    requires Inv(s, st) && st.active.None?
    requires Step(s, st, rows, inp).active.Some?
    ensures inp.signal.Some? && inp.signal.value.action == Buy && !st.risk.tradingPaused
    ensures var atr := CalculateAtr(rows, AtrWindow, inp.atr);
      var levels := SlTpPrices(s.riskCfg, inp.bar.close, atr, "buy");
      && atr > 0.0
      && levels.Some?
      && 0.0 < levels.value.stopLoss < levels.value.takeProfit
      && Step(s, st, rows, inp).active.value.stopLoss == levels.value.stopLoss
      && Step(s, st, rows, inp).active.value.takeProfit == levels.value.takeProfit
      && ValidateTrade(st.risk, PositionSize(s.riskCfg, st.risk, inp.bar.close, Some(levels.value.stopLoss), s.round6), inp.bar.close)
    ensures Step(s, st, rows, inp).risk == st.risk
  {
  }

  /** The balance moves only by the PnL of a logged sell; a step that logs nothing or logs
      a buy leaves the account unchanged. */
  lemma BalanceMovesOnlyBySells(s: Settings, st: BtState, rows: nat, inp: BarInput)
    requires Inv(s, st)
    ensures var r := Step(s, st, rows, inp);
      && (r.logs == st.logs ==> r.risk == st.risk)
      && (r.logs != st.logs ==>
            && |r.logs| == |st.logs| + 1
            && (r.logs[|st.logs|].action == Buy ==> r.risk == st.risk)
            && (r.logs[|st.logs|].action == Sell ==> r.risk == UpdateBalance(s.riskCfg, st.risk, r.logs[|st.logs|].pnl)))
  {
    var trigger := if st.active.Some? then ExitTrigger(st.active.value, inp.bar) else None;
    if trigger.Some? {
    } else if st.active.None? {
      EnterRecordsFill(s, st, rows, inp);
    } else {
    }
  }

  /** The loop from bar index `i` on: the window ending at `inputs[k]` has i + k + 1 rows. */
  function Run(s: Settings, st: BtState, inputs: seq<BarInput>, i: nat): (r: BtState)
    // The log only grows, by at most one fill per bar.
    ensures |st.logs| <= |r.logs| <= |st.logs| + |inputs|
    ensures r.logs[..|st.logs|] == st.logs
    decreases |inputs|
  {
    if |inputs| == 0 then st
    else
      var next := Step(s, st, i + 1, inputs[0]);
      var r := Run(s, next, inputs[1..], i + 1);
      assert r.logs[..|st.logs|] == r.logs[..|next.logs|][..|st.logs|];
      r
  }

  /** The invariant holds after any number of bars. */
  lemma {:induction false} RunPreservesInv(s: Settings, st: BtState, inputs: seq<BarInput>, i: nat)
    requires Inv(s, st)
    ensures Inv(s, Run(s, st, inputs, i))
    decreases |inputs|
  {
    if |inputs| > 0 {
      StepPreservesInv(s, st, i + 1, inputs[0]);
      RunPreservesInv(s, Step(s, st, i + 1, inputs[0]), inputs[1..], i + 1);
    }
  }

  /** Over a whole run the peak never decreases and a pause is never lifted: the driver
      never resets the latch. */
  lemma {:induction false} RunKeepsPeakAndLatch(s: Settings, st: BtState, inputs: seq<BarInput>, i: nat)
    requires Inv(s, st)
    ensures Run(s, st, inputs, i).risk.peakBalance >= st.risk.peakBalance
    ensures st.risk.tradingPaused ==> Run(s, st, inputs, i).risk.tradingPaused
    decreases |inputs|
  {
    if |inputs| > 0 {
      BalanceMovesOnlyBySells(s, st, i + 1, inputs[0]);
      StepPreservesInv(s, st, i + 1, inputs[0]);
      RunKeepsPeakAndLatch(s, Step(s, st, i + 1, inputs[0]), inputs[1..], i + 1);
    }
  }

  /** Number of sells in a trade log (the summary's trade count). */
  function SellCount(logs: seq<Fill>): (n: nat)
    ensures n <= |logs|
    ensures (forall i :: 0 <= i < |logs| ==> logs[i].action == Sell) ==> n == |logs|
    ensures (forall i :: 0 <= i < |logs| ==> logs[i].action == Buy) ==> n == 0
    decreases |logs|
  {
    if |logs| == 0 then 0 else SellCount(logs[..|logs| - 1]) + (if logs[|logs| - 1].action == Sell then 1 else 0)
  }

  /** The summary a run returns. */
  datatype Summary = Summary(
    initialBalance: real, finalBalance: real, totalPnl: real, pnlPct: real,
    peakBalance: real, finalDrawdownPct: real, numTrades: nat)

  /** `run_backtest` over all bars of a data file: None when there are fewer than
      window_size + 20 bars; otherwise the loop runs from that index to the last bar. */
  function RunBacktest(s: Settings, bars: seq<BarInput>): (r: Option<Summary>)
    ensures r.None? <==> |bars| < StartIndex(s)
    ensures r.Some? ==> r.value.initialBalance == s.riskCfg.initialBalance
    ensures r.Some? ==>
      var st := Run(s, Start(s), bars[StartIndex(s)..], StartIndex(s));
      && r.value.finalBalance == st.risk.currentBalance
      && r.value.totalPnl == r.value.finalBalance - r.value.initialBalance
      && r.value.totalPnl == SumPnl(st.logs)
      && r.value.peakBalance >= r.value.finalBalance
      && r.value.numTrades == SellCount(st.logs)
  {
    if |bars| < StartIndex(s) then None
    else
      var initial := s.riskCfg.initialBalance;
      StartSatisfiesInv(s);
      var st := Run(s, Start(s), bars[StartIndex(s)..], StartIndex(s));
      RunPreservesInv(s, Start(s), bars[StartIndex(s)..], StartIndex(s));
      var final := st.risk.currentBalance;
      if |st.logs| > 0 then
        var total := final - initial;
        var pct := if initial != 0.0 then (total / initial) * 100.0 else 0.0;
        var drawdown := if st.risk.peakBalance > 0.0 then (1.0 - final / st.risk.peakBalance) * 100.0 else 0.0;
        Some(Summary(initial, final, total, pct, st.risk.peakBalance, drawdown, SellCount(st.logs)))
      else
        Some(Summary(initial, final, 0.0, 0.0, initial, 0.0, 0))
  }
}
