/** The execution simulator of `core/executor.py`: a proposed order becomes a fill after
    volatility-scaled slippage and commission, while the simulator keeps the running
    holdings and their volume-weighted average entry price. */
module Executor {
  import opened Common

  /** Fee settings: `binance.commission_rate` and `trading.slippage_base_rate`. */
  datatype ExecConfig = ExecConfig(commissionRate: real, baseSlippageRate: real)

  /** The configuration defaults the simulator falls back to. */
  const DefaultConfig: ExecConfig := ExecConfig(0.00075, 0.0005)

  /** Simulated position: quantity held (base currency) and its average entry price. */
  datatype ExecState = ExecState(holdings: real, avgEntryPrice: real)

  /** The state of a fresh simulator and of one that has closed its position. */
  const Flat: ExecState := ExecState(0.0, 0.0)

  /** Remaining holdings below this are normalised to an exact full close. */
  const FlatEpsilon: real := 0.000000001

  /** An order as the driver builds it; `action` is the raw string ("buy", "sell", ...)
      and `price` the signal price, not the fill price. */
  datatype Order = Order(action: string, price: real, amount: real, time: int)

  /** The execution result appended to the trade log. */
  datatype Fill = Fill(
    action: Side,
    price: real,
    amount: real,
    commission: real,
    slippage: real,
    pnl: real,
    time: int,
    holdings: real,
    avgEntryPrice: real)

  /** New simulator state, and the fill or None when the order was skipped. */
  datatype Outcome = Outcome(state: ExecState, fill: Option<Fill>)

  /** Slippage rate chosen from the ATR-to-price ratio. `atr` is the latest ATR(14) of the
      current window; None stands for no data, a NaN reading or a failed computation. */
  function SlippageRate(base: real, price: real, atr: Option<real>): (rate: real)
    ensures rate == base || rate == 2.0 * base || rate == 0.5 * base
    ensures atr.None? || price <= 0.0 ==> rate == base
    ensures atr.Some? && price > 0.0 && atr.value > 0.02 * price ==> rate == 2.0 * base
    ensures atr.Some? && price > 0.0 && atr.value < 0.005 * price ==> rate == 0.5 * base
    ensures atr.Some? && price > 0.0 && 0.005 * price <= atr.value <= 0.02 * price ==> rate == base
  {
    if atr.None? || price <= 0.0 then base
    else
      var ratio := atr.value / price;
      assert ratio * price == atr.value;
      if ratio > 0.02 then base * 2.0
      else if ratio < 0.005 then base * 0.5
      else base
  }

  /** Slippage in quote currency per unit for an order at `price`. */
  function DynamicSlippage(cfg: ExecConfig, price: real, atr: Option<real>): (slip: real)
    ensures atr.None? ==> slip == price * cfg.baseSlippageRate
    // Between half and twice the base slippage, and never negative for a non-negative
    // price and rate.
    ensures price >= 0.0 && cfg.baseSlippageRate >= 0.0 ==>
      0.5 * price * cfg.baseSlippageRate <= slip <= 2.0 * price * cfg.baseSlippageRate
  {
    price * SlippageRate(cfg.baseSlippageRate, price, atr)
  }

  /** A buy: fills above the signal price, grows the holdings by exactly the amount and
      folds the fill into the average entry price. */
  function SimulateBuy(cfg: ExecConfig, st: ExecState, price: real, amount: real, atr: Option<real>, time: int): (r: Outcome)
    ensures amount <= 0.0 ==> r == Outcome(st, None)
    ensures amount > 0.0 ==>
      && r.fill.Some?
      && r.fill.value.action == Buy
      && r.fill.value.amount == amount
      && r.fill.value.slippage == DynamicSlippage(cfg, price, atr)
      && r.fill.value.price == price + r.fill.value.slippage
      && r.fill.value.pnl == 0.0
      && r.fill.value.commission == amount * r.fill.value.price * cfg.commissionRate
      && r.state.holdings == st.holdings + amount
      && r.fill.value.holdings == r.state.holdings
      && r.fill.value.avgEntryPrice == r.state.avgEntryPrice
    // Cost conservation: the new average times the new holdings is the old cost basis plus the fill's cost.
    ensures amount > 0.0 && st.holdings >= 0.0 ==>
      r.state.avgEntryPrice * r.state.holdings == st.avgEntryPrice * st.holdings + r.fill.value.price * amount
  {
    if amount <= 0.0 then Outcome(st, None)
    else
      var slippage := DynamicSlippage(cfg, price, atr);
      var execPrice := price + slippage;
      var commission := amount * execPrice * cfg.commissionRate;
      var totalCost := st.avgEntryPrice * st.holdings + execPrice * amount;
      var holdings := st.holdings + amount;
      var avg := AverageCost(totalCost, holdings);
      var next := ExecState(holdings, avg);
      Outcome(next, Some(Fill(Buy, execPrice, amount, commission, slippage, 0.0, time, holdings, avg)))
  }

  /** Cost basis per unit held; 0 for no holdings. */
  function AverageCost(totalCost: real, holdings: real): (avg: real)
    ensures holdings > 0.0 ==> avg * holdings == totalCost
    ensures holdings <= 0.0 ==> avg == 0.0
  {
    if holdings > 0.0 then totalCost / holdings else 0.0
  }

  /** A sell: never sells more than is held, fills below the signal price, realises PnL
      against the average entry price and normalises a near-empty position to Flat. */
  function SimulateSell(cfg: ExecConfig, st: ExecState, price: real, amount: real, atr: Option<real>, time: int): (r: Outcome)
    ensures st.holdings <= 0.0 || amount <= 0.0 ==> r == Outcome(st, None)
    ensures st.holdings > 0.0 && amount > 0.0 ==>
      && r.fill.Some?
      && r.fill.value.action == Sell
      && r.fill.value.amount <= st.holdings
      && r.fill.value.amount <= amount
      && (r.fill.value.amount == amount || r.fill.value.amount == st.holdings)
      && r.fill.value.slippage == DynamicSlippage(cfg, price, atr)
      && r.fill.value.price == price - r.fill.value.slippage
      && r.fill.value.commission == r.fill.value.amount * r.fill.value.price * cfg.commissionRate
      && r.fill.value.pnl == (r.fill.value.price - st.avgEntryPrice) * r.fill.value.amount - r.fill.value.commission
      && (st.holdings - r.fill.value.amount < FlatEpsilon ==> r.state == Flat)
      && (st.holdings - r.fill.value.amount >= FlatEpsilon ==>
            r.state == ExecState(st.holdings - r.fill.value.amount, st.avgEntryPrice))
      && r.fill.value.holdings == r.state.holdings
      && r.fill.value.avgEntryPrice == r.state.avgEntryPrice
    ensures r.fill.Some? ==> r.state.holdings >= 0.0
  {
    if st.holdings <= 0.0 then Outcome(st, None)
    else
      var sellAmount := MinReal(amount, st.holdings);
      if sellAmount <= 0.0 then Outcome(st, None)
      else
        var slippage := DynamicSlippage(cfg, price, atr);
        var execPrice := price - slippage;
        var commission := sellAmount * execPrice * cfg.commissionRate;
        var pnl := (execPrice - st.avgEntryPrice) * sellAmount - commission;
        var remaining := st.holdings - sellAmount;
        var next := if remaining < FlatEpsilon then Flat else ExecState(remaining, st.avgEntryPrice);
        var reportedAvg := if next.holdings > 0.0 then next.avgEntryPrice else 0.0;
        Outcome(next, Some(Fill(Sell, execPrice, sellAmount, commission, slippage, pnl, time, next.holdings, reportedAvg)))
  }

  /** Dispatch on the order's action string; any other action is skipped. */
  function Execute(cfg: ExecConfig, st: ExecState, order: Order, atr: Option<real>): (r: Outcome)
    ensures order.action == "buy" ==> r == SimulateBuy(cfg, st, order.price, order.amount, atr, order.time)
    ensures order.action == "sell" ==> r == SimulateSell(cfg, st, order.price, order.amount, atr, order.time)
    ensures order.action != "buy" && order.action != "sell" ==> r == Outcome(st, None)
    ensures r.fill.None? ==> r.state == st
  {
    if order.action == "buy" then SimulateBuy(cfg, st, order.price, order.amount, atr, order.time)
    else if order.action == "sell" then SimulateSell(cfg, st, order.price, order.amount, atr, order.time)
    else Outcome(st, None)
  }

  /** The simulator's bookkeeping invariant: holdings are never negative and a flat
      position carries no average price. */
  predicate Consistent(st: ExecState)
  {
    st.holdings >= 0.0 && (st.holdings == 0.0 ==> st.avgEntryPrice == 0.0)
  }

  /** Every order, filled or skipped, keeps the bookkeeping invariant. */
  lemma ExecutePreservesConsistent(cfg: ExecConfig, st: ExecState, order: Order, atr: Option<real>)
    requires Consistent(st)
    ensures Consistent(Execute(cfg, st, order, atr).state)
  {
  }

  /** A buy's new average entry price lies between the old average and the fill price:
      the volume-weighted mean of the two. */
  lemma BuyAverageIsBetween(cfg: ExecConfig, st: ExecState, price: real, amount: real, atr: Option<real>, time: int)
    requires st.holdings >= 0.0 && amount > 0.0
    ensures var r := SimulateBuy(cfg, st, price, amount, atr, time);
      MinReal(st.avgEntryPrice, r.fill.value.price) <= r.state.avgEntryPrice <= MaxReal(st.avgEntryPrice, r.fill.value.price)
  {
    var r := SimulateBuy(cfg, st, price, amount, atr, time);
    WeightedAverageIsBetween(st.avgEntryPrice, st.holdings, r.fill.value.price, amount, r.state.avgEntryPrice);
  }

  /** An average `avg` weighting `a` by `h >= 0` and `f` by `m > 0` lies between `a` and `f`. */
  lemma WeightedAverageIsBetween(a: real, h: real, f: real, m: real, avg: real)
    requires h >= 0.0 && m > 0.0 && avg * (h + m) == a * h + f * m
    ensures MinReal(a, f) <= avg <= MaxReal(a, f)
  {
    var lo, hi := MinReal(a, f), MaxReal(a, f);
    assert (avg - lo) * (h + m) == (a - lo) * h + (f - lo) * m;
    assert (hi - avg) * (h + m) == (hi - a) * h + (hi - f) * m;
    ProductNonNegative(a - lo, h);
    ProductNonNegative(f - lo, m);
    ProductNonNegative(hi - a, h);
    ProductNonNegative(hi - f, m);
    SignOfFactor(avg - lo, h + m);
    SignOfFactor(hi - avg, h + m);
  }

  lemma ProductNonNegative(x: real, k: real)
    requires x >= 0.0 && k >= 0.0
    ensures x * k >= 0.0
  {
  }

  lemma SignOfFactor(x: real, k: real)
    requires k > 0.0 && x * k >= 0.0
    ensures x >= 0.0
  {
  }

  /** Opening from flat and then selling the whole amount returns the simulator to Flat,
      and the realised PnL is the price difference between the two fills times the
      amount, less the sell commission. */
  lemma {:induction false} OpenThenCloseRoundTrip(
    cfg: ExecConfig, buyPrice: real, sellPrice: real, amount: real,
    buyAtr: Option<real>, sellAtr: Option<real>, t1: int, t2: int)
    requires amount > 0.0
    ensures var b := SimulateBuy(cfg, Flat, buyPrice, amount, buyAtr, t1);
      var s := SimulateSell(cfg, b.state, sellPrice, amount, sellAtr, t2);
      && b.state == ExecState(amount, b.fill.value.price)
      && s.state == Flat
      && s.fill.Some?
      && s.fill.value.amount == amount
      && s.fill.value.pnl == (s.fill.value.price - b.fill.value.price) * amount - s.fill.value.commission
  {
    var b := SimulateBuy(cfg, Flat, buyPrice, amount, buyAtr, t1);
    BuyFromFlat(cfg, buyPrice, amount, buyAtr, t1);
    SellEverything(cfg, b.state, sellPrice, sellAtr, t2);
  }

  /** A buy from flat holds exactly the amount at the fill's price. */
  lemma BuyFromFlat(cfg: ExecConfig, price: real, amount: real, atr: Option<real>, time: int)
    requires amount > 0.0
    ensures var b := SimulateBuy(cfg, Flat, price, amount, atr, time);
      b.fill.Some? && b.state == ExecState(amount, b.fill.value.price)
  {
    var b := SimulateBuy(cfg, Flat, price, amount, atr, time);
    FirstFillSetsAverage(b.state.avgEntryPrice, b.fill.value.price, amount);
  }

  /** From flat the weighted average is the single fill's price. */
  lemma FirstFillSetsAverage(avg: real, f: real, m: real)
    requires m > 0.0 && avg * m == 0.0 * 0.0 + f * m
    ensures avg == f
  {
    assert (avg - f) * m == 0.0;
    SignOfFactor(avg - f, m);
    SignOfFactor(f - avg, m);
  }

  /** Selling exactly the holdings fills all of them and returns the simulator to Flat. */
  lemma SellEverything(cfg: ExecConfig, st: ExecState, price: real, atr: Option<real>, time: int)
    requires st.holdings > 0.0
    ensures var s := SimulateSell(cfg, st, price, st.holdings, atr, time);
      && s.state == Flat
      && s.fill.Some?
      && s.fill.value.amount == st.holdings
      && s.fill.value.pnl == (s.fill.value.price - st.avgEntryPrice) * st.holdings - s.fill.value.commission
  {
  }

  /** With zero commission and zero slippage a full round trip from Flat realises exactly
      (sell price - buy price) * amount; buying 1 at 100 and selling 1 at 110 realises 10. */
  lemma CostFreeRoundTrip(buyPrice: real, sellPrice: real, amount: real)
    requires amount > 0.0
    ensures var cfg := ExecConfig(0.0, 0.0);
      var b := SimulateBuy(cfg, Flat, buyPrice, amount, None, 0);
      var s := SimulateSell(cfg, b.state, sellPrice, amount, None, 1);
      s.fill.Some? && s.fill.value.pnl == (sellPrice - buyPrice) * amount && s.state == Flat
  {
    var cfg := ExecConfig(0.0, 0.0);
    OpenThenCloseRoundTrip(cfg, buyPrice, sellPrice, amount, None, None, 0, 1);
    assert DynamicSlippage(cfg, buyPrice, None) == 0.0;
    assert DynamicSlippage(cfg, sellPrice, None) == 0.0;
  }

  /** Higher volatility never lowers the slippage rate (for a non-negative base rate). */
  lemma {:induction false} SlippageRateMonotone(base: real, price: real, atr1: real, atr2: real)
    requires base >= 0.0 && price > 0.0 && atr1 <= atr2
    ensures SlippageRate(base, price, Some(atr1)) <= SlippageRate(base, price, Some(atr2))
  {
  }

  /** The three regimes at base rate 0.0005: ratio 0.03 doubles, 0.003 halves, 0.01 keeps it. */
  lemma SlippageRateExamples()
    ensures SlippageRate(0.0005, 100.0, Some(3.0)) == 0.001
    ensures SlippageRate(0.0005, 100.0, Some(0.3)) == 0.00025
    ensures SlippageRate(0.0005, 100.0, Some(1.0)) == 0.0005
  {
  }
}
