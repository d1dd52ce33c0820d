# smartbtc_v1 trading core in Dafny

This project models the decision and bookkeeping core of the smartbtc_v1 BTC/USDT
backtester. Every module is a set of pure functions over immutable records. Prices are
`real`.

- **Execution simulator** (`Executor`, from `core/executor.py`).
  - It keeps the running holdings and their volume-weighted average entry price.
  - It applies ATR-scaled slippage and commission.
  - It never sells more than is held, realises PnL against the average price, and snaps a
    near-empty position back to flat.
- **Risk controller** (`RiskManager`, from `core/risk_manager.py`).
  - It tracks the balance and a running peak.
  - It sets a one-way drawdown pause latch that only a manual reset clears.
  - It computes ATR stop-loss/take-profit levels, fixed-fraction-risk sizing and the
    admission check.
- **Backtest driver** (`Backtest`, from `run_backtest.py`).
  - The main loop is a fold of `Step` over per-bar inputs: the candle, its ATR reading, and
    the signal generated on the window ending at it.
  - It holds at most one long position and handles exits before entries, checking
    stop-loss before take-profit.
  - A bar that exits never enters. A paused, flat account skips the bar.
  - An entry passes the ATR → SL/TP → size → admission chain.
  - A run is refused when it has fewer than window_size + 20 bars. Otherwise it returns a
    summary.
- **Signal fusion** (`SignalGenerator`, from `core/signal_generator.py`).
  - The regime picks mean reversion (for "ranging") or trend following (for anything else).
  - The strategy proposes a direction.
  - Candlestick evidence, a volume spike and an agreeing AI prediction add up to a
    confidence that must reach 0.2.
- **Regime and strategies**:
  - `MarketState` (`core/market_state.py`): a weighted trend score, thresholded into a label.
  - `StrategySwitcher` (`core/strategy_switcher.py`): "neutral" keeps the last decisive
    label.
  - `MeanReversion` and `TrendFollowing`: the two strategies' decision rules.
- **Helpers**:
  - `Indicators` (`utils/indicators.py`): candlestick predicates and the causal
    pattern-outcome counter.
  - `PerformanceReport` (`analysis/performance_report.py`): trade-log metrics.
  - `SplitData` (`split_data.py`): CSV chunk ranges.
  - `LiveTiming` (`run_live.py`): the timeframe-to-seconds parse and loop waits.

Inputs that an indicator library or the ML model computes enter the model as values:
- ATR, ADX, RSI, moving averages, MACD, Bollinger width and rolling volatility;
- the AI prediction and its confidence.

The readings are optional (`Option`) where the source tests them for NaN or catches an
exception. Python's `round(x, 2)` and `round(x, 6)` are function parameters (`round2`,
`round6`), so no property depends on how floats round.

Two places where the source's behaviour is easy to misread, both modelled as written:
- `core/signal_generator.py` computes the fused confidence twice.
  - The first block (lines 91-108) uses a bearish-engulfing threshold of 0.4.
  - The second block (lines 114-152) recomputes everything with 0.1, and only its values
    reach the result.
  - `PatternConfidence` follows the second block.
- The mean-reversion confidence is capped at 1 but has no lower bound.
  - A buy triggered by the price deviation while the RSI is high gets a negative confidence.
  - `MeanReversion.ConfidenceUnboundedBelow` exhibits one.
  - The strategy's confidence never reaches the fused total, so this has no effect
    downstream.

## Model

| member | source | states |
|---|---|---|
| Executor.SlippageRate | core/executor.py:30-57 | the rate is 2x base when ATR/price > 0.02, 0.5x base when < 0.005, base otherwise, and base with no ATR reading or a non-positive price |
| Executor.DynamicSlippage | core/executor.py:30-57 | the per-unit slippage is price × base rate with no ATR reading, and always between half and twice price × base rate |
| Executor.SlippageRateMonotone | core/executor.py:44-53 | a higher ATR never lowers the slippage rate for a non-negative base |
| Executor.SlippageRateExamples | core/executor.py:47-52 | the three regimes at base 0.0005 and price 100: ATR 3 doubles, 0.3 halves, 1 keeps the rate |
| Executor.SimulateBuy | core/executor.py:74-100 | a non-positive amount is skipped with the state unchanged; otherwise fill = signal + slippage, pnl 0, commission = amount·fill·rate, holdings grow by exactly the amount, and new average × new holdings = old cost basis + fill cost |
| Executor.AverageCost | core/executor.py:87-90 | the average times the holdings gives back the total cost; 0 for no holdings |
| Executor.SimulateSell | core/executor.py:102-139 | no holdings or a non-positive amount is skipped unchanged; otherwise the filled amount is min(requested, held), fill = signal − slippage, pnl = (fill − average)·amount − commission, a remainder below 1e-9 returns to flat, and a partial sell keeps the average |
| Executor.Execute | core/executor.py:66-142 | "buy" and "sell" dispatch to the two simulations; any other action fills nothing and changes nothing |
| Executor.ExecutePreservesConsistent | core/executor.py:66-142 | every order keeps holdings non-negative and a flat position's average at 0 |
| Executor.BuyAverageIsBetween | core/executor.py:85-90 | a buy's new average entry price lies between the old average and the fill price |
| Executor.OpenThenCloseRoundTrip | core/executor.py:74-139 | buying from flat then selling the same amount returns to flat, the average after the buy is the fill price, and the realised pnl is the fill-price difference times the amount less the sell commission |
| Executor.BuyFromFlat | core/executor.py:74-100 | a buy from flat holds exactly the amount, at the fill price as the average |
| Executor.SellEverything | core/executor.py:109-131 | selling exactly the holdings fills all of them and returns to flat |
| Executor.CostFreeRoundTrip | core/executor.py:80-121 | with zero commission and slippage a round trip realises exactly (sell − buy)·amount |
| RiskManager.Drawdown | core/risk_manager.py:38-41 | drawdown × peak = peak − balance for a positive peak, 0 otherwise |
| RiskManager.CheckDrawdown | core/risk_manager.py:36-53 | the latch is set iff it was set or the balance is below (1 − max_drawdown)·peak; it is never cleared; the balances are untouched |
| RiskManager.UpdateBalance | core/risk_manager.py:25-29 | the balance moves by exactly the pnl, the peak becomes max(peak, balance) so it never falls and stays at or above the balance, and the latch is re-checked |
| RiskManager.SetBalance | core/risk_manager.py:31-34 | the balance is overwritten, the peak only rises via max, and the latch is untouched |
| RiskManager.SetBalanceNeverPauses | core/risk_manager.py:31-34 | setting 500 against a 1000 peak leaves trading unpaused though the drawdown floor is crossed |
| RiskManager.ResetTradingPause | core/risk_manager.py:138-146 | when paused, the latch clears and the peak rebases to the balance (zero drawdown); otherwise the state is unchanged |
| RiskManager.CalculateAtr | core/risk_manager.py:55-66 | 0 with fewer than window + 1 rows or a missing reading, the reading otherwise |
| RiskManager.SlTpPrices | core/risk_manager.py:68-82 | None iff ATR ≤ 0 or the action is neither buy nor sell; a buy's stop is k_sl ATRs below the entry and its target k_tp ATRs above, mirrored for a sell, so stop < entry < target for positive multipliers |
| RiskManager.RawPositionSize | core/risk_manager.py:93-103 | the size times the stop distance equals balance × risk fraction |
| RiskManager.PositionSize | core/risk_manager.py:84-110 | 0 without a stop, with a non-positive entry or a stop at the entry; otherwise round6 of the risk-budget size |
| RiskManager.PositionSizeExample | core/risk_manager.py:84-110 | balance 10000, 2% risk, entry 100 and stop 98 give 100 before rounding |
| RiskManager.ValidateTrade | core/risk_manager.py:123-136 | admitted iff not paused and size·price ≤ 0.99·balance |
| RiskManager.PauseProbe | run_backtest.py:138 | the probe validate_trade(0, 0) fails iff paused or the balance is negative |
| RiskManager.PauseIsLatched | core/risk_manager.py:25-53 | once paused, any sequence of balance updates and sets leaves trading paused |
| RiskManager.PeakNeverDecreases | core/risk_manager.py:25-34 | without a manual reset the peak never decreases and ends at or above the balance |
| RiskManager.DrawdownTripScenario | core/risk_manager.py:36-53 | 1000 → 900 stays active, → 790 (21%) pauses, and a later +150 does not resume |
| Indicators.RecentTrendOfRisingCloses | utils/indicators.py:61-62 | non-decreasing closes before the current bar give a non-negative summed return, so no downtrend |
| Indicators.DetectHammer | utils/indicators.py:47-64 | true iff at least 5 bars, the hammer shape on the last bar, and summed returns over closes[-5:-1] below −0.02 |
| Indicators.HammerShadowDominatesRange | utils/indicators.py:56-60 | a hammer's lower shadow exceeds half its range |
| Indicators.DetectEngulfing | utils/indicators.py:66-82 | None for fewer than 2 bars; a result exactly when one of the two engulfing pairs holds, with the price ordering of each kind |
| Indicators.EngulfingKindsExclusive | utils/indicators.py:75-76 | no candle pair is both bullish and bearish engulfing |
| Indicators.DetectDoji | utils/indicators.py:84-91 | true iff the range is positive and the body is under 5% of it |
| Indicators.UpCount | utils/indicators.py:97-109 | the occurrences followed by a rise never outnumber the occurrences |
| Indicators.PatternProbability | utils/indicators.py:93-111 | (0, 0) for a short window or no occurrences; otherwise the first component is rises / occurrences, always in [0, 1], and the second is the mean return over the lookback after each occurrence |
| Indicators.CountsIgnoreLaterBars | utils/indicators.py:98-103 | appending later bars does not change the counts: each prefix ends at its own index |
| MarketState.WeightsSumToOne | core/market_state.py:45-50 | the six weights sum to 1 |
| MarketState.ClampedVolumeTrend | core/market_state.py:42-56 | the volume-trend term is never negative |
| MarketState.ScoreOfUnitTermsIsUnit | core/market_state.py:51-56 | terms in [0, 1] give a score in [0, 1] |
| MarketState.FallingVolumeAddsNothing | core/market_state.py:42-56 | a falling volume contributes nothing to the score |
| MarketState.Classify | core/market_state.py:58-63 | trending iff score > 0.7, ranging iff < 0.005, neutral iff in between |
| MarketState.DetectState | core/market_state.py:13-66 | unknown for fewer than atr_window + 10 rows or a failed computation; always one of the four labels; otherwise the classification of the weighted score |
| MarketState.ShortWindowIsUnknown | core/market_state.py:14-15 | fewer than 24 rows is unknown with the default window |
| MeanReversion.RawConfidence | strategies/mean_reversion.py:41-47 | capped at 1; below the cap it is gap/20 + 1/2 |
| MeanReversion.Check | strategies/mean_reversion.py:22-53 | None for short windows or NaN readings; buy iff oversold (RSI < low or deviation < −3%); sell iff not oversold and overbought; confidence is round2 of the capped gap rule |
| MeanReversion.QuietInsideBand | strategies/mean_reversion.py:40-53 | RSI within the band and close within 3% of the average gives no signal |
| MeanReversion.RsiBuyIsConfident | strategies/mean_reversion.py:40-41 | an RSI-triggered buy has raw confidence in (0.5, 1] |
| MeanReversion.ConfidenceUnboundedBelow | strategies/mean_reversion.py:40-45 | RSI 100 with the close 10% below the average still buys, with raw confidence −2.5 |
| TrendFollowing.MaxHigh | strategies/trend_following.py:58 | the maximum bounds every high and is attained |
| TrendFollowing.MinLow | strategies/trend_following.py:59 | the minimum bounds every low and is attained |
| TrendFollowing.BreakoutWindow | strategies/trend_following.py:57-59 | the breakout compares against the 9 bars before the current one |
| TrendFollowing.Check | strategies/trend_following.py:38-71 | None below long_ma + adx_period + 2 rows; buy iff an MA cross-up, a MACD cross-up or a breakout; sell iff no buy condition and a mirror condition; confidence always 0.5 |
| TrendFollowing.DefaultMinRows | strategies/trend_following.py:39-40 | the default guard is 46 rows |
| TrendFollowing.AdxIsIgnored | strategies/trend_following.py:45 | changing the ADX reading never changes the decision |
| TrendFollowing.BreakoutMeansAboveEveryHigh | strategies/trend_following.py:57-64 | the breakout holds iff the close exceeds each of the nine previous highs |
| StrategySwitcher.StrategyFor | core/strategy_switcher.py:31-39 | mean reversion iff ranging, trend following iff trending, nothing otherwise |
| StrategySwitcher.Select | core/strategy_switcher.py:21-39 | neutral keeps the memory and uses the remembered label's strategy; any other label, unknown included, is remembered and used |
| StrategySwitcher.FirstNeutralSelectsNothing | core/strategy_switcher.py:12 | a fresh switcher given neutral selects nothing |
| StrategySwitcher.UnknownIsRemembered | core/strategy_switcher.py:30 | unknown overwrites the memory, so a later neutral selects nothing |
| StrategySwitcher.Feed | core/strategy_switcher.py:21-30 | after a label sequence the memory is the old one or a non-neutral label from the sequence, and an all-neutral sequence keeps it |
| StrategySwitcher.LastDecisive | core/strategy_switcher.py:21-30 | the last non-neutral label, or the default |
| StrategySwitcher.FeedRemembersLastDecisive | core/strategy_switcher.py:21-30 | after any label sequence the memory is the last non-neutral label seen |
| StrategySwitcher.NeutralRunKeepsStrategy | core/strategy_switcher.py:21-28 | any run of neutral labels after a decisive one keeps selecting its strategy |
| SignalGenerator.PriorBars | core/signal_generator.py:78 | the volume average reads the 19 bars before the latest |
| SignalGenerator.VolumeSpike | core/signal_generator.py:78-80 | a spike iff 19 × volume > 1.1 × the sum of the previous 19 volumes, the division-free form of volume > 1.1 × their mean |
| SignalGenerator.EvidenceOf | core/signal_generator.py:63-80 | a hammer is only seen in a downtrend, the two trends exclude each other, a doji bar has a non-zero range, and every pattern probability lies in [0, 1] |
| SignalGenerator.Proposal | core/signal_generator.py:117-123 | in a ranging market a proposal needs the RSI window and both readings; in any other regime it comes from the trend follower at confidence 0.5 |
| SignalGenerator.PatternConfidence | core/signal_generator.py:129-137 | buy: 0.4 iff a confirmed hammer, 0.2 iff no hammer and a confirmed doji; sell: 0.4 iff a confirmed bearish engulfing, never 0.2 |
| SignalGenerator.VolumeConfidence | core/signal_generator.py:139-142 | 0.12 iff a volume spike, 0 otherwise |
| SignalGenerator.TotalConfidence | core/signal_generator.py:145-148 | without AI agreement the total is in [0, 0.52], and below 0.2 when no pattern confirms; without a volume spike it is the AI's confidence on agreement and 0 otherwise; with a spike it is the pattern boost + 0.12, plus the AI's confidence on agreement |
| SignalGenerator.AgreementAddsAiConfidence | core/signal_generator.py:145-148 | agreement adds exactly the AI confidence; disagreement subtracts nothing |
| SignalGenerator.StrategyForRegime | core/signal_generator.py:118-123 | mean reversion iff the regime is ranging |
| SignalGenerator.Generate | core/signal_generator.py:114-176 | no proposal gives None; a signal exists iff the fused total reaches 0.2, and then it carries the proposal's action, the regime's structure, the symbol and round2 of the total |
| SignalGenerator.PatternAloneSignals | core/signal_generator.py:129-152 | a proposal with no AI agreement but a confirmed pattern fuses to pattern boost + 0.12 and is emitted |
| SignalGenerator.NoAgreementNoPatternNoSignal | core/signal_generator.py:145-152 | with no AI agreement and no confirmed pattern nothing is emitted |
| Backtest.Start | run_backtest.py:56-65 | the run starts flat, unpaused, with no trades, and balance = peak = initial |
| Backtest.ExitTrigger | run_backtest.py:94-105 | an exit triggers iff low ≤ stop or high ≥ target, at the stop price when the stop is crossed and otherwise at the target |
| Backtest.ClosePosition | run_backtest.py:107-130 | the position is always cleared; the order is a sell of the recorded amount at exactly the given price, the simulator takes the execution's state, a fill is appended to the log and its pnl applied through update_balance, and no fill leaves the log and the account unchanged |
| Backtest.TryEnter | run_backtest.py:167-225 | an entry never changes the balance; any change needs ATR > 0, a stop in (0, target), a positive size and admission; and when all of them pass, a buy of that size at the close is executed and logged, and the position records the fill price, the size and the two levels |
| Backtest.StartSatisfiesInv | run_backtest.py:56-65 | the bookkeeping invariant holds at the start |
| Backtest.CloseFlattens | run_backtest.py:110-130 | under the invariant an exit sells everything, logs one sell and keeps the invariant |
| Backtest.EnterRecordsFill | run_backtest.py:211-222 | under the invariant an entry from flat records the fill price and amount, logs one buy and keeps the invariant |
| Backtest.StepPreservesInv | run_backtest.py:78-250 | every bar keeps the invariant: record present iff holdings > 0, record amount = holdings, entry = average price, stop < target, peak ≥ balance, balance = initial + logged pnl |
| Backtest.ExitBarNeverEnters | run_backtest.py:107-134 | a bar crossing the levels only exits: flat, no position, one sell logged |
| Backtest.StopLossTakesPrecedence | run_backtest.py:99-124 | with both levels crossed the position is closed with a sell order at the stop price, so with something held the one logged sell fills at the stop less slippage |
| Backtest.ExitAtTrigger | run_backtest.py:94-130 | a bar crossing a level closes the position at the trigger price: the stop when the low reaches it, otherwise the target |
| Backtest.NoSignalHolds | run_backtest.py:155 | holding, with no level crossed and no signal, the bar changes nothing |
| Backtest.SellSignalExits | run_backtest.py:228-247 | holding with no level crossed, a sell signal closes the whole position at the bar's close |
| Backtest.BuySignalEnters | run_backtest.py:138-166 | flat, unpaused and with a non-negative balance, a buy signal runs the entry chain |
| Backtest.Step | run_backtest.py:92-247 | one bar appends at most one fill to the log and never rewrites it; while flat, a bar that logs nothing changes nothing |
| Backtest.Inv | run_backtest.py:78-250 | under the bookkeeping invariant a recorded position holds a positive amount |
| Backtest.SumPnl | run_backtest.py:121-124 | the balance's total movement: non-negative when every logged pnl is, non-positive when every one is |
| Backtest.PausedAndFlatSkips | run_backtest.py:138-143 | paused or negative balance while flat skips the bar entirely |
| Backtest.SellWhileFlatIgnored | run_backtest.py:228 | a sell signal while flat changes nothing |
| Backtest.BuyWhileHoldingIgnored | run_backtest.py:161 | a buy signal while holding changes nothing unless the bar exits |
| Backtest.EntryNeedsFullChain | run_backtest.py:161-222 | a new position needs a buy signal, no pause, ATR > 0, valid levels recorded as the position's, and admission of the computed size, and leaves the balance unchanged |
| Backtest.BalanceMovesOnlyBySells | run_backtest.py:121-124 | the balance changes only by a logged sell's pnl through update_balance |
| Backtest.RunPreservesInv | run_backtest.py:78-260 | the invariant holds after any number of bars |
| Backtest.Run | run_backtest.py:78 | over a run the log only grows, by at most one fill per bar, keeping every earlier fill |
| Backtest.RunKeepsPeakAndLatch | run_backtest.py:78-260 | over a run the peak never decreases and a pause is never lifted |
| Backtest.SellCount | run_backtest.py:303 | the trade count is at most the log length, every fill when all are sells and 0 when all are buys |
| Backtest.RunBacktest | run_backtest.py:37-318 | None iff fewer than window_size + 20 bars; otherwise total pnl = final − initial = the summed logged pnl, peak ≥ final, and the trade count is the number of sells |
| PerformanceReport.TradePnls | analysis/performance_report.py:22-23 | at most one pnl per row |
| PerformanceReport.TradeRows | analysis/performance_report.py:22 | the rows kept are buy or sell rows, no more than there are rows |
| PerformanceReport.TradePnlsFollowTradeRows | analysis/performance_report.py:22-23 | the pnls read are exactly those of the buy and sell rows, in order, an empty cell read as 0 |
| PerformanceReport.MissingPnlReadAsZero | analysis/performance_report.py:23 | an empty pnl cell on a trade row adds a 0 and gives the same metrics as an explicit 0 |
| PerformanceReport.ComputeMetrics | analysis/performance_report.py:18-35 | the trade count is the number of buy and sell rows, whatever their pnl cells; the profit factor is infinite iff there is no loss |
| PerformanceReport.CountWins | analysis/performance_report.py:25 | at most one win per trade |
| PerformanceReport.CountLosses | analysis/performance_report.py:26 | at most one loss per trade |
| PerformanceReport.SumWins | analysis/performance_report.py:25-29 | non-negative, and positive iff there is a win |
| PerformanceReport.SumLosses | analysis/performance_report.py:26-30 | non-positive, and negative iff there is a loss |
| PerformanceReport.WinRate | analysis/performance_report.py:28 | in [0, 100], 0 without trades, and rate × trades = wins × 100 |
| PerformanceReport.ProfitFactor | analysis/performance_report.py:31 | None (infinite) iff the average loss is 0; otherwise non-negative with factor × abs(avg loss) = abs(avg win) |
| PerformanceReport.MetricsOf | analysis/performance_report.py:25-32 | win rate = wins / trades × 100, in [0, 100] and 0 without trades; net profit is the sum of the pnls; average win ≥ 0 (> 0 iff a win), average loss ≤ 0 (< 0 iff a loss), profit factor infinite iff no loss |
| PerformanceReport.RoundedMetrics | analysis/performance_report.py:34-41 | rounding keeps the trade count and whether the profit factor is infinite |
| PerformanceReport.SumSplitsIntoWinsAndLosses | analysis/performance_report.py:25-32 | net profit = winning sum + losing sum; zero-pnl trades are neither |
| PerformanceReport.NetProfitFromAverages | analysis/performance_report.py:29-32 | net profit = average win × wins + average loss × losses |
| PerformanceReport.NonTradeRowsIgnored | analysis/performance_report.py:22 | rows of other actions do not change the metrics |
| PerformanceReport.RowsOf | run_backtest.py:275-279 | one log row per fill, in order |
| PerformanceReport.BacktestLogPnls | run_backtest.py:275-279 | every backtest log row is a trade, so the report reads exactly the logged pnls in order |
| PerformanceReport.BacktestLogNetProfit | run_backtest.py:275-279 | every backtest log row is a trade, and the report's net profit is the run's summed realised pnl |
| SplitData.NumSplits | split_data.py:9-10 | the chunk count is the ceiling of rows / size: enough chunks for every row, one fewer is not, and 0 iff there are no rows |
| SplitData.SplitRanges | split_data.py:9-15 | chunk i is [i·size, min((i+1)·size, total)); chunks are contiguous from 0 to total, non-empty, at most size rows, and only the last is shorter |
| SplitData.RowInExactlyOneChunk | split_data.py:12-15 | every row lies in exactly one chunk, number row / size |
| SplitData.DefaultSplitExample | split_data.py:5-10 | 1500 rows make 3 chunks at the default size 730 |
| LiveTiming.RemoveAll | run_live.py:100-104 | replace(c, '') leaves no c and changes nothing when there is none |
| LiveTiming.RemoveAllCounts | run_live.py:100-104 | exactly the occurrences of c are removed; every other character keeps its count |
| LiveTiming.RemoveAllConcat | run_live.py:100-104 | removal distributes over concatenation, so the remaining characters keep their order |
| LiveTiming.ParseInt | run_live.py:100-104 | parsing succeeds iff the string is non-empty digits or a sign followed by non-empty digits; the value is the digits' decimal value, negated after '-' |
| LiveTiming.Render | run_live.py:100-104 | a reference decimal rendering: non-empty, all digits |
| LiveTiming.ParseRenderRoundTrip | run_live.py:100-104 | parsing a rendered integer, signed when negative, gives it back |
| LiveTiming.UnitSeconds | run_live.py:99-107 | 'm' is tested first, then 'h', then 'd', each with its seconds per unit; none found gives nothing |
| LiveTiming.SleepSeconds | run_live.py:96-110 | a failed lookup, no unit or an unparsable count gives 3600; otherwise the count times the unit's seconds |
| LiveTiming.SleepSecondsOfRendered | run_live.py:99-104 | any rendered count followed by m, h or d maps to count × 60, 3600 or 86400 |
| LiveTiming.QuarterHourSleep | run_live.py:99-100 | "15m" sleeps 900 seconds |
| LiveTiming.FourHourSleep | run_live.py:101-102 | "4h" sleeps 14400 seconds |
| LiveTiming.OneDaySleep | run_live.py:103-104 | "1d" sleeps 86400 seconds |
| LiveTiming.WeekFallsBack | run_live.py:105-110 | "1w" and "xm" fall back to 3600 |
| LiveTiming.CycleWait | run_live.py:233-235 | at least 10 seconds, and the rest of the period when that is longer |
| LiveTiming.RetryWait | run_live.py:129 | max(10, period // 4): at least 10 seconds and at least the floored quarter period, and equal to one of the two |

## Left out

- Indicator series (ATR, ADX, RSI, Bollinger bands, MACD, StochRSI, rolling volatility): floating-point numerics computed by pandas and the `ta` library. Their latest values are inputs. Where the source tests a reading for NaN (ATR in the driver and the slippage model, RSI and the moving average in mean reversion) or catches an exception, an absent (`None`) reading stands for it.
- `MarketState.DetectState`: does not model NaN or infinite scores. The source never tests the regime readings for NaN. A NaN score fails both comparisons, so the source returns "neutral". A +inf score returns "trending" and a −inf score returns "ranging". The model's readings are finite reals; only a raised exception (`None` readings) or a zero denominator gives "unknown".
- `core/ai_model.py` (XGBoost training, persistence, lazy self-training): machine learning and file I/O. Its prediction and confidence are inputs to the signal generator.
- Initial and rolling AI retraining in `run_backtest.py` (lines 67-74 and 252-260): it only calls the model and never changes the trading state.
- Exchange orders (`_real_order`), the exchange connection, balance fetching and the infinite loop of `run_live.py`: network I/O. Only the period parse and the two wait clamps are modelled.
- All logging, the drawdown log file, CSV reading and writing, the performance-report call and the plots: I/O. The report call at `run_backtest.py:286` passes an argument the zero-argument `run_report` does not take, and the error is swallowed. The report itself is modelled as `PerformanceReport`.
- `core/config_loader.py` and `core/data_loader.py`: YAML and CSV I/O. The configuration defaults are model constants.
- `get_holdings` and `get_average_entry_price`: plain field reads of `ExecState`.
- The `meta` block of an emitted signal and the `data_file` name in the run summary: diagnostics only.
- Python's float rounding: `round2` and `round6` are parameters, so properties of rounded values hold for any rounding function.
- Division by zero, which yields inf or NaN in numpy. The model returns "unknown" for a zero denominator of the regime score, where numpy's inf or NaN would give one of the three other labels, as the `MarketState.DetectState` line above says. Closes are positive, which the bar data guarantees. The mean-reversion moving average is required to be non-zero.
- `SplitData.SplitRanges` and `SplitData.NumSplits` require `size > 0`. The only caller passes 730, and the source divides by the size.
- `SignalGenerator.Generate` requires at least 20 bars, enough for the volume average. The driver always passes at least 201.
- `TrendFollowing.Check` requires a length guard of at least 10 rows, so that the breakout window exists. The default guard is 46.
- `LiveTiming.ParseInt` accepts an optional sign and ASCII digits only. Python's `int` also accepts surrounding whitespace, underscores between digits and non-ASCII digits.
- `core/notifier.py`, `core/twitter_sentiment.py`, `download_data.py`, `fetch_binance_data.py`, `analysis/correlation_analysis.py`, `analysis/backtester.py` and `strategies/market_regime.py`: I/O, unused drafts or code nothing calls. They are not part of this model.
