/** Trade-log metrics of `analysis/performance_report.py`: win rate, average win and loss,
    profit factor and net profit over the rows whose action is "buy" or "sell". */
module PerformanceReport {
  import opened Common
  import Executor
  import Backtest

  /** One trade-log row: its action and its pnl cell (None for an empty cell). */
  datatype LogRow = LogRow(action: string, pnl: Option<real>)

  predicate IsTrade(row: LogRow)
  {
    row.action == "buy" || row.action == "sell"
  }

  /** The pnl a trade row contributes: its cell, or 0 for an empty cell (fillna(0)). */
  function PnlOrZero(row: LogRow): (v: real)
    ensures row.pnl.None? ==> v == 0.0
    ensures row.pnl.Some? ==> v == row.pnl.value
  {
    match row.pnl
    case Some(x) => x
    case None => 0.0
  }

  /** The pnl of each trade row in order, an empty cell read as 0. */
  function TradePnls(rows: seq<LogRow>): (p: seq<real>)
    ensures |p| <= |rows|
    decreases |rows|
  {
    if |rows| == 0 then []
    else
      var last := rows[|rows| - 1];
      TradePnls(rows[..|rows| - 1]) + (if IsTrade(last) then [PnlOrZero(last)] else [])
  }

  /** The buy and sell rows of a log, in order: the filter the report applies, written
      front to back as a reference for TradePnls. */
  function TradeRows(rows: seq<LogRow>): (t: seq<LogRow>)
    ensures |t| <= |rows|
    ensures forall i :: 0 <= i < |t| ==> IsTrade(t[i])
    decreases |rows|
  {
    if |rows| == 0 then []
    else (if IsTrade(rows[0]) then [rows[0]] else []) + TradeRows(rows[1..])
  }

  lemma {:induction false} TradeRowsSnoc(rows: seq<LogRow>, row: LogRow)
    ensures TradeRows(rows + [row]) == TradeRows(rows) + (if IsTrade(row) then [row] else [])
    decreases |rows|
  {
    if |rows| > 0 {
      assert (rows + [row])[1..] == rows[1..] + [row];
      TradeRowsSnoc(rows[1..], row);
    } else {
      assert TradeRows([row]) == (if IsTrade(row) then [row] else []) + TradeRows([]);
    }
  }

  /** TradePnls keeps exactly the trade rows, in order, each read through PnlOrZero. */
  lemma {:induction false} TradePnlsFollowTradeRows(rows: seq<LogRow>)
    ensures |TradePnls(rows)| == |TradeRows(rows)|
    ensures forall i :: 0 <= i < |TradePnls(rows)| ==> TradePnls(rows)[i] == PnlOrZero(TradeRows(rows)[i])
    decreases |rows|
  {
    if |rows| > 0 {
      var init, last := rows[..|rows| - 1], rows[|rows| - 1];
      TradePnlsFollowTradeRows(init);
      assert rows == init + [last];
      TradeRowsSnoc(init, last);
    }
  }

  /** An empty pnl cell on a trade row counts exactly like a pnl of 0. */
  lemma MissingPnlReadAsZero(rows: seq<LogRow>, action: string)
    requires action == "buy" || action == "sell"
    ensures TradePnls(rows + [LogRow(action, None)]) == TradePnls(rows) + [0.0]
    ensures ComputeMetrics(rows + [LogRow(action, None)]) == ComputeMetrics(rows + [LogRow(action, Some(0.0))])
  {
    assert (rows + [LogRow(action, None)])[..|rows|] == rows;
    assert (rows + [LogRow(action, Some(0.0))])[..|rows|] == rows;
  }

  function Sum(p: seq<real>): real
    decreases |p|
  {
    if |p| == 0 then 0.0 else Sum(p[..|p| - 1]) + p[|p| - 1]
  }

  function CountWins(p: seq<real>): (n: nat)
    ensures n <= |p|
    decreases |p|
  {
    if |p| == 0 then 0 else CountWins(p[..|p| - 1]) + (if p[|p| - 1] > 0.0 then 1 else 0)
  }

  function CountLosses(p: seq<real>): (n: nat)
    ensures n <= |p|
    decreases |p|
  {
    if |p| == 0 then 0 else CountLosses(p[..|p| - 1]) + (if p[|p| - 1] < 0.0 then 1 else 0)
  }

  /** Sum of the winning pnls: positive exactly when there is a win. */
  function SumWins(p: seq<real>): (s: real)
    ensures s >= 0.0
    ensures s > 0.0 <==> CountWins(p) > 0
    decreases |p|
  {
    if |p| == 0 then 0.0 else SumWins(p[..|p| - 1]) + (if p[|p| - 1] > 0.0 then p[|p| - 1] else 0.0)
  }

  /** Sum of the losing pnls: negative exactly when there is a loss. */
  function SumLosses(p: seq<real>): (s: real)
    ensures s <= 0.0
    ensures s < 0.0 <==> CountLosses(p) > 0
    decreases |p|
  {
    if |p| == 0 then 0.0 else SumLosses(p[..|p| - 1]) + (if p[|p| - 1] < 0.0 then p[|p| - 1] else 0.0)
  }

  /** Unrounded metrics; `profitFactor` is None for Python's float('inf'). */
  datatype Metrics = Metrics(
    totalTrades: nat, winRate: real, avgWin: real, avgLoss: real,
    profitFactor: Option<real>, netProfit: real)

  /** The metrics of a list of trade pnls, before rounding. */
  function MetricsOf(p: seq<real>): (m: Metrics)
    ensures m.totalTrades == |p|
    ensures 0.0 <= m.winRate <= 100.0
    ensures m.totalTrades == 0 ==> m.winRate == 0.0
    ensures |p| > 0 ==> m.winRate * |p| as real == CountWins(p) as real * 100.0
    ensures m.netProfit == Sum(p)
    ensures m.avgWin >= 0.0 && m.avgLoss <= 0.0
    ensures m.avgWin > 0.0 <==> CountWins(p) > 0
    ensures m.avgLoss < 0.0 <==> CountLosses(p) > 0
    ensures m.profitFactor.None? <==> CountLosses(p) == 0
    ensures m.profitFactor.Some? ==> m.profitFactor.value >= 0.0
  {
    var avgWin := Mean(SumWins(p), CountWins(p));
    var avgLoss := Mean(SumLosses(p), CountLosses(p));
    Metrics(|p|, WinRate(CountWins(p), |p|), avgWin, avgLoss, ProfitFactor(avgWin, avgLoss), Sum(p))
  }

  /** Percentage of winning trades; 0 for no trades. */
  function WinRate(wins: nat, total: nat): (r: real)
    requires wins <= total
    ensures 0.0 <= r <= 100.0
    ensures total == 0 ==> r == 0.0
    ensures total > 0 ==> r * total as real == wins as real * 100.0
  {
    if total > 0 then
      FractionAtMostOne(wins, total);
      wins as real / total as real * 100.0
    else 0.0
  }

  /** |average win / average loss|; None (Python's float('inf')) when the average loss is 0. */
  function ProfitFactor(avgWin: real, avgLoss: real): (f: Option<real>)
    ensures f.None? <==> avgLoss == 0.0
    ensures f.Some? ==> f.value >= 0.0 && f.value * AbsReal(avgLoss) == AbsReal(avgWin)
  {
    if avgLoss != 0.0 then Some(AbsReal(avgWin / avgLoss)) else None
  }

  /** Mean of `n` values summing to `s`; 0 for no values. */
  function Mean(s: real, n: nat): real
  {
    if n > 0 then s / n as real else 0.0
  }

  /** `compute_metrics` before rounding: the metrics of the trade rows' pnls. */
  function ComputeMetrics(rows: seq<LogRow>): (m: Metrics)
    // Every buy or sell row is a trade, whatever its pnl cell holds.
    ensures m.totalTrades == |TradeRows(rows)|
    ensures m.profitFactor.None? <==> CountLosses(TradePnls(rows)) == 0
  {
    TradePnlsFollowTradeRows(rows);
    MetricsOf(TradePnls(rows))
  }

  lemma FractionAtMostOne(part: nat, whole: nat)
    requires 0 < whole && part <= whole
    ensures 0.0 <= part as real / whole as real <= 1.0
  {
  }

  /** The report as printed: every real metric passed through `round2` (round(x, 2)). */
  function RoundedMetrics(rows: seq<LogRow>, round2: real -> real): (m: Metrics)
    ensures m.totalTrades == ComputeMetrics(rows).totalTrades
    ensures m.profitFactor.None? <==> ComputeMetrics(rows).profitFactor.None?
  {
    var raw := ComputeMetrics(rows);
    Metrics(raw.totalTrades, round2(raw.winRate), round2(raw.avgWin), round2(raw.avgLoss),
      if raw.profitFactor.Some? then Some(round2(raw.profitFactor.value)) else None,
      round2(raw.netProfit))
  }

  /** Zero-pnl trades are neither wins nor losses: the total splits into wins and losses. */
  lemma {:induction false} SumSplitsIntoWinsAndLosses(p: seq<real>)
    ensures Sum(p) == SumWins(p) + SumLosses(p)
    ensures CountWins(p) + CountLosses(p) <= |p|
    decreases |p|
  {
    if |p| > 0 {
      SumSplitsIntoWinsAndLosses(p[..|p| - 1]);
    }
  }

  /** Net profit is the average win times the number of wins plus the average loss times
      the number of losses. */
  lemma NetProfitFromAverages(p: seq<real>, m: Metrics, wins: nat, losses: nat)
    requires m == MetricsOf(p) && wins == CountWins(p) && losses == CountLosses(p)
    ensures m.netProfit == m.avgWin * wins as real + m.avgLoss * losses as real
  {
    SumSplitsIntoWinsAndLosses(p);
    WeightedMeans(m.netProfit, SumWins(p), SumLosses(p), wins, losses, m.avgWin, m.avgLoss);
  }

  lemma WeightedMeans(net: real, sw: real, sl: real, wins: nat, losses: nat, aw: real, al: real)
    requires net == sw + sl && aw == Mean(sw, wins) && al == Mean(sl, losses)
    requires (wins == 0 ==> sw == 0.0) && (losses == 0 ==> sl == 0.0)
    ensures net == aw * wins as real + al * losses as real
  {
    ScaleBack(sw, wins);
    ScaleBack(sl, losses);
  }

  /** A mean times its count gives back the sum, when an empty count has a zero sum. */
  lemma ScaleBack(s: real, n: nat)
    requires n == 0 ==> s == 0.0
    ensures Mean(s, n) * n as real == s
  {
    if n > 0 {
      assert (s / n as real) * n as real == s;
    }
  }

  /** Rows of other actions are ignored. */
  lemma NonTradeRowsIgnored(rows: seq<LogRow>, row: LogRow)
    requires !IsTrade(row)
    ensures ComputeMetrics(rows + [row]) == ComputeMetrics(rows)
  {
    assert (rows + [row])[..|rows|] == rows;
    assert TradePnls(rows + [row]) == TradePnls(rows);
  }

  /** The log row the driver writes for a fill. */
  function RowOf(f: Executor.Fill): LogRow
  {
    LogRow(SideName(f.action), Some(f.pnl))
  }

  function RowsOf(logs: seq<Executor.Fill>): (rows: seq<LogRow>)
    ensures |rows| == |logs|
    ensures forall i :: 0 <= i < |logs| ==> rows[i] == RowOf(logs[i])
  {
    seq(|logs|, i requires 0 <= i < |logs| => RowOf(logs[i]))
  }

  /** Every row of a backtest log is a trade: the report reads exactly the logged pnls. */
  lemma {:induction false} BacktestLogPnls(logs: seq<Executor.Fill>)
    ensures TradePnls(RowsOf(logs)) == PnlsOf(logs)
    decreases |logs|
  {
    if |logs| > 0 {
      var init, last := logs[..|logs| - 1], logs[|logs| - 1];
      BacktestLogPnls(init);
      assert RowsOf(logs)[..|logs| - 1] == RowsOf(init);
      assert PnlOrZero(RowOf(last)) == last.pnl;
      assert PnlsOf(logs) == PnlsOf(init) + [last.pnl];
    }
  }

  /** The realised pnl of each fill, in order. */
  function PnlsOf(logs: seq<Executor.Fill>): (p: seq<real>)
    ensures |p| == |logs|
    ensures forall i :: 0 <= i < |logs| ==> p[i] == logs[i].pnl
  {
    seq(|logs|, i requires 0 <= i < |logs| => logs[i].pnl)
  }

  lemma {:induction false} SumOfPnls(logs: seq<Executor.Fill>)
    ensures Sum(PnlsOf(logs)) == Backtest.SumPnl(logs)
    decreases |logs|
  {
    if |logs| > 0 {
      var init := logs[..|logs| - 1];
      SumOfPnls(init);
      assert PnlsOf(logs)[..|logs| - 1] == PnlsOf(init);
    }
  }

  /** The report's net profit over a backtest log equals the summed realised PnL, hence the
      run's final minus initial balance, and every fill counts as a trade. */
  lemma BacktestLogNetProfit(logs: seq<Executor.Fill>)
    ensures ComputeMetrics(RowsOf(logs)).netProfit == Backtest.SumPnl(logs)
    ensures ComputeMetrics(RowsOf(logs)).totalTrades == |logs|
  {
    BacktestLogPnls(logs);
    SumOfPnls(logs);
  }
}
