/** Vocabulary shared by every component of the trading simulator. */
module Common {

  /** A value that may be absent: Python's `None` and NaN indicator readings. */
  datatype Option<T> = None | Some(value: T)

  /** The two directions a signal or an order can take. */
  datatype Side = Buy | Sell

  /** The two interchangeable signal policies. */
  datatype StrategyKind = MeanReversion | TrendFollowing

  /** What a single strategy proposes for the current bar. */
  datatype StrategySignal = StrategySignal(action: Side, confidence: real)

  /** The action string written into order and trade-log records. */
  function SideName(s: Side): string
  {
    match s
    case Buy => "buy"
    case Sell => "sell"
  }

  /** The strategy tag written into a fused signal's `structure` field. */
  function StrategyTag(k: StrategyKind): string
  {
    match k
    case MeanReversion => "mean_reversion"
    case TrendFollowing => "trend_following"
  }

  function MinReal(a: real, b: real): real
  {
    if b < a then b else a
  }

  function MaxReal(a: real, b: real): real
  {
    if b > a then b else a
  }

  function AbsReal(x: real): real
  {
    if x < 0.0 then -x else x
  }

  function MaxInt(a: int, b: int): int
  {
    if b > a then b else a
  }
}
