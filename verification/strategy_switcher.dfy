/** The hysteresis switcher of `core/strategy_switcher.py`: a market-state label selects a
    strategy, and a transitional "neutral" label keeps the choice of the last decisive one. */
module StrategySwitcher {
  import opened Common

  /** The switcher's memory: the last label that was not "neutral". */
  datatype Switcher = Switcher(previousState: string)

  /** A fresh switcher remembers "neutral". */
  const Initial: Switcher := Switcher("neutral")

  /** The strategy a decisive label stands for. */
  function StrategyFor(state: string): (k: Option<StrategyKind>)
    ensures k == Some(MeanReversion) <==> state == "ranging"
    ensures k == Some(TrendFollowing) <==> state == "trending"
  {
    if state == "ranging" then Some(MeanReversion)
    else if state == "trending" then Some(TrendFollowing)
    else None
  }

  /** `select` given the detected label: the chosen strategy (None for no signal) and the
      switcher's next memory. */
  function Select(sw: Switcher, state: string): (r: (Option<StrategyKind>, Switcher))
    ensures state == "neutral" ==> r.1 == sw && r.0 == StrategyFor(sw.previousState)
    ensures state != "neutral" ==> r.1 == Switcher(state) && r.0 == StrategyFor(state)
  {
    if state == "neutral" then
      if sw.previousState == "ranging" then (Some(MeanReversion), sw)
      else if sw.previousState == "trending" then (Some(TrendFollowing), sw)
      else (None, sw)
    else
      var next := Switcher(state);
      if state == "ranging" then (Some(MeanReversion), next)
      else if state == "trending" then (Some(TrendFollowing), next)
      else (None, next)
  }

  /** The first call, if transitional, selects nothing. */
  lemma FirstNeutralSelectsNothing()
    ensures Select(Initial, "neutral") == (None, Initial)
  {
  }

  /** "unknown" is remembered like any decisive label, so a later "neutral" selects nothing. */
  lemma UnknownIsRemembered(sw: Switcher)
    ensures Select(sw, "unknown").1 == Switcher("unknown")
    ensures Select(Select(sw, "unknown").1, "neutral").0 == None
  {
  }

  /** The switcher's memory after a sequence of labels. */
  function Feed(sw: Switcher, states: seq<string>): (r: Switcher)
    // The memory is the old one or a label from the sequence, and never a new "neutral".
    ensures r == sw || (r.previousState in states && r.previousState != "neutral")
    ensures (forall i :: 0 <= i < |states| ==> states[i] == "neutral") ==> r == sw
    decreases |states|
  {
    if |states| == 0 then sw else Feed(Select(sw, states[0]).1, states[1..])
  }

  /** The last label in the sequence that is not "neutral", or `default` if there is none. */
  function LastDecisive(states: seq<string>, default: string): (l: string)
    ensures l == default || l in states
    ensures l != default ==> l != "neutral"
    decreases |states|
  {
    if |states| == 0 then default
    else if states[|states| - 1] != "neutral" then states[|states| - 1]
    else LastDecisive(states[..|states| - 1], default)
  }

  /** The memory is always the last decisive label seen. */
  lemma {:induction false} FeedRemembersLastDecisive(sw: Switcher, states: seq<string>)
    ensures Feed(sw, states) == Switcher(LastDecisive(states, sw.previousState))
    decreases |states|
  {
    if |states| > 0 {
      var last := states[|states| - 1];
      var init := states[..|states| - 1];
      FeedSnoc(sw, init, last);
      assert states == init + [last];
      FeedRemembersLastDecisive(sw, init);
      assert LastDecisive(states, sw.previousState)
        == if last != "neutral" then last else LastDecisive(init, sw.previousState);
    }
  }

  /** Feeding one more label is one more `Select` step. */
  lemma {:induction false} FeedSnoc(sw: Switcher, states: seq<string>, state: string)
    ensures Feed(sw, states + [state]) == Select(Feed(sw, states), state).1
    decreases |states|
  {
    if |states| == 0 {
      assert states + [state] == [state];
    } else {
      assert (states + [state])[1..] == states[1..] + [state];
      FeedSnoc(Select(sw, states[0]).1, states[1..], state);
    }
  }

  /** Damping: any run of "neutral" labels after a decisive label keeps selecting that
      label's strategy. */
  lemma NeutralRunKeepsStrategy(sw: Switcher, states: seq<string>, state: string, n: nat)
    requires state != "neutral"
    ensures Select(Feed(sw, states + [state] + seq(n, _ => "neutral")), "neutral").0 == StrategyFor(state)
  {
    var all := states + [state] + seq(n, _ => "neutral");
    FeedRemembersLastDecisive(sw, all);
    NeutralTail(states + [state], n, sw.previousState);
  }

  lemma {:induction false} NeutralTail(states: seq<string>, n: nat, default: string)
    requires |states| > 0 && states[|states| - 1] != "neutral"
    ensures LastDecisive(states + seq(n, _ => "neutral"), default) == states[|states| - 1]
    decreases n
  {
    var all := states + seq(n, _ => "neutral");
    if n > 0 {
      assert all[..|all| - 1] == states + seq(n - 1, _ => "neutral");
      assert all[|all| - 1] == "neutral";
      NeutralTail(states, n - 1, default);
    } else {
      assert all == states;
    }
  }
}
