/** From backtest trades to the return stream the phase simulators read:
    `from_simulated_trades` of app/cfd_research/challenge_sim.py. */
module ReturnStream {
  import opened Prelude
  import opened ChallengeRulesModel
  import opened ChallengeSim
  import opened ChallengeLaws
  import opened Candles
  import Models = ExitModels
  import Laws = ExitModelLaws
  import opened ExitSimulator

  /** A trade as percentages of the balance it was sized against; costs deepen the dip. */
  function ReturnOf(t: SimulatedTrade, balance: real, resetOffsetMs: int): TradeReturn
    requires balance != 0.0
  {
    var maeUsd := t.mae * t.pointValue * t.lots + t.costUsd;
    TradeReturn(t.entryMs, t.exitMs, t.netUsd / balance * 100.0, Max(0.0, maeUsd / balance * 100.0),
                TradingDay(t.entryMs, resetOffsetMs))
  }

  function Returns(trades: seq<SimulatedTrade>, balance: real, resetOffsetMs: int): (rs: seq<TradeReturn>)
    requires balance != 0.0
    ensures |rs| == |trades| && forall i :: 0 <= i < |rs| ==> rs[i] == ReturnOf(trades[i], balance, resetOffsetMs)
  {
    seq(|trades|, i requires 0 <= i < |trades| => ReturnOf(trades[i], balance, resetOffsetMs))
  }

  function ByEntry(r: TradeReturn): real { r.entryMs as real }

  function ByExit(r: TradeReturn): real { r.exitMs as real }

  /** Sorted by exit, ties by entry: two stable sorts. */
  function StreamOf(trades: seq<SimulatedTrade>, balance: real, resetOffsetMs: int): seq<TradeReturn>
    requires balance != 0.0
  {
    StableSort(StableSort(Returns(trades, balance, resetOffsetMs), ByEntry), ByExit)
  }

  method FromSimulatedTrades(trades: seq<SimulatedTrade>, balance: real, resetOffsetMs: int)
    returns (out: seq<TradeReturn>)
    requires balance != 0.0
    ensures out == StreamOf(trades, balance, resetOffsetMs)
  {
    out := [];
    for i := 0 to |trades|
      invariant |out| == i
      invariant forall k :: 0 <= k < i ==> out[k] == ReturnOf(trades[k], balance, resetOffsetMs)
    {
      out := out + [ReturnOf(trades[i], balance, resetOffsetMs)];
    }
    assert out == Returns(trades, balance, resetOffsetMs);
    out := StableSort(StableSort(out, ByEntry), ByExit);
  }

  /** What the account needs of a trade: a loss no deeper than its dip, and time going on. */
  ghost predicate Bookable(t: SimulatedTrade) {
    t.netUsd >= -(t.mae * t.pointValue * t.lots + t.costUsd) && t.entryMs <= t.exitMs
  }

  lemma {:induction false} Percent(a: real, b: real, balance: real)
    requires a >= b && balance > 0.0
    ensures a / balance * 100.0 >= b / balance * 100.0
  {
  }

  lemma {:induction false} ReturnIsCovered(t: SimulatedTrade, balance: real, resetOffsetMs: int)
    requires balance > 0.0 && Bookable(t)
    ensures var r := ReturnOf(t, balance, resetOffsetMs); r.ret >= -r.mae && r.mae >= 0.0 && r.entryMs <= r.exitMs
  {
    var maeUsd := t.mae * t.pointValue * t.lots + t.costUsd;
    Percent(t.netUsd, -maeUsd, balance);
    assert -maeUsd / balance * 100.0 == -(maeUsd / balance * 100.0);
  }

  /** The stream of bookable trades is what the phase simulators' guarantees ask for: ordered
      by exit, with no negative dip, and no loss deeper than its dip. */
  lemma {:induction false} StreamIsCovered(trades: seq<SimulatedTrade>, balance: real, resetOffsetMs: int)
    requires balance > 0.0 && forall i :: 0 <= i < |trades| ==> Bookable(trades[i])
    ensures var ts := StreamOf(trades, balance, resetOffsetMs);
            ExitOrdered(ts) && DipsNonNegative(ts) && Covered(ts) && |ts| == |trades|
  {
    hide ReturnOf, StableSort, Bookable;
    var rs := Returns(trades, balance, resetOffsetMs);
    var inner := StableSort(rs, ByEntry);
    SortSorts(rs, ByEntry);
    SortSorts(inner, ByExit);
    var ts := StreamOf(trades, balance, resetOffsetMs);
    assert |multiset(ts)| == |multiset(rs)|;
    forall i | 0 <= i < |ts| ensures ts[i].ret >= -ts[i].mae && ts[i].mae >= 0.0 && ts[i].entryMs <= ts[i].exitMs {
      assert ts[i] in multiset(ts);
      assert ts[i] in rs;
      var k :| 0 <= k < |rs| && rs[k] == ts[i];
      ReturnIsCovered(trades[k], balance, resetOffsetMs);
    }
    forall i, j | 0 <= i < j < |ts| ensures ts[i].exitMs <= ts[j].exitMs {
      assert ByExit(ts[i]) <= ByExit(ts[j]);
    }
  }

  /** Whatever the exit model, a trade it resolves is bookable. */
  lemma {:induction false} ModelTradeIsBookable(model: Models.Model, su: Models.Setup, entryMs: int, cs: seq<Candle>,
        lots: real, pointValue: real, costUsd: real)
    requires Laws.Ready(model, su) && cs != [] && (forall k :: 0 <= k < |cs| ==> cs[k].WellFormed())
    requires lots >= 0.0 && pointValue >= 0.0
    requires forall k :: 0 <= k < |cs| ==> cs[k].ts >= entryMs
    ensures var o := Models.Run(model, su, Models.Start(su), cs, 0);
            o.legs != [] && su.Risk() > 0.0 && Bookable(Models.TradeOf(su, entryMs, o, lots, pointValue, costUsd))
  {
    hide Models.Run, Laws.Ready;
    Laws.LossIsCovered(model, su, entryMs, cs, lots, pointValue, costUsd);
    ExitsOnBar(model, su, Models.Start(su), cs, 0);
  }

  lemma {:induction false} ExitsOnBar(model: Models.Model, su: Models.Setup, w: Models.Watch, cs: seq<Candle>, i: nat)
    requires cs != [] && i <= |cs|
    ensures exists k :: 0 <= k < |cs| && Models.Run(model, su, w, cs, i).exitMs == cs[k].ts
    decreases |cs| - i
  {
    if i == |cs| {
      assert Models.Run(model, su, w, cs, i).exitMs == cs[|cs| - 1].ts;
    } else {
      match Models.Step(model, su, w, cs[i])
      case Going(next) => ExitsOnBar(model, su, next, cs, i + 1);
      case Done(o) => assert Models.Run(model, su, w, cs, i).exitMs == cs[i].ts;
    }
  }
}
