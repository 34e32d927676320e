/** The backtest exit simulator of app/cfd_backtest/exit_simulator.py. */
module ExitSimulator {
  import opened Prelude
  import opened Candles
  import opened ExitPlans
  import opened ExitEngine

  /** A bar as an ordered price path: open, the two extremes, close. */
  function SyntheticTickPath(c: Candle): (path: seq<real>)
    ensures |path| == 4
  {
    if c.close >= c.open then [c.open, c.low, c.high, c.close] else [c.open, c.high, c.low, c.close]
  }

  /** Resolve exits price by price along the first `n` prices. */
  function Walk(p: Managed, prices: seq<real>, ts: int, n: nat): Managed
    requires n <= |prices|
  {
    if n == 0 then p
    else
      var q := Walk(p, prices, ts, n - 1);
      q.Exited(prices[n - 1], prices[n - 1], ts)
  }

  /** One bar: the stop on the whole range first, else targets along the path. */
  function SimBar(p: Managed, c: Candle): Managed {
    var e := p.Excursed(c.high).Excursed(c.low);
    var ds := e.Evaluate(c.high, c.low);
    if ds != [] && ds[0].reason == StopLoss then e.Apply(ds[0], c.ts)
    else Walk(e, SyntheticTickPath(c), c.ts, 4)
  }

  function SimBars(p: Managed, cs: seq<Candle>, n: nat): Managed
    requires n <= |cs|
  {
    if n == 0 then p
    else
      var q := SimBars(p, cs, n - 1);
      if q.open then SimBar(q, cs[n - 1]) else q
  }

  /** How many of the first `n` bars the position was held in. */
  function BarsHeld(p: Managed, cs: seq<Candle>, n: nat): nat
    requires n <= |cs|
  {
    if n == 0 then 0 else BarsHeld(p, cs, n - 1) + if SimBars(p, cs, n - 1).open then 1 else 0
  }

  /** An unresolved remainder is valued at the last close. */
  function Flattened(p: Managed, cs: seq<Candle>): Managed {
    if p.open && cs != [] && p.remaining > DUST then
      var last := cs[|cs| - 1];
      p.(legs := p.legs + [Leg(last.close, p.remaining, EodFlatten, last.ts)], remaining := 0.0)
    else p
  }

  /** Realised R of the first `n` legs: each leg's multiple of the plan's risk. */
  function RealizedR(p: Managed, legs: seq<Leg>, n: nat): real
    requires n <= |legs|
  {
    if n == 0 then 0.0
    else RealizedR(p, legs, n - 1) +
         (if p.plan.Risk() > 0.0 then p.GainAt(legs[n - 1].price) / p.plan.Risk() else 0.0) * legs[n - 1].fraction
  }

  /** `pointValue` is the instrument's value of one price unit per lot. */
  datatype SimulatedTrade = SimulatedTrade(
    entry: real, entryMs: int, exitPrice: real, exitMs: int, reason: ExitReason, lots: real, pointValue: real,
    realizedR: real, pnlPrice: real, pnlUsd: real, costUsd: real, netUsd: real, mfe: real, mae: real,
    barsHeld: nat, legs: seq<Leg>, closed: bool)

  /** Where and why the trade ended: its last exit, or the last close if it never closed. */
  function FinalExit(p: Managed, entryMs: int, cs: seq<Candle>): Leg {
    if !p.open && p.legs != [] then p.legs[|p.legs| - 1]
    else if cs != [] then Leg(cs[|cs| - 1].close, 0.0, EodFlatten, cs[|cs| - 1].ts)
    else Leg(p.entry, 0.0, EodFlatten, entryMs)
  }

  /** The trade record of a position at the end of its window. */
  function Summary(p: Managed, cs: seq<Candle>, entryMs: int, lots: real, pointValue: real, costUsd: real,
                   barsHeld: nat): SimulatedTrade
  {
    var f := Flattened(p, cs);
    var exit := FinalExit(p, entryMs, cs);
    var pnl := Profit(f, f.legs, |f.legs|);
    var usd := pnl * pointValue * lots;
    SimulatedTrade(p.entry, entryMs, exit.price, exit.ts, exit.reason, lots, pointValue,
                   RealizedR(f, f.legs, |f.legs|), pnl, usd, costUsd, usd - costUsd,
                   Abs(p.best - p.entry), Abs(p.worst - p.entry),
                   barsHeld, f.legs, !p.open)
  }

  function Simulated(direction: Direction, entry: real, entryMs: int, plan: ExitPlan, cs: seq<Candle>,
                     lots: real, pointValue: real, costUsd: real): SimulatedTrade
  {
    var p0 := Opened(direction, entry, plan);
    Summary(SimBars(p0, cs, |cs|), cs, entryMs, lots, pointValue, costUsd, BarsHeld(p0, cs, |cs|))
  }

  // ----- facts the loops rely on -----

  /** An open position still holds more than dust, and every target closes something. */
  ghost predicate Holding(p: Managed) {
    && (p.open ==> p.remaining > DUST)
    && forall i :: 0 <= i < |p.plan.tps| ==> p.plan.tps[i].fraction > 0.0
  }

  lemma {:induction false} ScanPositive(p: Managed, order: seq<nat>, i: nat, running: real, high: real, low: real)
    requires i <= |order| && forall j :: 0 <= j < |order| ==> order[j] < |p.plan.tps|
    ensures var ds := p.Scan(order, i, running, high, low);
            forall j :: 0 <= j < |ds| ==>
              ds[j].fraction > 0.0 && ds[j].reason == TargetHit && (ds[j].fully ==> j == |ds| - 1)
    decreases |order| - i
  {
    hide Managed.Scan;
    if i == |order| {
      p.ScanEnd(order, running, high, low);
    } else {
      var k := order[i];
      var fraction := Min(p.plan.tps[k].fraction, running);
      p.ScanStep(order, i, running, high, low);
      if k !in p.taken && p.TargetReached(k, high, low) && fraction > 0.0 {
        if running - fraction > DUST { ScanPositive(p, order, i + 1, running - fraction, high, low); }
      } else {
        ScanPositive(p, order, i + 1, running, high, low);
      }
    }
  }

  /** Every decision closes something, and only the last one can close the position. */
  lemma {:induction false} DecisionsPositive(p: Managed, high: real, low: real)
    requires Holding(p)
    ensures var ds := p.Evaluate(high, low);
            && (forall j :: 0 <= j < |ds| ==> ds[j].fraction > 0.0 && (ds[j].fully ==> j == |ds| - 1))
            && (ds != [] && ds[0].reason == StopLoss ==> ds == [Decision(StopLoss, p.stop, p.remaining, -1, true)])
  {
    ScanPositive(p, p.Order(), 0, p.remaining, high, low);
    if p.open && !p.StopHit(high, low) {
      assert p.Evaluate(high, low) == p.Scan(p.Order(), 0, p.remaining, high, low);
    }
  }

  /** The position is closed exactly when the last decision said so. */
  lemma {:induction false} ScanCloses(p: Managed, q: Managed, order: seq<nat>, i: nat, high: real, low: real, ts: int)
    requires i <= |order| && forall j :: 0 <= j < |order| ==> order[j] < |p.plan.tps|
    requires Holding(q) && q.open && q.plan == p.plan
    ensures var ds := p.Scan(order, i, q.remaining, high, low);
            && Holding(q.ApplyAll(ds, ts))
            && (q.ApplyAll(ds, ts).open <==> ds == [] || !ds[|ds| - 1].fully)
    decreases |order| - i
  {
    hide Managed.Scan;
    if i == |order| {
      p.ScanEnd(order, q.remaining, high, low);
    } else {
      p.ScanStep(order, i, q.remaining, high, low);
      var ds := p.Scan(order, i, q.remaining, high, low);
      var k := order[i];
      var fraction := Min(p.plan.tps[k].fraction, q.remaining);
      if k !in p.taken && p.TargetReached(k, high, low) && fraction > 0.0 {
        var d := Decision(TargetHit, p.plan.tps[k].price, fraction, k, q.remaining - fraction <= DUST);
        var q1 := q.Apply(d, ts);
        var rest := if d.fully then [] else p.Scan(order, i + 1, q1.remaining, high, low);
        assert ds == [d] + rest && ds[1..] == rest;
        if !d.fully { ScanCloses(p, q1, order, i + 1, high, low, ts); }
      } else {
        ScanCloses(p, q, order, i + 1, high, low, ts);
      }
    }
  }

  lemma {:induction false} ExitCloses(p: Managed, high: real, low: real, ts: int)
    requires Holding(p)
    ensures var ds := p.Evaluate(high, low);
            && Holding(p.Exited(high, low, ts))
            && (p.open ==> (p.Exited(high, low, ts).open <==> ds == [] || !ds[|ds| - 1].fully))
  {
    var ds := p.Evaluate(high, low);
    if p.open && !p.StopHit(high, low) {
      ScanCloses(p, p, p.Order(), 0, high, low, ts);
      assert ds == p.Scan(p.Order(), 0, p.remaining, high, low);
      assert p.Exited(high, low, ts) == p.ApplyAll(p.Scan(p.Order(), 0, p.remaining, high, low), ts);
    } else if p.open {
      var d := Decision(StopLoss, p.stop, p.remaining, -1, true);
      p.ApplyOne(d, ts);
      assert ds == [d];
      assert p.Exited(high, low, ts) == p.Apply(d, ts);
    } else {
      assert ds == [] && p.Exited(high, low, ts) == p;
    }
  }

  lemma {:induction false} WalkClosed(p: Managed, prices: seq<real>, ts: int, n: nat, m: nat)
    requires n <= m <= |prices| && !Walk(p, prices, ts, n).open
    ensures Walk(p, prices, ts, m) == Walk(p, prices, ts, n)
  {
    if n < m { WalkClosed(p, prices, ts, n, m - 1); }
  }

  lemma {:induction false} BarsClosed(p: Managed, cs: seq<Candle>, n: nat, m: nat)
    requires n <= m <= |cs| && !SimBars(p, cs, n).open
    ensures SimBars(p, cs, m) == SimBars(p, cs, n) && BarsHeld(p, cs, m) == BarsHeld(p, cs, n)
  {
    if n < m { BarsClosed(p, cs, n, m - 1); }
  }

  // ----- the simulator -----

  /** Apply decisions in order; the last exit taken is where the trade stands. */
  method ApplyDecisions(pos: ManagedPosition, decisions: seq<Decision>, ts: int, exit0: Leg)
    returns (exit: Leg, barClosed: bool)
    requires forall j :: 0 <= j < |decisions| ==>
               decisions[j].fraction > 0.0 && (decisions[j].fully ==> j == |decisions| - 1)
    modifies pos
    ensures pos.View() == old(pos.View()).ApplyAll(decisions, ts)
    ensures barClosed <==> decisions != [] && decisions[|decisions| - 1].fully
    ensures if decisions == [] then exit == exit0 && pos.legs == old(pos.legs)
            else pos.legs != [] && exit == pos.legs[|pos.legs| - 1]
  {
    exit, barClosed := exit0, false;
    for j := 0 to |decisions|
      invariant pos.View().ApplyAll(decisions[j..], ts) == old(pos.View()).ApplyAll(decisions, ts)
      invariant !barClosed
      invariant forall i :: 0 <= i < j ==> !decisions[i].fully
      invariant if j == 0 then exit == exit0 && pos.legs == old(pos.legs)
                else pos.legs != [] && exit == pos.legs[|pos.legs| - 1]
    {
      var d := decisions[j];
      assert decisions[j..][0] == d && decisions[j..][1..] == decisions[j + 1..];
      pos.ApplyExit(d, ts);
      exit := Leg(d.price, d.fraction, d.reason, ts);
      if d.fully {
        barClosed := true;
        assert decisions[j + 1..] == [];
        return;
      }
    }
    assert decisions[|decisions|..] == [];
  }

  method WalkPath(pos: ManagedPosition, c: Candle, exit0: Leg) returns (exit: Leg, barClosed: bool)
    requires pos.open && Holding(pos.View())
    requires pos.legs != [] ==> exit0 == pos.legs[|pos.legs| - 1]
    modifies pos
    ensures pos.View() == Walk(old(pos.View()), SyntheticTickPath(c), c.ts, 4)
    ensures Holding(pos.View()) && (barClosed <==> !pos.open)
    ensures pos.legs != [] ==> exit == pos.legs[|pos.legs| - 1]
    ensures pos.legs == [] ==> exit == exit0
    ensures !pos.open ==> pos.legs != []
  {
    hide Managed.Evaluate, Managed.ApplyAll;
    ghost var start := pos.View();
    var path := SyntheticTickPath(c);
    exit, barClosed := exit0, false;
    for i := 0 to |path|
      invariant pos.View() == Walk(start, path, c.ts, i)
      invariant pos.open && !barClosed && Holding(pos.View())
      invariant pos.legs != [] ==> exit == pos.legs[|pos.legs| - 1]
      invariant pos.legs == [] ==> exit == exit0
    {
      DecisionsPositive(pos.View(), path[i], path[i]);
      ExitCloses(pos.View(), path[i], path[i], c.ts);
      var decisions := pos.EvaluateExit(path[i], path[i]);
      exit, barClosed := ApplyDecisions(pos, decisions, c.ts, exit);
      if barClosed {
        WalkClosed(start, path, c.ts, i + 1, |path|);
        return;
      }
    }
  }

  method SimulateExit(direction: Direction, entry: real, entryMs: int, plan: ExitPlan, cs: seq<Candle>,
                      lots: real, pointValue: real, costUsd: real)
    returns (t: SimulatedTrade)
    requires plan.Valid()
    ensures t == Simulated(direction, entry, entryMs, plan, cs, lots, pointValue, costUsd)
  {
    hide SimBar, Summary, ExitPlan.Risk;
    var pos := new ManagedPosition(direction, entry, plan);
    ghost var p0 := pos.View();
    var exit := Leg(entry, 0.0, EodFlatten, entryMs);
    var barsHeld := 0;
    var closed := false;
    for i := 0 to |cs|
      invariant pos.View() == SimBars(p0, cs, i) && barsHeld == BarsHeld(p0, cs, i)
      invariant pos.open && !closed && Holding(pos.View())
      invariant pos.legs != [] ==> exit == pos.legs[|pos.legs| - 1]
      invariant fresh(pos) && pos.entry == entry
      invariant i == 0 ==> pos.legs == [] && exit == Leg(entry, 0.0, EodFlatten, entryMs)
    {
      barsHeld := barsHeld + 1;
      exit, closed := SimulateBar(pos, cs[i], exit);
      if closed {
        BarsClosed(p0, cs, i + 1, |cs|);
        break;
      }
    }
    t := Summarise(pos, cs, exit, entryMs, lots, pointValue, costUsd, barsHeld);
  }

  /** Flatten an unresolved remainder and aggregate the legs. */
  method Summarise(pos: ManagedPosition, cs: seq<Candle>, exit0: Leg, entryMs: int,
                   lots: real, pointValue: real, costUsd: real, barsHeld: nat)
    returns (t: SimulatedTrade)
    requires !pos.open ==> pos.legs != [] && exit0 == pos.legs[|pos.legs| - 1]
    requires pos.open && cs == [] ==> exit0 == Leg(pos.entry, 0.0, EodFlatten, entryMs)
    modifies pos
    ensures t == Summary(old(pos.View()), cs, entryMs, lots, pointValue, costUsd, barsHeld)
  {
    hide Profit, RealizedR;
    ghost var p := pos.View();
    var exit := exit0;
    if pos.open && cs != [] {
      var last := cs[|cs| - 1];
      if pos.remaining > DUST {
        pos.legs := pos.legs + [Leg(last.close, pos.remaining, EodFlatten, last.ts)];
        pos.remaining := 0.0;
      }
      exit := Leg(last.close, 0.0, EodFlatten, last.ts);
    }
    var f := pos.View();
    assert f == Flattened(p, cs);
    var pnl := Profit(f, f.legs, |f.legs|);
    var usd := pnl * pointValue * lots;
    t := SimulatedTrade(pos.entry, entryMs, exit.price, exit.ts, exit.reason, lots, pointValue,
                        RealizedR(f, f.legs, |f.legs|), pnl, usd, costUsd, usd - costUsd,
                        Abs(pos.best - pos.entry), Abs(pos.worst - pos.entry),
                        barsHeld, f.legs, !pos.open);
  }

  method SimulateBar(pos: ManagedPosition, c: Candle, exit0: Leg) returns (exit: Leg, closed: bool)
    requires pos.open && Holding(pos.View())
    requires pos.legs != [] ==> exit0 == pos.legs[|pos.legs| - 1]
    modifies pos
    ensures pos.View() == SimBar(old(pos.View()), c)
    ensures Holding(pos.View()) && (closed <==> !pos.open)
    ensures pos.legs != [] ==> exit == pos.legs[|pos.legs| - 1]
    ensures !pos.open ==> pos.legs != []
  {
    pos.UpdateExcursion(c.high);
    pos.UpdateExcursion(c.low);
    var decisions := pos.EvaluateExit(c.high, c.low);
    DecisionsPositive(pos.View(), c.high, c.low);
    if decisions != [] && decisions[0].reason == StopLoss {
      var d := decisions[0];
      pos.ApplyExit(d, c.ts);
      return Leg(d.price, d.fraction, d.reason, c.ts), true;
    }
    exit, closed := WalkPath(pos, c, exit0);
  }
}
