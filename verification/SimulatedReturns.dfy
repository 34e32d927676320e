/** Trades of the backtest simulator as the account books them: when their recorded excursion
    covers their loss. */
module SimulatedReturns {
  import opened Prelude
  import opened Candles
  import opened ExitPlans
  import opened ExitEngine
  import opened ExitLaws
  import opened ExitSimulator
  import opened ExitAgreement
  import opened ReturnStream
  import PaperLaws

  /** No target lies behind the entry. */
  ghost predicate TargetsAhead(direction: Direction, entry: real, plan: ExitPlan) {
    forall i :: 0 <= i < |plan.tps| ==> direction.Gain(entry, plan.tps[i].price) >= 0.0
  }

  ghost predicate LegsWithin(p: Managed, legs: seq<Leg>, floor: real, entryMs: int) {
    forall i :: 0 <= i < |legs| ==> legs[i].fraction > 0.0 && p.GainAt(legs[i].price) >= floor && legs[i].ts >= entryMs
  }

  /** Every exit so far lies within the recorded worst price. */
  ghost predicate Covered(p: Managed, entryMs: int) {
    p.GainAt(p.worst) <= 0.0 && LegsWithin(p, p.legs, p.GainAt(p.worst), entryMs)
  }

  // ----- one range -----

  lemma {:induction false} ApplyWithin(p: Managed, ds: seq<Decision>, ts: int, floor: real, entryMs: int)
    requires LegsWithin(p, p.legs, floor, entryMs) && ts >= entryMs
    requires forall j :: 0 <= j < |ds| ==> ds[j].fraction > 0.0 && p.GainAt(ds[j].price) >= floor
    ensures var q := p.ApplyAll(ds, ts);
            && LegsWithin(q, q.legs, floor, entryMs)
            && q.direction == p.direction && q.entry == p.entry && q.worst == p.worst
    decreases |ds|
  {
    if ds != [] { ApplyWithin(p.Apply(ds[0], ts), ds[1..], ts, floor, entryMs); }
  }

  lemma {:induction false} ScanAtTargets(p: Managed, order: seq<nat>, i: nat, running: real, high: real, low: real)
    requires i <= |order| && forall j :: 0 <= j < |order| ==> order[j] < |p.plan.tps|
    requires TargetsAhead(p.direction, p.entry, p.plan)
    ensures var ds := p.Scan(order, i, running, high, low); forall j :: 0 <= j < |ds| ==> p.GainAt(ds[j].price) >= 0.0
    decreases |order| - i
  {
    hide Managed.Scan, Managed.TargetReached;
    if i == |order| {
      p.ScanEnd(order, running, high, low);
    } else {
      var k := order[i];
      var fraction := Min(p.plan.tps[k].fraction, running);
      p.ScanStep(order, i, running, high, low);
      ScanAtTargets(p, order, i + 1, running - fraction, high, low);
      ScanAtTargets(p, order, i + 1, running, high, low);
    }
  }

  /** The exits of a range lie within it, or pay. */
  lemma {:induction false} ExitedCovered(p: Managed, high: real, low: real, ts: int, entryMs: int)
    requires Holding(p) && Covered(p, entryMs) && TargetsAhead(p.direction, p.entry, p.plan) && ts >= entryMs
    requires p.GainAt(p.worst) <= p.GainAt(high) && p.GainAt(p.worst) <= p.GainAt(low)
    ensures var q := p.Exited(high, low, ts);
            && Covered(q, entryMs) && q.direction == p.direction && q.entry == p.entry
            && q.worst == p.worst && q.plan == p.plan
    ensures Holding(p.Exited(high, low, ts))
  {
    hide Managed.Scan, Managed.ApplyAll, FractionSum;
    DecisionsPositive(p, high, low);
    ExitCloses(p, high, low, ts);
    ApplyKeepsStop(p, p.Evaluate(high, low), ts);
    if p.open && !p.StopHit(high, low) {
      ScanAtTargets(p, p.Order(), 0, p.remaining, high, low);
      assert p.Evaluate(high, low) == p.Scan(p.Order(), 0, p.remaining, high, low);
    }
    ApplyWithin(p, p.Evaluate(high, low), ts, p.GainAt(p.worst), entryMs);
  }

  lemma {:induction false} WalkCovered(p: Managed, prices: seq<real>, ts: int, n: nat, entryMs: int)
    requires Holding(p) && Covered(p, entryMs) && TargetsAhead(p.direction, p.entry, p.plan) && ts >= entryMs
    requires n <= |prices| && forall i :: 0 <= i < n ==> p.GainAt(p.worst) <= p.GainAt(prices[i])
    ensures var q := Walk(p, prices, ts, n);
            && Covered(q, entryMs) && Holding(q)
            && q.direction == p.direction && q.entry == p.entry && q.worst == p.worst && q.plan == p.plan
  {
    hide Managed.Exited, Covered, Holding;
    if n > 0 {
      WalkCovered(p, prices, ts, n - 1, entryMs);
      ExitedCovered(Walk(p, prices, ts, n - 1), prices[n - 1], prices[n - 1], ts, entryMs);
    }
  }

  // ----- whole runs -----

  lemma {:induction false} BarCovered(p: Managed, c: Candle, entryMs: int)
    requires p.open && Holding(p) && Covered(p, entryMs) && TargetsAhead(p.direction, p.entry, p.plan)
    requires c.WellFormed() && c.ts >= entryMs
    ensures var q := SimBar(p, c);
            && Covered(q, entryMs) && Holding(q) && q.direction == p.direction && q.entry == p.entry && q.plan == p.plan
            && q.GainAt(q.worst) <= q.GainAt(c.close)
  {
    hide Walk, Managed.Exited, Managed.Evaluate;
    var e := p.Excursed(c.high).Excursed(c.low);
    assert Covered(e, entryMs) && Holding(e);
    DecisionsPositive(e, c.high, c.low);
    SimBarCases(p, c);
    if p.StopHit(c.high, c.low) {
      ApplyWithin(e, [StopOut(e)], c.ts, e.GainAt(e.worst), entryMs);
      e.ApplyOne(StopOut(e), c.ts);
    } else {
      WalkCovered(e, SyntheticTickPath(c), c.ts, 4, entryMs);
    }
  }

  lemma {:induction false} RunCovered(p0: Managed, cs: seq<Candle>, n: nat, entryMs: int)
    requires Holding(p0) && p0.open && Covered(p0, entryMs) && TargetsAhead(p0.direction, p0.entry, p0.plan)
    requires n <= |cs| && forall k :: 0 <= k < |cs| ==> cs[k].WellFormed() && cs[k].ts >= entryMs
    ensures var q := SimBars(p0, cs, n);
            && Covered(q, entryMs) && Holding(q)
            && q.direction == p0.direction && q.entry == p0.entry && q.plan == p0.plan
            && (q.open && n > 0 ==> q.GainAt(q.worst) <= q.GainAt(cs[n - 1].close))
  {
    hide SimBar, Covered, Holding, TargetsAhead;
    if n > 0 {
      RunCovered(p0, cs, n - 1, entryMs);
      var q := SimBars(p0, cs, n - 1);
      if q.open { BarCovered(q, cs[n - 1], entryMs); }
    }
  }

  lemma {:induction false} RunWhole(p0: Managed, cs: seq<Candle>, n: nat)
    requires PaperLaws.Whole(p0) && Holding(p0) && n <= |cs|
    ensures PaperLaws.Whole(SimBars(p0, cs, n)) && Holding(SimBars(p0, cs, n))
  {
    hide PaperLaws.Whole, Holding, Walk, Managed.Evaluate;
    if n > 0 {
      RunWhole(p0, cs, n - 1);
      var q, c := SimBars(p0, cs, n - 1), cs[n - 1];
      if q.open {
        var e := q.Excursed(c.high).Excursed(c.low);
        ExcursedWhole(q, e);
        SimBarCases(q, c);
        if q.StopHit(c.high, c.low) {
          StopOutWhole(e, c.ts);
        } else {
          WalkWhole(e, SyntheticTickPath(c), c.ts, 4);
        }
      }
    }
  }

  lemma {:induction false} ExcursedWhole(p: Managed, e: Managed)
    requires SameBook(p, e) && PaperLaws.Whole(p) && Holding(p)
    ensures PaperLaws.Whole(e) && Holding(e)
  {
  }

  lemma {:induction false} StopOutWhole(p: Managed, ts: int)
    requires PaperLaws.Whole(p) && Holding(p) && p.open
    ensures PaperLaws.Whole(p.Apply(StopOut(p), ts)) && Holding(p.Apply(StopOut(p), ts))
  {
    PaperLaws.ApplyKeepsWhole(p, StopOut(p), ts);
  }

  lemma {:induction false} WalkWhole(p: Managed, prices: seq<real>, ts: int, n: nat)
    requires PaperLaws.Whole(p) && Holding(p) && n <= |prices|
    ensures PaperLaws.Whole(Walk(p, prices, ts, n)) && Holding(Walk(p, prices, ts, n))
  {
    hide PaperLaws.Whole, Holding, Managed.Exited, Managed.Evaluate;
    if n > 0 {
      WalkWhole(p, prices, ts, n - 1);
      var q := Walk(p, prices, ts, n - 1);
      PaperLaws.ExitKeepsWhole(q, prices[n - 1], prices[n - 1], ts);
      ExitCloses(q, prices[n - 1], prices[n - 1], ts);
    }
  }

  // ----- what the account sees -----

  /** Fractions of at most one whole, each leg no worse than the floor, lose at most the floor. */
  lemma {:induction false} ProfitWithin(p: Managed, legs: seq<Leg>, floor: real, entryMs: int, n: nat)
    requires n <= |legs| && LegsWithin(p, legs, floor, entryMs)
    ensures Profit(p, legs, n) >= floor * ClosedFraction(legs, n)
  {
    hide Managed.GainAt;
    if n > 0 {
      ProfitWithin(p, legs, floor, entryMs, n - 1);
      Laws.WeightedBound(legs[n - 1].fraction, p.GainAt(legs[n - 1].price), floor);
      assert floor * ClosedFraction(legs, n) == floor * ClosedFraction(legs, n - 1) + legs[n - 1].fraction * floor;
    }
  }

  /** Whatever the bars, a simulated trade none of whose targets lies behind its entry is bookable. */
  lemma {:induction false} SimulatedIsBookable(direction: Direction, entry: real, entryMs: int, plan: ExitPlan,
        cs: seq<Candle>, lots: real, pointValue: real, costUsd: real)
    requires plan.Valid() && TargetsAhead(direction, entry, plan) && lots >= 0.0 && pointValue >= 0.0
    requires plan.direction == direction
    requires forall k :: 0 <= k < |cs| ==> cs[k].WellFormed() && cs[k].ts >= entryMs
    ensures Bookable(Simulated(direction, entry, entryMs, plan, cs, lots, pointValue, costUsd))
  {
    hide SimBars, Profit, ClosedFraction, FractionSum, RealizedR, BarsHeld, TargetsAhead, Covered;
    var p0 := Opened(direction, entry, plan);
    OpenedCovered(direction, entry, plan, entryMs);
    RunCovered(p0, cs, |cs|, entryMs);
    RunWhole(p0, cs, |cs|);
    var p := SimBars(p0, cs, |cs|);
    FlattenedCovered(p, cs, entryMs);
    var f := Flattened(p, cs);
    var mae := -p.GainAt(p.worst);
    Laws.InDollars(Profit(f, f.legs, |f.legs|), mae, pointValue, lots);
    ExitTime(p, entryMs, cs);
    assert Abs(p.worst - p.entry) == mae;
  }

  lemma {:induction false} OpenedCovered(direction: Direction, entry: real, plan: ExitPlan, entryMs: int)
    requires plan.Valid() && plan.direction == direction
    ensures var p0 := Opened(direction, entry, plan); Covered(p0, entryMs) && Holding(p0) && PaperLaws.Whole(p0)
  {
    hide FractionSum;
  }

  lemma {:induction false} FlattenedCovered(p: Managed, cs: seq<Candle>, entryMs: int)
    requires Covered(p, entryMs) && PaperLaws.Whole(p) && Holding(p)
    requires p.open && cs != [] ==> p.GainAt(p.worst) <= p.GainAt(cs[|cs| - 1].close)
    requires forall k :: 0 <= k < |cs| ==> cs[k].ts >= entryMs
    ensures p.GainAt(p.worst) <= 0.0
    ensures var f := Flattened(p, cs); Profit(f, f.legs, |f.legs|) >= p.GainAt(p.worst)
  {
    hide Profit, ClosedFraction;
    var f := Flattened(p, cs);
    var floor, n := p.GainAt(p.worst), |f.legs|;
    if f != p {
      PaperLaws.FractionAppend(p.legs, f.legs[n - 1]);
    }
    assert ClosedFraction(f.legs, n) + f.remaining == 1.0;
    ProfitWithin(f, f.legs, floor, entryMs, n);
    assert floor * (1.0 - ClosedFraction(f.legs, n)) <= 0.0 by { Shrinks(floor, f.remaining); }
    assert floor * ClosedFraction(f.legs, n) >= floor;
  }

  lemma {:induction false} Shrinks(floor: real, rest: real)
    requires floor <= 0.0 && rest >= 0.0
    ensures floor * rest <= 0.0
  {
    assert -floor * rest >= 0.0;
  }

  lemma {:induction false} ExitTime(p: Managed, entryMs: int, cs: seq<Candle>)
    requires Covered(p, entryMs) && forall k :: 0 <= k < |cs| ==> cs[k].ts >= entryMs
    ensures FinalExit(p, entryMs, cs).ts >= entryMs
  {
  }

  // ----- a target behind the entry -----

  /** Targets that pay nothing or less only lower the profit. */
  lemma {:induction false} ClimbPaysNothing(p: Managed, order: seq<nat>, m: nat, ts: int)
    requires Climbed(p, order, m)
    ensures var q := Climb(p, order, m, 0.0, ts).0; Profit(q, q.legs, |q.legs|) <= Profit(p, p.legs, |p.legs|)
    decreases |order| - m
  {
    hide Profit;
    if p.open && m < |order| && p.TargetGain(order[m]) <= 0.0 {
      RungKeeps(p, order, m, ts);
      RungPays(p, order, m, ts);
      ClimbPaysNothing(p.Apply(Rung(p, order[m]), ts), order, m + 1, ts);
    }
  }

  lemma {:induction false} RungPays(p: Managed, order: seq<nat>, m: nat, ts: int)
    requires Climbed(p, order, m) && p.open && m < |order|
    ensures var q := p.Apply(Rung(p, order[m]), ts);
            && (p.TargetGain(order[m]) <= 0.0 ==> Profit(q, q.legs, |q.legs|) <= Profit(p, p.legs, |p.legs|))
            && (p.TargetGain(order[m]) < 0.0 ==> Profit(q, q.legs, |q.legs|) < Profit(p, p.legs, |p.legs|))
  {
    hide Profit;
    var d := Rung(p, order[m]);
    ProfitOfExit(p, d, ts);
    Sign(p.GainAt(d.price), d.fraction);
  }

  lemma {:induction false} Sign(a: real, f: real)
    requires f > 0.0
    ensures (a <= 0.0 ==> a * f <= 0.0) && (a < 0.0 ==> a * f < 0.0)
  {
    if a < 0.0 { assert -a * f > 0.0; }
  }

  /** A bar that never leaves the entry price. */
  function FlatBar(entry: real, ts: int): Candle {
    Candle(Origin("", "", ""), M5, ts, entry, entry, entry, entry, 0)
  }

  lemma {:induction false} FlatBarLoses(direction: Direction, entry: real, entryMs: int, plan: ExitPlan)
    requires plan.Valid() && plan.direction == direction && !TargetsAhead(direction, entry, plan)
    ensures var (p0, c) := (Opened(direction, entry, plan), FlatBar(entry, entryMs));
            var p := SimBar(p0, c);
            && p.worst == p.entry == entry && p.direction == direction && Profit(p, p.legs, |p.legs|) < 0.0
  {
    hide Profit, Walk, Climb, FractionSum, Managed.Order, Reach;
    var p0, c := Opened(direction, entry, plan), FlatBar(entry, entryMs);
    assert p0.Excursed(entry) == p0;
    OpenedClimbed(direction, entry, plan);
    OpenedCovered(direction, entry, plan, entryMs);
    NotStopped(direction, entry, plan);
    SimBarCases(p0, c);
    var m := WalkIsWholeBar(p0, 0, c);
    FlatReach(p0, entry);
    var order := p0.Order();
    NearestLoses(p0);
    FirstRung(p0, order, entryMs);
    ClimbKeeps(p0, order, 0, 0.0, entryMs);
    NoProfit(p0);
  }

  lemma {:induction false} NotStopped(direction: Direction, entry: real, plan: ExitPlan)
    requires plan.Valid() && plan.direction == direction && !TargetsAhead(direction, entry, plan)
    ensures !Opened(direction, entry, plan).StopHit(entry, entry)
  {
    hide FractionSum;
  }

  lemma {:induction false} FlatReach(p: Managed, entry: real)
    requires p.entry == entry
    ensures Reach(p, entry, entry) == 0.0
  {
  }

  lemma {:induction false} NoProfit(p: Managed)
    requires p.legs == []
    ensures Profit(p, p.legs, |p.legs|) == 0.0
  {
  }

  lemma {:induction false} NearestLoses(p: Managed)
    requires !TargetsAhead(p.direction, p.entry, p.plan)
    ensures p.Order() != [] && p.TargetGain(p.Order()[0]) < 0.0
  {
    hide Managed.Order;
    OrderFacts(p);
    var k: nat :| k < |p.plan.tps| && p.direction.Gain(p.entry, p.plan.tps[k].price) < 0.0;
    assert k in p.Order() && p.TargetGain(k) < 0.0;
    var i :| 0 <= i < |p.Order()| && p.Order()[i] == k;
  }

  lemma {:induction false} FirstRung(p: Managed, order: seq<nat>, ts: int)
    requires Climbed(p, order, 0) && p.open && order != [] && p.TargetGain(order[0]) < 0.0
    ensures var q := Climb(p, order, 0, 0.0, ts).0; Profit(q, q.legs, |q.legs|) < Profit(p, p.legs, |p.legs|)
  {
    hide Profit, Climbed;
    RungKeeps(p, order, 0, ts);
    RungPays(p, order, 0, ts);
    ClimbPaysNothing(p.Apply(Rung(p, order[0]), ts), order, 1, ts);
  }

  ghost predicate Replayable(cs: seq<Candle>, entryMs: int) {
    forall k :: 0 <= k < |cs| ==> cs[k].WellFormed() && cs[k].ts >= entryMs
  }

  /** Every bar sequence leaves a bookable trade exactly when no target lies behind the entry. */
  lemma {:induction false} BookableIffTargetsAhead(direction: Direction, entry: real, entryMs: int, plan: ExitPlan,
        lots: real, pointValue: real, costUsd: real)
    requires plan.Valid() && plan.direction == direction && lots > 0.0 && pointValue > 0.0
    ensures (forall cs: seq<Candle> | Replayable(cs, entryMs) ::
               Bookable(Simulated(direction, entry, entryMs, plan, cs, lots, pointValue, costUsd)))
            <==> TargetsAhead(direction, entry, plan)
  {
    hide Simulated, Bookable, FractionSum, TargetsAhead;
    if TargetsAhead(direction, entry, plan) {
      forall cs: seq<Candle> | Replayable(cs, entryMs)
        ensures Bookable(Simulated(direction, entry, entryMs, plan, cs, lots, pointValue, costUsd))
      {
        SimulatedIsBookable(direction, entry, entryMs, plan, cs, lots, pointValue, costUsd);
      }
    } else {
      var cs := [FlatBar(entry, entryMs)];
      assert Replayable(cs, entryMs);
      FlatTradeUncovered(direction, entry, entryMs, plan, lots, pointValue, costUsd);
      assert !Bookable(Simulated(direction, entry, entryMs, plan, cs, lots, pointValue, costUsd));
    }
  }

  lemma {:induction false} FlatTradeUncovered(direction: Direction, entry: real, entryMs: int, plan: ExitPlan,
        lots: real, pointValue: real, costUsd: real)
    requires plan.Valid() && plan.direction == direction && !TargetsAhead(direction, entry, plan)
    requires lots > 0.0 && pointValue > 0.0
    ensures !Bookable(Simulated(direction, entry, entryMs, plan, [FlatBar(entry, entryMs)], lots, pointValue, costUsd))
  {
    hide SimBar, Profit, RealizedR, BarsHeld, FractionSum, TargetsAhead;
    var p0, c := Opened(direction, entry, plan), FlatBar(entry, entryMs);
    var cs := [c];
    FlatBarLoses(direction, entry, entryMs, plan);
    assert SimBars(p0, cs, 0) == p0;
    var p := SimBars(p0, cs, 1);
    assert p == SimBar(p0, c);
    FlatFlatten(p, cs);
    var f := Flattened(p, cs);
    LosesDollars(Profit(f, f.legs, |f.legs|), pointValue, lots);
  }

  lemma {:induction false} FlatFlatten(p: Managed, cs: seq<Candle>)
    requires |cs| == 1 && cs[0].close == p.entry && Profit(p, p.legs, |p.legs|) < 0.0
    ensures var f := Flattened(p, cs); Profit(f, f.legs, |f.legs|) < 0.0
  {
    var f := Flattened(p, cs);
    if f != p {
      ProfitSame(p, f, p.legs, f.legs, |p.legs|);
      assert f.GainAt(cs[0].close) == 0.0;
    }
  }

  lemma {:induction false} LosesDollars(profit: real, pointValue: real, lots: real)
    requires profit < 0.0 && pointValue > 0.0 && lots > 0.0
    ensures profit * pointValue * lots < 0.0
  {
    assert -profit * pointValue > 0.0;
    assert -profit * pointValue * lots > 0.0;
  }
}
