/** How much dust lets the backtest flatter: the slack of the comparison with tick-by-tick driving
    is the smallest possible. */
module ExitSlack {
  import opened Prelude
  import opened Candles
  import opened ExitPlans
  import opened ExitEngine
  import opened ExitSimulator
  import opened ExitAgreement

  /** The simulator's realised R exceeds the tick-by-tick one by at most `k` times the dust. */
  ghost predicate Within(k: real, direction: Direction, entry: real, plan: ExitPlan, cs: seq<Candle>)
    requires plan.Risk() > 0.0
  {
    var p0 := Opened(direction, entry, plan);
    var s, l := Flattened(SimBars(p0, cs, |cs|), cs), Flattened(LiveBars(p0, cs, |cs|), cs);
    RealizedR(s, s.legs, |s.legs|) <= RealizedR(l, l.legs, |l.legs|) + k * DustR(direction, entry, plan)
  }

  ghost predicate Comparable(direction: Direction, plan: ExitPlan, cs: seq<Candle>) {
    && plan.Valid() && plan.policy.None? && plan.direction == direction && plan.Risk() > 0.0
    && forall i :: 0 <= i < |cs| ==> cs[i].WellFormed()
  }

  // ----- a position filled beyond its stop -----

  /** The first target leaves `eta` more than dust, the second takes the `eta`. */
  function SplitPlan(eta: real): ExitPlan {
    ExitPlan(Long, 100.0, 90.0, [TakeProfit(110.0, 1.0 - DUST - eta), TakeProfit(120.0, eta)], 1.0, None)
  }

  /** A bar at the first target, then one that falls from the second target to the stop. */
  const SPLIT_BARS: seq<Candle> := [
    Candle(Origin("", "", ""), M5, 0, 110.0, 110.0, 110.0, 110.0, 0),
    Candle(Origin("", "", ""), M5, 1, 115.0, 120.0, 90.0, 100.0, 0)]

  function Filled(eta: real): Managed { Opened(Long, 80.0, SplitPlan(eta)) }

  function FirstTaken(eta: real): Managed {
    Filled(eta).(remaining := DUST + eta, legs := [Leg(110.0, 1.0 - DUST - eta, TargetHit, 0)], taken := {0})
  }

  function SecondTaken(eta: real): Managed {
    FirstTaken(eta).(remaining := DUST, legs := FirstTaken(eta).legs + [Leg(120.0, eta, TargetHit, 1)],
                     taken := {0, 1}, open := false)
  }

  function Stopped(eta: real): Managed {
    FirstTaken(eta).(remaining := 0.0, legs := FirstTaken(eta).legs + [Leg(90.0, DUST + eta, StopLoss, 1)],
                     open := false)
  }

  lemma {:induction false} SplitIsValid(eta: real)
    requires 0.0 < eta < DUST
    ensures Comparable(Long, SplitPlan(eta), SPLIT_BARS) && DustR(Long, 80.0, SplitPlan(eta)) == DUST
  {
    var plan := SplitPlan(eta);
    assert FractionSum(plan.tps, 2) == FractionSum(plan.tps, 1) + eta;
    assert FractionSum(plan.tps, 1) == FractionSum(plan.tps, 0) + (1.0 - DUST - eta);
    assert Abs(plan.tps[0].price - plan.entry) + 0.000001 * plan.Risk() >= plan.minRr * plan.Risk();
  }

  lemma {:induction false} SplitOrder(p: Managed, eta: real)
    requires p.plan == SplitPlan(eta) && p.direction == Long && p.entry == 80.0
    ensures p.Order() == [0, 1]
  {
    var key := Nearness(p.direction, p.entry, p.plan.tps);
    assert Indices(1) == [0] by { assert Indices(0) == []; }
    assert Indices(2) == [0, 1];
    StableSortOfSorted(Indices(2), key);
  }

  /** What is taken at a price between the stop and beyond the targets. */
  lemma {:induction false} SplitScan(p: Managed, eta: real, price: real)
    requires 0.0 < eta < DUST && p.plan == SplitPlan(eta) && p.direction == Long && p.entry == 80.0
    requires p.open && p.stop == 90.0 && price > 90.0
    ensures p.taken == {} && p.remaining == 1.0 && 110.0 <= price < 120.0 ==>
              p.Evaluate(price, price) == [Decision(TargetHit, 110.0, 1.0 - DUST - eta, 0, false)]
    ensures p.taken == {0} && price < 120.0 ==> p.Evaluate(price, price) == []
    ensures p.taken == {0} && p.remaining == DUST + eta && price == 120.0 ==>
              p.Evaluate(price, price) == [Decision(TargetHit, 120.0, eta, 1, true)]
  {
    hide Managed.Order, Managed.Scan;
    var order := p.Order();
    SplitOrder(p, eta);
    p.ScanStep(order, 0, p.remaining, price, price);
    p.ScanStep(order, 1, p.remaining, price, price);
    p.ScanStep(order, 1, p.remaining - (1.0 - DUST - eta), price, price);
    p.ScanEnd(order, p.remaining, price, price);
    p.ScanEnd(order, p.remaining - (1.0 - DUST - eta), price, price);
  }

  lemma {:induction false} TakesFirst(p: Managed, eta: real)
    requires 0.0 < eta < DUST && SameBook(p, Filled(eta))
    ensures SameBook(p.Exited(110.0, 110.0, 0), FirstTaken(eta))
  {
    hide Managed.Evaluate;
    SplitScan(p, eta, 110.0);
    p.ApplyOne(Decision(TargetHit, 110.0, 1.0 - DUST - eta, 0, false), 0);
  }

  lemma {:induction false} TakesNone(p: Managed, eta: real, price: real, ts: int)
    requires 0.0 < eta < DUST && SameBook(p, FirstTaken(eta)) && 90.0 < price < 120.0
    ensures p.Exited(price, price, ts) == p
  {
    hide Managed.Evaluate;
    SplitScan(p, eta, price);
  }

  lemma {:induction false} TakesSecond(p: Managed, eta: real)
    requires 0.0 < eta < DUST && SameBook(p, FirstTaken(eta))
    ensures SameBook(p.Exited(120.0, 120.0, 1), SecondTaken(eta))
  {
    hide Managed.Evaluate;
    SplitScan(p, eta, 120.0);
    p.ApplyOne(Decision(TargetHit, 120.0, eta, 1, true), 1);
  }

  /** Walking the first bar takes the first target. */
  lemma {:induction false} FirstBarWalk(p: Managed, eta: real)
    requires 0.0 < eta < DUST && SameBook(p, Filled(eta))
    ensures SameBook(Walk(p, SyntheticTickPath(SPLIT_BARS[0]), 0, 4), FirstTaken(eta))
  {
    hide Managed.Exited;
    var path := SyntheticTickPath(SPLIT_BARS[0]);
    assert path == [110.0, 110.0, 110.0, 110.0];
    assert Walk(p, path, 0, 0) == p;
    TakesFirst(p, eta);
    var q := Walk(p, path, 0, 1);
    TakesNone(q, eta, 110.0, 0);
    assert Walk(p, path, 0, 2) == q && Walk(p, path, 0, 3) == q;
  }

  /** Walking the second bar takes the second target and leaves the dust. */
  lemma {:induction false} SecondBarWalk(p: Managed, eta: real)
    requires 0.0 < eta < DUST && SameBook(p, FirstTaken(eta))
    ensures SameBook(Walk(p, SyntheticTickPath(SPLIT_BARS[1]), 1, 4), SecondTaken(eta))
  {
    hide Managed.Exited;
    var path := SyntheticTickPath(SPLIT_BARS[1]);
    assert path == [115.0, 120.0, 90.0, 100.0];
    assert Walk(p, path, 1, 0) == p;
    TakesNone(p, eta, 115.0, 1);
    assert Walk(p, path, 1, 1) == p;
    TakesSecond(p, eta);
    WalkClosed(p, path, 1, 2, 4);
  }

  lemma {:induction false} LiveRun(eta: real)
    requires 0.0 < eta < DUST
    ensures SameBook(LiveBars(Filled(eta), SPLIT_BARS, 2), SecondTaken(eta))
  {
    hide Walk, ExitEngine.Managed.Ticked;
    var p0 := Filled(eta);
    assert LiveBars(p0, SPLIT_BARS, 0) == p0;
    FirstBarWalk(p0, eta);
    TicksWalk(p0, p0, SyntheticTickPath(SPLIT_BARS[0]), 0, 4);
    var l1 := LiveBars(p0, SPLIT_BARS, 1);
    SecondBarWalk(l1, eta);
    TicksWalk(l1, l1, SyntheticTickPath(SPLIT_BARS[1]), 1, 4);
  }

  lemma {:induction false} SimRun(eta: real)
    requires 0.0 < eta < DUST
    ensures SameBook(SimBars(Filled(eta), SPLIT_BARS, 2), Stopped(eta))
  {
    hide Walk, Managed.Scan, Managed.Order;
    var p0 := Filled(eta);
    assert SimBars(p0, SPLIT_BARS, 0) == p0;
    var e := p0.Excursed(110.0).Excursed(110.0);
    SplitScan(e, eta, 110.0);
    FirstBarWalk(e, eta);
    var s1 := SimBars(p0, SPLIT_BARS, 1);
    assert s1 == Walk(e, SyntheticTickPath(SPLIT_BARS[0]), 0, 4);
    var e1 := s1.Excursed(120.0).Excursed(90.0);
    assert e1.Evaluate(120.0, 90.0) == [Decision(StopLoss, 90.0, DUST + eta, -1, true)];
  }

  /** The simulator stops out all that is left, the ticks leave the dust unbooked. */
  lemma {:induction false} SplitFlatters(eta: real)
    requires 0.0 < eta < DUST
    ensures var p0 := Filled(eta);
            var s := Flattened(SimBars(p0, SPLIT_BARS, 2), SPLIT_BARS);
            var l := Flattened(LiveBars(p0, SPLIT_BARS, 2), SPLIT_BARS);
            RealizedR(s, s.legs, |s.legs|) == RealizedR(l, l.legs, |l.legs|) + DUST - 3.0 * eta
  {
    hide SimBars, LiveBars;
    LiveRun(eta);
    SimRun(eta);
    var s, l := SimBars(Filled(eta), SPLIT_BARS, 2), LiveBars(Filled(eta), SPLIT_BARS, 2);
    SplitR(s, eta);
    SplitR(l, eta);
  }

  lemma {:induction false} SplitR(p: Managed, eta: real)
    requires SameBook(p, Stopped(eta)) || SameBook(p, SecondTaken(eta))
    ensures RealizedR(p, p.legs, |p.legs|) ==
              3.0 * (1.0 - DUST - eta) + if p.legs[1].price == 90.0 then DUST + eta else 4.0 * eta
  {
    assert RealizedR(p, p.legs, 1) == RealizedR(p, p.legs, 0) + 30.0 / 10.0 * (1.0 - DUST - eta);
  }

  /** The slack of NeverFlatters is exact: no smaller multiple of the dust bounds every trade. */
  lemma {:induction false} DustIsTheSlack(k: real)
    ensures (forall direction: Direction, entry: real, plan: ExitPlan, cs: seq<Candle> ::
               Comparable(direction, plan, cs) ==> Within(k, direction, entry, plan, cs))
            <==> k >= 1.0
  {
    hide SimBars, LiveBars, RealizedR, SplitPlan, Flattened, ExitPlan.Valid, ExitPlan.Risk;
    if k >= 1.0 {
      forall direction: Direction, entry: real, plan: ExitPlan, cs: seq<Candle> | Comparable(direction, plan, cs)
        ensures Within(k, direction, entry, plan, cs)
      {
        NeverFlatters(direction, entry, plan, cs);
        AtLeastOnce(k, direction, entry, plan);
      }
    } else {
      var eta := Min(1.0 - k, 1.0) * DUST / 4.0;
      SplitIsValid(eta);
      SplitFlatters(eta);
      assert !Within(k, Long, 80.0, SplitPlan(eta), SPLIT_BARS);
    }
  }

  lemma {:induction false} AtLeastOnce(k: real, direction: Direction, entry: real, plan: ExitPlan)
    requires plan.Risk() > 0.0 && k >= 1.0
    ensures DustR(direction, entry, plan) <= k * DustR(direction, entry, plan)
  {
    var d := DustR(direction, entry, plan);
    assert d >= 0.0;
    assert (k - 1.0) * d >= 0.0;
  }
}
