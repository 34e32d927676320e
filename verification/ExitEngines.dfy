/** The fixed-RR research model and the backtest simulator resolve the same trade alike. */
module ExitEngines {
  import opened Prelude
  import opened Candles
  import opened ExitPlans
  import opened ExitEngine
  import opened ExitLaws
  import opened ExitSimulator
  import opened ExitAgreement
  import Models = ExitModels

  /** One full-size target at `rr` times the risk. */
  function SingleTarget(su: Models.Setup, rr: real, minRr: real): ExitPlan {
    ExitPlan(su.direction, su.entry, su.stop, [TakeProfit(su.AtR(rr), 1.0)], minRr, None)
  }

  lemma {:induction false} SingleOrder(p: Managed)
    requires |p.plan.tps| == 1
    ensures p.Order() == [0]
  {
    var one := Indices(1);
    assert Indices(0) == [] && one == [0];
    var key := Nearness(p.direction, p.entry, p.plan.tps);
    assert one[1..] == [];
    assert StableSort(one[1..], key) == [];
  }

  /** The model's state that matches an untouched simulated position. */
  function WatchOf(p: Managed, bars: nat): Models.Watch {
    Models.Watch(bars, p.best, p.worst, p.stop, false, [], 1.0)
  }

  ghost predicate Untouched(p: Managed, su: Models.Setup, rr: real) {
    && p.open && p.legs == [] && p.taken == {} && p.remaining == 1.0
    && p.direction == su.direction && p.entry == su.entry && p.stop == su.stop
    && |p.plan.tps| == 1 && p.plan.tps[0] == TakeProfit(su.AtR(rr), 1.0)
  }

  /** A closed simulated position tells the model's outcome. */
  ghost predicate Tells(p: Managed, su: Models.Setup, bars: nat, o: Models.Outcome) {
    && !p.open && p.entry == su.entry && |p.legs| == 1 && p.legs[0].fraction == 1.0
    && o == Models.Outcome([Models.Slice(1.0, p.legs[0].price, p.legs[0].reason)], p.legs[0].ts, bars,
                           p.best, p.worst, true)
  }

  lemma {:induction false} OneTargetClimbs(p: Managed, su: Models.Setup, rr: real, reach: real, ts: int)
    requires Untouched(p, su, rr)
    ensures Climbed(p, [0], 0)
    ensures var q := Climb(p, [0], 0, reach, ts).0;
            if p.TargetGain(0) <= reach
            then q == p.(open := false, legs := [Leg(su.AtR(rr), 1.0, TargetHit, ts)], taken := {0}, remaining := 0.0)
            else q == p
  {
    hide Models.Setup.AtR;
    if p.TargetGain(0) <= reach {
      var q := p.Apply(Rung(p, 0), ts);
      assert Climb(q, [0], 1, reach, ts) == (q, 1);
    }
  }

  lemma {:induction false} SameExcursion(p: Managed, su: Models.Setup, rr: real, c: Candle, bars: nat)
    requires Untouched(p, su, rr) && c.WellFormed()
    ensures var e := p.Excursed(c.high).Excursed(c.low);
            && Untouched(e, su, rr)
            && WatchOf(p, bars).Bar().Excursed(su.direction, c) == WatchOf(e, bars + 1)
  {
  }

  /** One bar: both close on it with the same exit, or neither does. */
  lemma {:induction false} BarsAgree(p: Managed, su: Models.Setup, rr: real, c: Candle, bars: nat)
    requires Untouched(p, su, rr) && c.WellFormed()
    ensures var q := SimBar(p, c);
            match Models.Step(Models.FixedRR(rr), su, WatchOf(p, bars), c)
            case Going(w) => Untouched(q, su, rr) && w == WatchOf(q, bars + 1)
            case Done(o) => Tells(q, su, bars + 1, o)
  {
    hide Models.Setup.AtR, Climb, Climbed, Walk, SimBar, Managed.Excursed, Models.Watch.Excursed;
    var e := p.Excursed(c.high).Excursed(c.low);
    SameExcursion(p, su, rr, c, bars);
    SimBarCases(p, c);
    SimBarFrame(p, c);
    if !p.StopHit(c.high, c.low) {
      SingleOrder(e);
      OneTargetClimbs(e, su, rr, Reach(e, c.high, c.low), c.ts);
      var m := WalkIsWholeBar(e, 0, c);
    }
  }

  lemma {:induction false} RunsAgree(p0: Managed, su: Models.Setup, rr: real, cs: seq<Candle>, n: nat)
    requires Untouched(p0, su, rr) && p0.best == p0.worst == su.entry && cs != [] && n <= |cs|
    requires forall k :: 0 <= k < |cs| ==> cs[k].WellFormed()
    ensures var p := SimBars(p0, cs, n);
            var o := Models.Run(Models.FixedRR(rr), su, Models.Start(su), cs, 0);
            && (p.open ==> Untouched(p, su, rr) && BarsHeld(p0, cs, n) == n
                           && o == Models.Run(Models.FixedRR(rr), su, WatchOf(p, n), cs, n))
            && (!p.open ==> Tells(p, su, BarsHeld(p0, cs, n), o))
  {
    hide Models.Step, SimBar, Untouched, Tells;
    if n == 0 {
      StartsUntouched(p0, su, rr);
    } else {
      RunsAgree(p0, su, rr, cs, n - 1);
      var p := SimBars(p0, cs, n - 1);
      if p.open {
        BarsAgree(p, su, rr, cs[n - 1], n - 1);
        UntouchedIsOpen(SimBar(p, cs[n - 1]), su, rr);
      }
    }
  }

  lemma {:induction false} StartsUntouched(p0: Managed, su: Models.Setup, rr: real)
    requires Untouched(p0, su, rr) && p0.best == p0.worst == su.entry
    ensures p0.open && Models.Start(su) == WatchOf(p0, 0)
  {
  }

  lemma {:induction false} UntouchedIsOpen(p: Managed, su: Models.Setup, rr: real)
    ensures Untouched(p, su, rr) ==> p.open
    ensures forall bars, o :: Tells(p, su, bars, o) ==> !p.open
  {
  }

  /** `FixedRR(rr)` and the simulator on the single-target plan exit at the same price, for the
      same reason, at the same time, after as many bars, on every well-formed path. */
  lemma {:induction false} FixedRRIsSimulateExit(su: Models.Setup, rr: real, minRr: real, entryMs: int, cs: seq<Candle>,
        lots: real, pointValue: real, costUsd: real)
    requires cs != [] && (forall k :: 0 <= k < |cs| ==> cs[k].WellFormed())
    ensures var plan := SingleTarget(su, rr, minRr);
            var t := Simulated(su.direction, su.entry, entryMs, plan, cs, lots, pointValue, costUsd);
            var o := Models.Run(Models.FixedRR(rr), su, Models.Start(su), cs, 0);
            && |o.legs| == 1 && t.legs == Models.LegsOf(o, 1)
            && t.exitPrice == o.legs[0].price && t.reason == o.legs[0].reason && t.exitMs == o.exitMs
            && t.barsHeld == o.barsHeld && t.closed == o.closed
            && t.mfe == Abs(o.best - su.entry) && t.mae == Abs(o.worst - su.entry)
  {
    hide SimBars, BarsHeld, Profit, RealizedR, Models.Setup.AtR, Models.Step;
    var p0 := Opened(su.direction, su.entry, SingleTarget(su, rr, minRr));
    assert Untouched(p0, su, rr);
    RunsAgree(p0, su, rr, cs, |cs|);
    var p := SimBars(p0, cs, |cs|);
    var o := Models.Run(Models.FixedRR(rr), su, Models.Start(su), cs, 0);
    var last := cs[|cs| - 1];
    if p.open {
      assert o == Models.Flatten(WatchOf(p, |cs|), last);
      assert o.legs == [Models.Slice(1.0, last.close, EodFlatten)];
    }
    assert Models.LegsOf(o, 1) == [Leg(o.legs[0].price, o.legs[0].fraction, o.legs[0].reason, o.exitMs)];
  }
}
