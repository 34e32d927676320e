/** The backtest simulator against driving the position price by price, as an executor does. */
module ExitAgreement {
  import opened Prelude
  import opened Candles
  import opened ExitPlans
  import opened ExitEngine
  import opened ExitLaws
  import opened ExitSimulator

  /** The reference: every price of every bar's path is a tick. */
  function LiveBars(p: Managed, cs: seq<Candle>, n: nat): Managed
    requires n <= |cs|
  {
    if n == 0 then p
    else After(LiveBars(p, cs, n - 1), SyntheticTickPath(cs[n - 1]), cs[n - 1].ts, 4)
  }

  // ----- exits do not read the excursions -----

  /** Equal up to the recorded excursions. */
  ghost predicate SameBook(p: Managed, q: Managed) {
    q == p.(best := q.best, worst := q.worst)
  }

  lemma {:induction false} SameScan(p: Managed, q: Managed, order: seq<nat>, i: nat, running: real, high: real,
        low: real)
    requires SameBook(p, q) && i <= |order| && forall j :: 0 <= j < |order| ==> order[j] < |p.plan.tps|
    ensures p.Scan(order, i, running, high, low) == q.Scan(order, i, running, high, low)
    decreases |order| - i
  {
    if i < |order| {
      SameScan(p, q, order, i + 1, running, high, low);
      SameScan(p, q, order, i + 1, running - Min(p.plan.tps[order[i]].fraction, running), high, low);
    }
  }

  lemma {:induction false} SameApply(p: Managed, q: Managed, ds: seq<Decision>, ts: int)
    requires SameBook(p, q)
    ensures SameBook(p.ApplyAll(ds, ts), q.ApplyAll(ds, ts))
    decreases |ds|
  {
    if ds != [] { SameApply(p.Apply(ds[0], ts), q.Apply(ds[0], ts), ds[1..], ts); }
  }

  lemma {:induction false} SameExits(p: Managed, q: Managed, high: real, low: real, ts: int)
    requires SameBook(p, q)
    ensures p.Evaluate(high, low) == q.Evaluate(high, low)
    ensures SameBook(p.Exited(high, low, ts), q.Exited(high, low, ts))
  {
    SameScan(p, q, p.Order(), 0, p.remaining, high, low);
    assert p.Order() == q.Order();
    SameApply(p, q, p.Evaluate(high, low), ts);
  }

  /** Without a policy a tick is an excursion and an exit. */
  lemma {:induction false} PlainTick(p: Managed, price: real, ts: int)
    requires p.plan.policy.None?
    ensures p.Ticked(price, ts).plan == p.plan
    ensures SameBook(p.Exited(price, price, ts), p.Ticked(price, ts))
  {
    if p.open {
      SameExits(p, p.Excursed(price), price, price, ts);
      ApplyKeepsStop(p, p.Evaluate(price, price), ts);
    }
  }

  /** Ticking along a path takes the exits of walking it. */
  lemma {:induction false} TicksWalk(p: Managed, q: Managed, prices: seq<real>, ts: int, n: nat)
    requires p.plan.policy.None? && SameBook(p, q) && n <= |prices|
    ensures SameBook(Walk(p, prices, ts, n), After(q, prices, ts, n)) && After(q, prices, ts, n).plan == p.plan
  {
    hide Managed.Exited, Managed.Ticked;
    if n > 0 {
      TicksWalk(p, q, prices, ts, n - 1);
      var w, a := Walk(p, prices, ts, n - 1), After(q, prices, ts, n - 1);
      PlainTick(a, prices[n - 1], ts);
      SameExits(w, a, prices[n - 1], prices[n - 1], ts);
    }
  }

  lemma {:induction false} SameWalk(p: Managed, q: Managed, prices: seq<real>, ts: int, n: nat)
    requires SameBook(p, q) && n <= |prices|
    ensures SameBook(Walk(p, prices, ts, n), Walk(q, prices, ts, n))
  {
    hide Managed.Exited;
    if n > 0 {
      SameWalk(p, q, prices, ts, n - 1);
      SameExits(Walk(p, prices, ts, n - 1), Walk(q, prices, ts, n - 1), prices[n - 1], prices[n - 1], ts);
    }
  }

  // ----- a bar without a stop -----

  /** The furthest of the first `n` prices of a path, as a gain. */
  function PathReach(p: Managed, prices: seq<real>, n: nat): real
    requires 0 < n <= |prices|
  {
    if n == 1 then p.GainAt(prices[0]) else Max(PathReach(p, prices, n - 1), p.GainAt(prices[n - 1]))
  }

  /** The exits of a range that misses the stop keep the climbed invariant. */
  lemma {:induction false} ExitedKeeps(p: Managed, m: nat, price: real, ts: int) returns (m1: nat)
    requires Climbed(p, p.Order(), m) && !p.StopHit(price, price)
    ensures var q := p.Exited(price, price, ts);
            && (q, m1) == Climb(p, p.Order(), m, p.GainAt(price), ts)
            && Climbed(q, q.Order(), m1) && q.plan == p.plan && q.direction == p.direction
            && q.entry == p.entry && q.stop == p.stop
  {
    hide Managed.Exited, Climb, Climbed, Managed.StopHit;
    ExitedClimbs(p, m, price, price, ts);
    ClimbKeeps(p, p.Order(), m, p.GainAt(price), ts);
    m1 := Climb(p, p.Order(), m, p.GainAt(price), ts).1;
  }

  /** Walking prices that all miss the stop climbs to the furthest of them. */
  lemma {:induction false} WalkClimbs(p: Managed, m: nat, prices: seq<real>, ts: int, n: nat) returns (m1: nat)
    requires Climbed(p, p.Order(), m) && 0 < n <= |prices|
    requires forall i :: 0 <= i < n ==> !p.StopHit(prices[i], prices[i])
    ensures var q := Walk(p, prices, ts, n);
            && (q, m1) == Climb(p, p.Order(), m, PathReach(p, prices, n), ts)
            && Climbed(q, q.Order(), m1) && q.plan == p.plan && q.direction == p.direction
            && q.entry == p.entry && q.stop == p.stop
  {
    hide Managed.Exited, Climb, Climbed;
    if n == 1 {
      assert Walk(p, prices, ts, 0) == p;
      m1 := ExitedKeeps(p, m, prices[0], ts);
    } else {
      var m0 := WalkClimbs(p, m, prices, ts, n - 1);
      var q := Walk(p, prices, ts, n - 1);
      m1 := ExitedKeeps(q, m0, prices[n - 1], ts);
      ClimbTwice(p, p.Order(), m, PathReach(p, prices, n - 1), p.GainAt(prices[n - 1]), ts);
    }
  }

  lemma {:induction false} PathCoversBar(p: Managed, c: Candle)
    requires c.WellFormed()
    ensures PathReach(p, SyntheticTickPath(c), 4) == Reach(p, c.high, c.low)
    ensures !p.StopHit(c.high, c.low) <==>
              forall i :: 0 <= i < 4 ==> !p.StopHit(SyntheticTickPath(c)[i], SyntheticTickPath(c)[i])
  {
    var path := SyntheticTickPath(c);
    assert PathReach(p, path, 4) == Max(PathReach(p, path, 3), p.GainAt(path[3]));
    assert PathReach(p, path, 3) == Max(PathReach(p, path, 2), p.GainAt(path[2]));
    assert PathReach(p, path, 2) == Max(PathReach(p, path, 1), p.GainAt(path[1]));
    assert p.StopHit(path[1], path[1]) || p.StopHit(path[2], path[2]) || !p.StopHit(c.high, c.low);
  }

  /** Walking the synthetic path of a bar that misses the stop takes the same targets, in the
      same order and at the same fractions, as one evaluation of the whole bar. */
  lemma {:induction false} WalkIsWholeBar(p: Managed, m: nat, c: Candle) returns (m1: nat)
    requires Climbed(p, p.Order(), m) && c.WellFormed() && !p.StopHit(c.high, c.low)
    ensures Walk(p, SyntheticTickPath(c), c.ts, 4) == p.Exited(c.high, c.low, c.ts)
    ensures var q := Walk(p, SyntheticTickPath(c), c.ts, 4);
            && (q, m1) == Climb(p, p.Order(), m, Reach(p, c.high, c.low), c.ts)
            && Climbed(q, q.Order(), m1) && q.plan == p.plan && q.direction == p.direction
            && q.entry == p.entry && q.stop == p.stop
  {
    hide Managed.Exited, Climb, Climbed, Managed.StopHit, Reach;
    PathCoversBar(p, c);
    m1 := WalkClimbs(p, m, SyntheticTickPath(c), c.ts, 4);
    ExitedClimbs(p, m, c.high, c.low, c.ts);
  }

  // ----- a bar with a stop -----

  /** What the position is worth if all that is left of it goes out at the stop. */
  function Value(p: Managed): real {
    Profit(p, p.legs, |p.legs|) + p.GainAt(p.stop) * p.remaining
  }

  /** Every target pays more than the stop. */
  ghost predicate StopPaysLess(p: Managed) {
    forall i :: 0 <= i < |p.plan.tps| ==> p.TargetGain(i) > p.GainAt(p.stop) && p.plan.tps[i].fraction > 0.0
  }

  /** What dust is worth at a stop that wins; nothing unless the entry lies beyond the stop. */
  function DustAtStop(p: Managed): real { Max(0.0, p.GainAt(p.stop)) * DUST }

  lemma {:induction false} ProfitSame(p: Managed, q: Managed, ls: seq<Leg>, ms: seq<Leg>, n: nat)
    requires n <= |ls| && n <= |ms| && (forall i :: 0 <= i < n ==> ls[i] == ms[i])
    requires p.direction == q.direction && p.entry == q.entry
    ensures Profit(p, ls, n) == Profit(q, ms, n)
  {
    if n > 0 { ProfitSame(p, q, ls, ms, n - 1); }
  }

  lemma {:induction false} ProfitOfExit(p: Managed, d: Decision, ts: int)
    requires d.fraction > 0.0
    ensures var q := p.Apply(d, ts);
            Profit(q, q.legs, |q.legs|) == Profit(p, p.legs, |p.legs|) + p.GainAt(d.price) * d.fraction
  {
    var q := p.Apply(d, ts);
    ProfitSame(p, q, p.legs, q.legs, |p.legs|);
  }

  lemma {:induction false} LessTimes(a: real, b: real, f: real)
    requires a < b && f > 0.0
    ensures a * f < b * f
  {
    assert (b - a) * f > 0.0;
  }

  lemma {:induction false} DustTimes(a: real, f: real)
    requires 0.0 <= f <= DUST
    ensures a * f <= Max(0.0, a) * DUST
    ensures a <= 0.0 ==> a * f <= 0.0
  {
    if a <= 0.0 { assert -a * f >= 0.0; } else { assert a * (DUST - f) >= 0.0; }
  }

  /** Taking a target is strictly better than leaving it to the stop. */
  lemma {:induction false} RungGains(p: Managed, k: nat, ts: int)
    requires StopPaysLess(p) && p.open && p.remaining > DUST && k < |p.plan.tps|
    ensures Value(p.Apply(Rung(p, k), ts)) > Value(p)
    ensures StopPaysLess(p.Apply(Rung(p, k), ts))
  {
    hide Profit;
    var d := Rung(p, k);
    var q := p.Apply(d, ts);
    var stopGain, gain := p.GainAt(p.stop), p.GainAt(d.price);
    ProfitOfExit(p, d, ts);
    assert gain == p.TargetGain(k);
    LessTimes(stopGain, gain, d.fraction);
    assert stopGain * p.remaining == stopGain * q.remaining + stopGain * d.fraction;
    assert q.GainAt(q.stop) == stopGain;
  }

  lemma {:induction false} ClimbGains(p: Managed, order: seq<nat>, m: nat, reach: real, ts: int)
    requires Climbed(p, order, m) && StopPaysLess(p)
    ensures var q := Climb(p, order, m, reach, ts).0;
            StopPaysLess(q) && (q == p || Value(q) > Value(p))
    decreases |order| - m
  {
    hide Value, StopPaysLess, Rung;
    if p.open && m < |order| && p.TargetGain(order[m]) <= reach {
      RungKeeps(p, order, m, ts);
      RungGains(p, order[m], ts);
      ClimbGains(p.Apply(Rung(p, order[m]), ts), order, m + 1, reach, ts);
    }
  }

  function StopOut(p: Managed): Decision {
    Decision(StopLoss, p.stop, p.remaining, -1, true)
  }

  lemma {:induction false} StopOutKeepsValue(p: Managed, ts: int)
    requires p.open && p.remaining > DUST
    ensures var q := p.Apply(StopOut(p), ts);
            && !q.open && q.remaining == 0.0 && Value(q) == Value(p)
            && q.legs == p.legs + [Leg(p.stop, p.remaining, StopLoss, ts)]
  {
    hide Profit;
    ProfitOfExit(p, StopOut(p), ts);
  }

  lemma {:induction false} ExitedAtStop(p: Managed, price: real, ts: int)
    requires p.open && p.StopHit(price, price)
    ensures p.Exited(price, price, ts) == p.Apply(StopOut(p), ts)
  {
    p.ApplyOne(StopOut(p), ts);
    assert p.Evaluate(price, price) == [StopOut(p)];
  }

  /** How a walk compares with stopping out at once: untouched, or strictly better, or stopped
      out at exactly the same. */
  ghost predicate AtLeastStopped(p: Managed, q: Managed, ts: int) {
    && (q.open ==> q == p || Value(q) > Value(p))
    && (!q.open ==> 0.0 <= q.remaining <= DUST)
    && (!q.open ==>
          || Value(q) > Value(p)
          || (Value(q) == Value(p) && q.legs == p.legs + [Leg(p.stop, p.remaining, StopLoss, ts)]))
  }

  lemma {:induction false} WalkGains(p: Managed, m: nat, prices: seq<real>, ts: int, n: nat) returns (m1: nat)
    requires Climbed(p, p.Order(), m) && StopPaysLess(p) && p.open && n <= |prices|
    ensures var q := Walk(p, prices, ts, n);
            && AtLeastStopped(p, q, ts)
            && (q.open ==> forall i :: 0 <= i < n ==> !p.StopHit(prices[i], prices[i]))
            && (q.open ==>
                  Climbed(q, q.Order(), m1) && StopPaysLess(q) && q.stop == p.stop && q.direction == p.direction)
  {
    hide Managed.Exited, Value, StopPaysLess, Climb, Managed.Order;
    if n == 0 {
      m1 := m;
    } else {
      var m0 := WalkGains(p, m, prices, ts, n - 1);
      var q := Walk(p, prices, ts, n - 1);
      var price := prices[n - 1];
      m1 := m0;
      if !q.open {
        WalkClosed(p, prices, ts, n - 1, n);
      } else if q.StopHit(price, price) {
        ExitedAtStop(q, price, ts);
        StopOutKeepsValue(q, ts);
      } else {
        m1 := ExitedKeeps(q, m0, price, ts);
        ClimbGains(q, q.Order(), m0, q.GainAt(price), ts);
      }
    }
  }

  /** On a bar whose range touches the stop, walking the path is never worse than the stop, up to
      what dust is worth at a winning stop; at a losing stop it is no better only if it yields the
      very same leg. */
  lemma {:induction false} StopBarNeverFlatters(p: Managed, m: nat, c: Candle)
    requires Climbed(p, p.Order(), m) && StopPaysLess(p) && p.open && c.WellFormed() && p.StopHit(c.high, c.low)
    ensures var s := p.Apply(StopOut(p), c.ts);
            var w := Walk(p, SyntheticTickPath(c), c.ts, 4);
            && !s.open && !w.open
            && Profit(p, s.legs, |s.legs|) <= Profit(p, w.legs, |w.legs|) + DustAtStop(p)
            && (p.GainAt(p.stop) <= 0.0 ==>
                  && Profit(p, s.legs, |s.legs|) <= Profit(p, w.legs, |w.legs|)
                  && (Profit(p, s.legs, |s.legs|) == Profit(p, w.legs, |w.legs|) <==> s.legs == w.legs))
  {
    hide Profit, Climbed, StopPaysLess, Managed.StopHit;
    var path := SyntheticTickPath(c);
    var s, w := p.Apply(StopOut(p), c.ts), Walk(p, path, c.ts, 4);
    PathCoversBar(p, c);
    var m1 := WalkGains(p, m, path, c.ts, 4);
    OpenHolds(p, m);
    StopOutKeepsValue(p, c.ts);
    SameFrame(p, path, c.ts, 4);
    DustTimes(p.GainAt(p.stop), w.remaining);
    ProfitSame(p, w, w.legs, w.legs, |w.legs|);
    ProfitSame(p, s, s.legs, s.legs, |s.legs|);
  }

  lemma {:induction false} OpenHolds(p: Managed, m: nat)
    requires Climbed(p, p.Order(), m) && p.open
    ensures p.remaining > DUST
  {
  }

  lemma {:induction false} SameFrame(p: Managed, prices: seq<real>, ts: int, n: nat)
    requires n <= |prices|
    ensures var q := Walk(p, prices, ts, n);
            q == p.(legs := q.legs, taken := q.taken, remaining := q.remaining, open := q.open)
  {
    hide Managed.Evaluate;
    if n > 0 {
      SameFrame(p, prices, ts, n - 1);
      var q := Walk(p, prices, ts, n - 1);
      ApplyKeepsStop(q, q.Evaluate(prices[n - 1], prices[n - 1]), ts);
    }
  }

  // ----- whole runs -----

  /** One bar of the simulator: stopped out if the range touches the stop, else walked. */
  lemma {:induction false} SimBarCases(p: Managed, c: Candle)
    requires p.open && Holding(p)
    ensures var e := p.Excursed(c.high).Excursed(c.low);
            && SameBook(p, e)
            && SimBar(p, c) == if p.StopHit(c.high, c.low) then e.Apply(StopOut(e), c.ts)
                               else Walk(e, SyntheticTickPath(c), c.ts, 4)
  {
    hide Walk, Managed.Exited;
    var e := p.Excursed(c.high).Excursed(c.low);
    if !p.StopHit(c.high, c.low) {
      ScanPositive(e, e.Order(), 0, e.remaining, c.high, c.low);
      assert e.Evaluate(c.high, c.low) == e.Scan(e.Order(), 0, e.remaining, c.high, c.low);
    }
  }

  /** The two runs hold the same book, or both are closed and the simulator is no better. */
  ghost predicate Trails(s: Managed, l: Managed, m: nat) {
    && l.direction == s.direction && l.entry == s.entry && l.plan == s.plan && s.stop == l.stop == s.plan.stop
    && ((SameBook(s, l) && Climbed(s, s.Order(), m) && StopPaysLess(s)) || NoBetter(s, l))
  }

  ghost predicate NoBetter(s: Managed, l: Managed) {
    && !s.open && !l.open
    && Profit(s, s.legs, |s.legs|) <= Profit(s, l.legs, |l.legs|) + DustAtStop(s)
    && (s.GainAt(s.stop) <= 0.0 ==>
          && Profit(s, s.legs, |s.legs|) <= Profit(s, l.legs, |l.legs|)
          && (Profit(s, s.legs, |s.legs|) == Profit(s, l.legs, |l.legs|) <==> s.legs == l.legs))
  }

  lemma {:induction false} StopBarTrails(s: Managed, l: Managed, m: nat, c: Candle)
    requires Trails(s, l, m) && s.open && SameBook(s, l) && Climbed(s, s.Order(), m) && StopPaysLess(s)
    requires s.plan.policy.None? && c.WellFormed() && s.StopHit(c.high, c.low)
    ensures Trails(SimBar(s, c), After(l, SyntheticTickPath(c), c.ts, 4), m)
  {
    hide Walk, After, Profit, Climbed, StopPaysLess, SimBar, Managed.Order, Managed.StopHit;
    var path := SyntheticTickPath(c);
    var e := s.Excursed(c.high).Excursed(c.low);
    OpenHoldsAll(s, m);
    SimBarCases(s, c);
    ReadsBook(s, e, m, c);
    StopBarNeverFlatters(e, m, c);
    SameWalk(e, l, path, c.ts, 4);
    TicksWalk(l, l, path, c.ts, 4);
    SameFrame(e, path, c.ts, 4);
    ProfitSame(e, SimBar(s, c), SimBar(s, c).legs, SimBar(s, c).legs, |SimBar(s, c).legs|);
    var w := Walk(e, path, c.ts, 4);
    ProfitSame(e, SimBar(s, c), w.legs, w.legs, |w.legs|);
  }

  lemma {:induction false} WalkBarTrails(s: Managed, l: Managed, m: nat, c: Candle) returns (m1: nat)
    requires Trails(s, l, m) && s.open && SameBook(s, l) && Climbed(s, s.Order(), m) && StopPaysLess(s)
    requires s.plan.policy.None? && c.WellFormed() && !s.StopHit(c.high, c.low)
    ensures Trails(SimBar(s, c), After(l, SyntheticTickPath(c), c.ts, 4), m1)
  {
    hide Walk, After, Climbed, Profit, StopPaysLess, SimBar, Managed.Order, Managed.StopHit;
    var path := SyntheticTickPath(c);
    var e := s.Excursed(c.high).Excursed(c.low);
    OpenHoldsAll(s, m);
    SimBarCases(s, c);
    ReadsBook(s, e, m, c);
    m1 := WalkIsWholeBar(e, m, c);
    SameWalk(e, l, path, c.ts, 4);
    TicksWalk(l, l, path, c.ts, 4);
    SameLosses(e, Walk(e, path, c.ts, 4));
  }

  lemma {:induction false} OpenHoldsAll(p: Managed, m: nat)
    requires Climbed(p, p.Order(), m) && StopPaysLess(p)
    ensures Holding(p)
  {
  }

  lemma {:induction false} ReadsBook(p: Managed, e: Managed, m: nat, c: Candle)
    requires SameBook(p, e)
    ensures Climbed(p, p.Order(), m) ==> Climbed(e, e.Order(), m)
    ensures StopPaysLess(p) ==> StopPaysLess(e)
    ensures p.StopHit(c.high, c.low) <==> e.StopHit(c.high, c.low)
  {
    assert p.Order() == e.Order();
  }

  lemma {:induction false} SameLosses(p: Managed, q: Managed)
    requires StopPaysLess(p) && q.plan == p.plan && q.direction == p.direction && q.entry == p.entry && q.stop == p.stop
    ensures StopPaysLess(q)
  {
    forall i | 0 <= i < |q.plan.tps| ensures q.TargetGain(i) > q.GainAt(q.stop) && q.plan.tps[i].fraction > 0.0 {
      assert p.TargetGain(i) == q.TargetGain(i);
    }
  }

  lemma {:induction false} ClosedStays(l: Managed, prices: seq<real>, ts: int, n: nat)
    requires !l.open && n <= |prices|
    ensures After(l, prices, ts, n) == l
  {
    if n > 0 { ClosedStays(l, prices, ts, n - 1); }
  }

  lemma {:induction false} RunsTrail(p0: Managed, cs: seq<Candle>, n: nat) returns (m: nat)
    requires Climbed(p0, p0.Order(), 0) && StopPaysLess(p0) && p0.plan.policy.None? && p0.stop == p0.plan.stop
    requires n <= |cs| && forall i :: 0 <= i < |cs| ==> cs[i].WellFormed()
    ensures Trails(SimBars(p0, cs, n), LiveBars(p0, cs, n), m)
    ensures SimBars(p0, cs, n).plan == p0.plan && SimBars(p0, cs, n).direction == p0.direction
    ensures SimBars(p0, cs, n).entry == p0.entry
  {
    hide SimBar, Climbed, StopPaysLess, After, Managed.Order, Managed.StopHit, NoBetter;
    if n == 0 {
      m := 0;
    } else {
      m := RunsTrail(p0, cs, n - 1);
      var s, l, c := SimBars(p0, cs, n - 1), LiveBars(p0, cs, n - 1), cs[n - 1];
      OpenInBoth(s, l);
      if !s.open {
        ClosedStays(l, SyntheticTickPath(c), c.ts, 4);
      } else {
        SimBarFrame(s, c);
        if s.StopHit(c.high, c.low) {
          StopBarTrails(s, l, m, c);
        } else {
          m := WalkBarTrails(s, l, m, c);
        }
      }
    }
  }

  lemma {:induction false} OpenInBoth(s: Managed, l: Managed)
    ensures NoBetter(s, l) ==> !s.open && !l.open
  {
  }

  lemma {:induction false} SimBarFrame(p: Managed, c: Candle)
    ensures var q := SimBar(p, c); q.plan == p.plan && q.direction == p.direction && q.entry == p.entry
  {
    hide Walk, Managed.Evaluate;
    SameFrame(p.Excursed(c.high).Excursed(c.low), SyntheticTickPath(c), c.ts, 4);
  }

  lemma {:induction false} OpenedClimbed(direction: Direction, entry: real, plan: ExitPlan)
    requires plan.Valid() && plan.direction == direction
    ensures var p := Opened(direction, entry, plan);
            Climbed(p, p.Order(), 0) && StopPaysLess(p)
  {
    hide TargetOrder, FractionSum;
    var p := Opened(direction, entry, plan);
    OrderFacts(p);
    forall i | 0 <= i < |p.plan.tps| ensures p.TargetGain(i) > p.GainAt(p.stop) && p.plan.tps[i].fraction > 0.0 {
      assert plan.tps[i].Valid() && direction.Gain(plan.entry, plan.tps[i].price) > 0.0;
    }
  }

  /** R is profit per unit of planned risk. */
  lemma {:induction false} RIsProfit(p: Managed, legs: seq<Leg>, n: nat)
    requires n <= |legs| && p.plan.Risk() > 0.0
    ensures RealizedR(p, legs, n) * p.plan.Risk() == Profit(p, legs, n)
  {
    hide ExitPlan.Risk, Managed.GainAt;
    if n > 0 {
      RIsProfit(p, legs, n - 1);
      RTimes(p.GainAt(legs[n - 1].price), p.plan.Risk(), legs[n - 1].fraction);
      Distribute(RealizedR(p, legs, n - 1), p.GainAt(legs[n - 1].price) / p.plan.Risk() * legs[n - 1].fraction,
          p.plan.Risk());
    }
  }

  lemma {:induction false} RTimes(gain: real, risk: real, f: real)
    requires risk > 0.0
    ensures gain / risk * f * risk == gain * f
  {
    var r := gain / risk;
    assert r * risk == gain;
    assert r * f * risk == r * risk * f;
  }

  lemma {:induction false} Distribute(a: real, b: real, c: real)
    ensures (a + b) * c == a * c + b * c
  {
  }

  /** What dust is worth, in R, at a stop that wins: zero unless the entry lies beyond the stop. */
  function DustR(direction: Direction, entry: real, plan: ExitPlan): real
    requires plan.Risk() > 0.0
  {
    Max(0.0, direction.Gain(entry, plan.stop)) * DUST / plan.Risk()
  }

  /** The backtest never flatters: on every sequence of well-formed bars, from any entry price, the
      simulator's realised R is at most that of driving the same policy-free position tick by
      tick, up to what dust is worth at a stop the entry lies beyond. With the stop on the losing
      side it is at most that outright, and equal exactly when the two close the same legs. */
  lemma {:induction false} NeverFlatters(direction: Direction, entry: real, plan: ExitPlan, cs: seq<Candle>)
    requires plan.Valid() && plan.policy.None? && plan.direction == direction
    requires forall i :: 0 <= i < |cs| ==> cs[i].WellFormed()
    ensures plan.Risk() > 0.0
    ensures var p0 := Opened(direction, entry, plan);
            var s := Flattened(SimBars(p0, cs, |cs|), cs);
            var l := Flattened(LiveBars(p0, cs, |cs|), cs);
            && RealizedR(s, s.legs, |s.legs|) <= RealizedR(l, l.legs, |l.legs|) + DustR(direction, entry, plan)
            && (direction.Gain(entry, plan.stop) <= 0.0 ==>
                  && RealizedR(s, s.legs, |s.legs|) <= RealizedR(l, l.legs, |l.legs|)
                  && (RealizedR(s, s.legs, |s.legs|) == RealizedR(l, l.legs, |l.legs|) <==> s.legs == l.legs))
  {
    hide SimBars, LiveBars, RealizedR, Profit, ExitPlan.Risk, FractionSum, Flattened, Direction.Gain;
    var p0 := Opened(direction, entry, plan);
    PlanRisks(plan);
    ProfitsTrail(direction, entry, plan, cs);
    var s, l := Flattened(SimBars(p0, cs, |cs|), cs), Flattened(LiveBars(p0, cs, |cs|), cs);
    RIsProfit(s, s.legs, |s.legs|);
    RIsProfit(l, l.legs, |l.legs|);
    InR(RealizedR(s, s.legs, |s.legs|), RealizedR(l, l.legs, |l.legs|),
        Max(0.0, direction.Gain(entry, plan.stop)) * DUST, plan.Risk());
  }

  lemma {:induction false} ProfitsTrail(direction: Direction, entry: real, plan: ExitPlan, cs: seq<Candle>)
    requires plan.Valid() && plan.policy.None? && plan.direction == direction
    requires forall i :: 0 <= i < |cs| ==> cs[i].WellFormed()
    ensures var p0 := Opened(direction, entry, plan);
            var s := Flattened(SimBars(p0, cs, |cs|), cs);
            var l := Flattened(LiveBars(p0, cs, |cs|), cs);
            && s.plan == l.plan == plan
            && Profit(s, s.legs, |s.legs|) <=
                 Profit(l, l.legs, |l.legs|) + Max(0.0, direction.Gain(entry, plan.stop)) * DUST
            && (direction.Gain(entry, plan.stop) <= 0.0 ==>
                  && Profit(s, s.legs, |s.legs|) <= Profit(l, l.legs, |l.legs|)
                  && (Profit(s, s.legs, |s.legs|) == Profit(l, l.legs, |l.legs|) <==> s.legs == l.legs))
  {
    hide SimBars, LiveBars, Profit, Climbed, StopPaysLess, Managed.Order, FractionSum;
    var p0 := Opened(direction, entry, plan);
    OpenedClimbed(direction, entry, plan);
    var m := RunsTrail(p0, cs, |cs|);
    var s0, l0 := SimBars(p0, cs, |cs|), LiveBars(p0, cs, |cs|);
    var s, l := Flattened(s0, cs), Flattened(l0, cs);
    ProfitSame(s, l, l.legs, l.legs, |l.legs|);
    ProfitSame(s, s0, s.legs, s.legs, |s.legs|);
    ProfitSame(s, s0, l.legs, l.legs, |l.legs|);
    DustTimes(direction.Gain(entry, plan.stop), DUST);
  }

  /** From profits to multiples of the risk. */
  lemma {:induction false} InR(rs: real, rl: real, dust: real, risk: real)
    requires risk > 0.0 && dust >= 0.0
    ensures rs * risk <= rl * risk + dust ==> rs <= rl + dust / risk
    ensures rs * risk <= rl * risk <==> rs <= rl
    ensures rs * risk == rl * risk <==> rs == rl
  {
    ScaleUp(rs, rl, risk);
    ScaleUp(rl, rs, risk);
    var q := dust / risk;
    assert q * risk == dust;
    Distribute(rl, q, risk);
    ScaleUp(rs, rl + q, risk);
  }

  lemma {:induction false} PlanRisks(plan: ExitPlan)
    requires plan.Valid()
    ensures plan.Risk() > 0.0
  {
    hide FractionSum;
  }

  // ----- when the two agree -----

  /** No bar that stops the trade also reaches a target not yet taken. */
  ghost predicate Unambiguous(p0: Managed, cs: seq<Candle>) {
    forall n :: 0 <= n < |cs| ==>
      var p := SimBars(p0, cs, n);
      p.open && p.StopHit(cs[n].high, cs[n].low) ==>
        forall i :: 0 <= i < |p.plan.tps| && i !in p.taken ==> !p.TargetReached(i, cs[n].high, cs[n].low)
  }

  /** A path that reaches no further target leaves the position alone or stops it out. */
  lemma {:induction false} QuietWalk(p: Managed, m: nat, prices: seq<real>, ts: int, n: nat)
    requires Climbed(p, p.Order(), m) && p.open && n <= |prices|
    requires m < |p.Order()| ==> forall i :: 0 <= i < n ==> p.TargetGain(p.Order()[m]) > p.GainAt(prices[i])
    ensures Walk(p, prices, ts, n) in {p, p.Apply(StopOut(p), ts)}
    ensures Walk(p, prices, ts, n).open ==> Walk(p, prices, ts, n) == p
    ensures forall i :: 0 <= i < n && p.StopHit(prices[i], prices[i]) ==> !Walk(p, prices, ts, n).open
  {
    hide Managed.Evaluate, Managed.Order, Managed.GainAt;
    if n > 0 {
      QuietWalk(p, m, prices, ts, n - 1);
      var q := Walk(p, prices, ts, n - 1);
      if !q.open {
        WalkClosed(p, prices, ts, n - 1, n);
      } else if p.StopHit(prices[n - 1], prices[n - 1]) {
        ExitedAtStop(p, prices[n - 1], ts);
      } else {
        var m1 := ExitedKeeps(p, m, prices[n - 1], ts);
      }
    }
  }

  lemma {:induction false} QuietStopBar(p: Managed, m: nat, c: Candle)
    requires Climbed(p, p.Order(), m) && p.open && c.WellFormed() && p.StopHit(c.high, c.low)
    requires forall i :: 0 <= i < |p.plan.tps| && i !in p.taken ==> !p.TargetReached(i, c.high, c.low)
    ensures Walk(p, SyntheticTickPath(c), c.ts, 4) == p.Apply(StopOut(p), c.ts)
  {
    hide Walk, Managed.Order;
    var path := SyntheticTickPath(c);
    PathCoversBar(p, c);
    if m < |p.Order()| {
      assert !p.TargetReached(p.Order()[m], c.high, c.low);
      assert p.TargetGain(p.Order()[m]) > Reach(p, c.high, c.low);
    }
    assert forall i :: 0 <= i < 4 ==> p.GainAt(path[i]) <= Reach(p, c.high, c.low);
    QuietWalk(p, m, path, c.ts, 4);
  }

  lemma {:induction false} RunsAgree(p0: Managed, cs: seq<Candle>, n: nat) returns (m: nat)
    requires Climbed(p0, p0.Order(), 0) && StopPaysLess(p0) && p0.plan.policy.None? && p0.stop == p0.plan.stop
    requires n <= |cs| && (forall i :: 0 <= i < |cs| ==> cs[i].WellFormed()) && Unambiguous(p0, cs)
    ensures SameBook(SimBars(p0, cs, n), LiveBars(p0, cs, n)) && SimBars(p0, cs, n).plan == p0.plan
    ensures SimBars(p0, cs, n).open ==>
              Climbed(SimBars(p0, cs, n), SimBars(p0, cs, n).Order(), m) && StopPaysLess(SimBars(p0, cs, n))
  {
    hide SimBar, Climbed, StopPaysLess, After, Walk, Managed.Order, Managed.StopHit;
    m := 0;
    if n > 0 {
      m := RunsAgree(p0, cs, n - 1);
      var s, l, c := SimBars(p0, cs, n - 1), LiveBars(p0, cs, n - 1), cs[n - 1];
      var path := SyntheticTickPath(c);
      if !s.open {
        ClosedStays(l, path, c.ts, 4);
      } else {
        var e := s.Excursed(c.high).Excursed(c.low);
        OpenHoldsAll(s, m);
        SimBarCases(s, c);
        SimBarFrame(s, c);
        ReadsBook(s, e, m, c);
        SameWalk(e, l, path, c.ts, 4);
        TicksWalk(l, l, path, c.ts, 4);
        if s.StopHit(c.high, c.low) {
          QuietStopBar(e, m, c);
          StopOutCloses(e, m, c.ts);
        } else {
          m := WalkIsWholeBar(e, m, c);
          SameLosses(e, Walk(e, path, c.ts, 4));
        }
      }
    }
  }

  lemma {:induction false} StopOutCloses(p: Managed, m: nat, ts: int)
    requires Climbed(p, p.Order(), m) && p.open
    ensures !p.Apply(StopOut(p), ts).open
  {
  }

  /** On an unambiguous bar sequence the simulator closes the very legs of the tick-by-tick
      run, and realises the same R. */
  lemma {:induction false} UnambiguousAgrees(direction: Direction, entry: real, plan: ExitPlan, cs: seq<Candle>)
    requires plan.Valid() && plan.policy.None? && plan.direction == direction
    requires (forall i :: 0 <= i < |cs| ==> cs[i].WellFormed()) && Unambiguous(Opened(direction, entry, plan), cs)
    ensures var p0 := Opened(direction, entry, plan);
            var s := Flattened(SimBars(p0, cs, |cs|), cs);
            var l := Flattened(LiveBars(p0, cs, |cs|), cs);
            s.legs == l.legs && RealizedR(s, s.legs, |s.legs|) == RealizedR(l, l.legs, |l.legs|)
  {
    hide SimBars, LiveBars, RealizedR, Climbed, StopPaysLess, Unambiguous;
    OpenedClimbed(direction, entry, plan);
    var p0 := Opened(direction, entry, plan);
    var m := RunsAgree(p0, cs, |cs|);
    var s, l := Flattened(SimBars(p0, cs, |cs|), cs), Flattened(LiveBars(p0, cs, |cs|), cs);
    RSame(s, l, s.legs, |s.legs|);
  }

  lemma {:induction false} RSame(p: Managed, q: Managed, legs: seq<Leg>, n: nat)
    requires n <= |legs| && p.direction == q.direction && p.entry == q.entry && p.plan == q.plan
    ensures RealizedR(p, legs, n) == RealizedR(q, legs, n)
  {
    if n > 0 { RSame(p, q, legs, n - 1); }
  }
}
