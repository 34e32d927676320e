/** The managed stop has a closed form, and targets are climbed nearest first. */
module ExitLaws {
  import opened Prelude
  import opened ExitPlans
  import opened ExitEngine

  /** The position after the first `n` price updates. */
  function After(p: Managed, prices: seq<real>, ts: int, n: nat): Managed
    requires n <= |prices|
  {
    if n == 0 then p else After(p, prices, ts, n - 1).Ticked(prices[n - 1], ts)
  }

  // ----- the managed stop -----

  /** The tightest of the plan's stop, the breakeven level once its trigger was reached, and
      the best price minus the trail: a function of the best price alone. */
  function ClosedForm(p: Managed): real
    requires p.plan.policy.Some? && p.plan.Risk() > 0.0
  {
    var policy := p.plan.policy.value;
    var trail := policy.TrailOver(p.plan.Risk());
    var breakeven := if p.BreakevenDue(policy) then p.BreakevenLevel(policy) else p.plan.stop;
    var trailing := if trail.Some? && trail.value > 0.0 then p.direction.Beyond(p.best, -trail.value) else p.plan.stop;
    p.direction.Tighter(p.plan.stop, p.direction.Tighter(breakeven, trailing))
  }

  /** Once due, breakeven stays due at every better price. */
  lemma {:induction false} DueMonotone(p: Managed, q: Managed, policy: ExitPolicy)
    requires p.plan.Risk() > 0.0 && p.BreakevenDue(policy)
    requires q.plan == p.plan && q.GainAt(q.best) >= p.GainAt(p.best)
    ensures q.BreakevenDue(policy)
  {
    var risk := p.plan.Risk();
    var a, b := p.GainAt(p.best), q.GainAt(q.best);
    assert a / risk <= b / risk;
  }

  /** Exits leave the stop, the excursions and the plan alone. */
  lemma {:induction false} ApplyKeepsStop(p: Managed, ds: seq<Decision>, ts: int)
    ensures var q := p.ApplyAll(ds, ts);
            q == p.(legs := q.legs, taken := q.taken, remaining := q.remaining, open := q.open)
    decreases |ds|
  {
    if ds != [] { ApplyKeepsStop(p.Apply(ds[0], ts), ds[1..], ts); }
  }

  ghost predicate StopTracks(p: Managed)
    requires p.plan.policy.Some? && p.plan.Risk() > 0.0
  {
    && p.direction.Gain(p.plan.stop, p.stop) >= 0.0
    && 0.0 <= p.direction.Gain(p.stop, ClosedForm(p)) <= HAIR
  }

  lemma {:induction false} SameLevel(p: Managed, q: Managed, policy: ExitPolicy)
    requires q.plan == p.plan && q.direction == p.direction && q.entry == p.entry
    ensures p.BreakevenLevel(policy) == q.BreakevenLevel(policy)
  {
  }

  lemma {:induction false} StopUnread(p: Managed, q: Managed, policy: ExitPolicy)
    requires p.plan.Risk() > 0.0 && q.plan == p.plan && q.direction == p.direction
    requires q.entry == p.entry && q.best == p.best
    ensures p.BreakevenLevel(policy) == q.BreakevenLevel(policy)
    ensures p.BreakevenDue(policy) <==> q.BreakevenDue(policy)
  {
  }

  /** A better price only tightens the closed form. */
  lemma {:induction false} ClosedFormMonotone(p: Managed, q: Managed)
    requires p.plan.policy.Some? && p.plan.Risk() > 0.0
    requires q.plan == p.plan && q.direction == p.direction && q.entry == p.entry
    requires p.direction.Gain(p.best, q.best) >= 0.0
    ensures p.direction.Gain(ClosedForm(p), ClosedForm(q)) >= 0.0
    ensures p.direction.Gain(p.plan.stop, ClosedForm(p)) >= 0.0
  {
    hide Managed.BreakevenDue, Managed.BreakevenLevel, ExitPolicy.TrailOver, ExitPlan.Risk;
    var policy := p.plan.policy.value;
    if p.BreakevenDue(policy) { DueMonotone(p, q, policy); }
    SameLevel(p, q, policy);
  }

  /** Restopping from any stop no tighter than the closed form lands on it. */
  lemma {:induction false} RestopLands(p: Managed)
    requires p.plan.policy.Some? && p.plan.policy.value.Dynamic() && p.plan.Risk() > 0.0
    requires p.direction.Gain(p.plan.stop, p.stop) >= 0.0 && p.direction.Gain(p.stop, ClosedForm(p)) >= 0.0
    ensures StopTracks(p.Restopped())
    ensures p.Restopped() == p.(stop := p.Restopped().stop)
    ensures p.direction.Gain(p.stop, p.Restopped().stop) >= 0.0
  {
    hide Managed.BreakevenDue, Managed.BreakevenLevel, ExitPolicy.TrailOver, ExitPlan.Risk, ExitPolicy.Dynamic;
    var policy := p.plan.policy.value;
    var level := p.Trailed(policy, p.Pulled(policy, p.stop));
    StopUnread(p, p.(stop := level), policy);
    assert level == ClosedForm(p);
    assert ClosedForm(p.(stop := level)) == level;
  }

  /** One tick keeps the stop on its closed form and never loosens it. */
  lemma {:induction false} TickKeepsStop(p: Managed, price: real, ts: int)
    requires p.plan.policy.Some? && p.plan.policy.value.Dynamic() && p.plan.Risk() > 0.0
    requires p.direction.Gain(p.plan.stop, p.stop) >= 0.0 && p.direction.Gain(p.stop, ClosedForm(p)) >= 0.0
    ensures var q := p.Ticked(price, ts);
            && q.plan == p.plan && q.direction == p.direction && q.entry == p.entry
            && (p.open ==> StopTracks(q))
            && p.direction.Gain(p.stop, q.stop) >= 0.0
  {
    hide Managed.Restopped, ClosedForm, Managed.Evaluate, StopTracks;
    if p.open {
      var e := p.Excursed(price);
      ClosedFormMonotone(p, e);
      RestopLands(e);
      var r := e.Restopped();
      ApplyKeepsStop(r, r.Evaluate(price, price), ts);
      SameStop(r, p.Ticked(price, ts));
    }
  }

  lemma {:induction false} SameStop(p: Managed, q: Managed)
    requires p.plan.policy.Some? && p.plan.Risk() > 0.0 && StopTracks(p)
    requires q == p.(legs := q.legs, taken := q.taken, remaining := q.remaining, open := q.open)
    ensures StopTracks(q)
  {
    hide Managed.BreakevenDue, Managed.BreakevenLevel, ExitPolicy.TrailOver, ExitPlan.Risk;
    StopUnread(p, q, p.plan.policy.value);
  }

  /** Over any run of price updates the incrementally ratcheted stop stays within one hair of
      the closed form. */
  lemma {:induction false} StopHasClosedForm(direction: Direction, entry: real, plan: ExitPlan, prices: seq<real>,
        ts: int, n: nat)
    requires plan.policy.Some? && plan.policy.value.Dynamic() && plan.Risk() > 0.0
    requires 0 < n <= |prices|
    ensures var p := After(Opened(direction, entry, plan), prices, ts, n);
            && p.plan == plan && p.direction == direction && p.entry == entry
            && StopTracks(p)
  {
    var p0 := Opened(direction, entry, plan);
    var before := After(p0, prices, ts, n - 1);
    if n > 1 {
      StopHasClosedForm(direction, entry, plan, prices, ts, n - 1);
    } else {
      ClosedFormMonotone(p0, p0);
    }
    TickKeepsStop(before, prices[n - 1], ts);
  }

  /** The furthest of the entry and the first `n` prices in the trade's favour. */
  function Furthest(direction: Direction, entry: real, prices: seq<real>, n: nat): real
    requires n <= |prices|
  {
    if n == 0 then entry else direction.Tighter(Furthest(direction, entry, prices, n - 1), prices[n - 1])
  }

  lemma {:induction false} BestIsFurthest(p: Managed, prices: seq<real>, ts: int, n: nat)
    requires p.best == p.entry && 0 < n <= |prices| && After(p, prices, ts, n - 1).open
    ensures After(p, prices, ts, n).best == Furthest(p.direction, p.entry, prices, n)
  {
    hide Managed.Restopped, Managed.Evaluate;
    if n > 1 { BestIsFurthest(p, prices, ts, n - 1); }
    KeepsPlan(p, prices, ts, n - 1);
    var q := After(p, prices, ts, n - 1);
    var e := q.Excursed(prices[n - 1]);
    var r := e.Restopped();
    RestopKeepsBest(e);
    ApplyKeepsStop(r, r.Evaluate(prices[n - 1], prices[n - 1]), ts);
  }

  lemma {:induction false} RestopKeepsBest(p: Managed)
    ensures p.Restopped() == p.(stop := p.Restopped().stop)
  {
    hide Managed.Trailed, Managed.Pulled;
  }

  /** The stop never loosens from one update to the next. */
  lemma {:induction false} StopIsMonotone(direction: Direction, entry: real, plan: ExitPlan, prices: seq<real>,
        ts: int, n: nat)
    requires n < |prices| && plan.Risk() > 0.0
    ensures direction.Gain(After(Opened(direction, entry, plan), prices, ts, n).stop,
                           After(Opened(direction, entry, plan), prices, ts, n + 1).stop) >= 0.0
  {
    var p0 := Opened(direction, entry, plan);
    var p := After(p0, prices, ts, n);
    KeepsPlan(p0, prices, ts, n);
    if plan.policy.Some? && plan.policy.value.Dynamic() {
      if n > 0 {
        StopHasClosedForm(direction, entry, plan, prices, ts, n);
      } else {
        ClosedFormMonotone(p0, p0);
      }
      TickKeepsStop(p, prices[n], ts);
    } else if p.open {
      ApplyKeepsStop(p.Excursed(prices[n]), p.Excursed(prices[n]).Evaluate(prices[n], prices[n]), ts);
    }
  }

  lemma {:induction false} KeepsPlan(p: Managed, prices: seq<real>, ts: int, n: nat)
    requires n <= |prices|
    ensures var q := After(p, prices, ts, n); q.plan == p.plan && q.direction == p.direction && q.entry == p.entry
  {
    if n > 0 {
      KeepsPlan(p, prices, ts, n - 1);
      var q := After(p, prices, ts, n - 1);
      if q.open {
        var r := q.Excursed(prices[n - 1]).Restopped();
        ApplyKeepsStop(r, r.Evaluate(prices[n - 1], prices[n - 1]), ts);
      }
    }
  }

  /** The trigger in price units, and the first price that reaches it. */
  lemma {:induction false} DueMeansGain(p: Managed, policy: ExitPolicy)
    requires p.plan.Risk() > 0.0 && policy.breakevenAtR.Some? && p.BreakevenDue(policy)
    ensures p.GainAt(p.best) >= (policy.breakevenAtR.value - HAIR) * p.plan.Risk()
  {
    hide ExitPlan.Risk, Managed.GainAt;
    var gain, at, risk := p.GainAt(p.best), policy.breakevenAtR.value - HAIR, p.plan.Risk();
    var ratio := gain / risk;
    assert gain == ratio * risk;
    ScaleUp(at, ratio, risk);
  }

  lemma {:induction false} FirstDue(p: Managed, policy: ExitPolicy)
    requires p.plan.Risk() > 0.0 && policy.breakevenAtR.Some?
    requires p.GainAt(p.best) == (policy.breakevenAtR.value - HAIR) * p.plan.Risk()
    ensures p.BreakevenDue(policy)
  {
    hide ExitPlan.Risk, Managed.GainAt;
    var at, risk := policy.breakevenAtR.value - HAIR, p.plan.Risk();
    assert at * risk / risk == at;
  }

  /** A breakeven stop stays behind every price that can trigger it exactly when its offset
      does not exceed the trigger. */
  lemma {:induction false} BreakevenBehindPrice(p: Managed, policy: ExitPolicy)
    requires p.plan.Risk() > 0.0 && policy.breakevenAtR.Some?
    ensures (forall best: real :: p.(best := best).BreakevenDue(policy) ==>
                p.direction.Gain(p.BreakevenLevel(policy), best) >= 0.0)
            <==> policy.breakevenOffsetR <= policy.breakevenAtR.value - HAIR
  {
    hide Managed.BreakevenDue, ExitPlan.Risk, Managed.BreakevenLevel, Direction.Gain;
    var at := policy.breakevenAtR.value - HAIR;
    if policy.breakevenOffsetR <= at {
      ScaleUp(policy.breakevenOffsetR, at, p.plan.Risk());
      forall best: real | p.(best := best).BreakevenDue(policy)
        ensures p.direction.Gain(p.BreakevenLevel(policy), best) >= 0.0
      {
        DueMeansGain(p.(best := best), policy);
        FromLevel(p, policy, best);
      }
    } else {
      var first := BeyondTrigger(p, policy);
      assert p.(best := first).BreakevenDue(policy) && p.direction.Gain(p.BreakevenLevel(policy), first) < 0.0;
    }
  }

  /** The price that just reaches the trigger, when the offset lies beyond it. */
  lemma {:induction false} BeyondTrigger(p: Managed, policy: ExitPolicy) returns (first: real)
    requires p.plan.Risk() > 0.0 && policy.breakevenAtR.Some?
    requires policy.breakevenOffsetR > policy.breakevenAtR.value - HAIR
    ensures p.(best := first).BreakevenDue(policy) && p.direction.Gain(p.BreakevenLevel(policy), first) < 0.0
  {
    hide Managed.BreakevenDue, ExitPlan.Risk, Managed.BreakevenLevel, Direction.Gain, Direction.Beyond;
    var risk := p.plan.Risk();
    var at := policy.breakevenAtR.value - HAIR;
    first := p.direction.Beyond(p.entry, at * risk);
    AtDistance(p, at * risk);
    FromLevel(p, policy, first);
    FirstDue(p.(best := first), policy);
    ScaleUp(policy.breakevenOffsetR, at, risk);
  }

  lemma {:induction false} AtDistance(p: Managed, d: real)
    ensures p.GainAt(p.direction.Beyond(p.entry, d)) == d
  {
  }

  lemma {:induction false} FromLevel(p: Managed, policy: ExitPolicy, best: real)
    ensures p.direction.Gain(p.BreakevenLevel(policy), best) ==
              p.(best := best).GainAt(best) - policy.breakevenOffsetR * p.plan.Risk()
    ensures p.(best := best).GainAt(best) == p.GainAt(best)
  {
    hide ExitPlan.Risk;
  }

  // ----- climbing the targets -----

  lemma {:induction false} IndicesAll(n: nat)
    ensures forall k: nat :: k in Indices(n) <==> k < n
  {
    if n > 0 { IndicesAll(n - 1); }
  }

  lemma {:induction false} OrderedPair(order: seq<nat>, key: nat -> real, i: nat, j: nat)
    requires Ordered(order, key, Listed()) && i < j < |order|
    ensures order[i] != order[j] && key(order[i]) <= key(order[j])
  {
    assert Before(order[i], order[j], key, Listed());
  }

  /** The nearest-first order lists every target once, by increasing gain. */
  lemma {:induction false} OrderFacts(p: Managed)
    ensures forall k: nat :: k in p.Order() <==> k < |p.plan.tps|
    ensures forall i, j :: 0 <= i < j < |p.Order()| ==>
              p.Order()[i] != p.Order()[j] && p.TargetGain(p.Order()[i]) <= p.TargetGain(p.Order()[j])
  {
    hide Ordered, StableSort, GainOfTarget;
    StableSortOrders(Indices(|p.plan.tps|), Nearness(p.direction, p.entry, p.plan.tps), Listed());
    var order := p.Order();
    IndicesAll(|p.plan.tps|);
    forall k: nat ensures k in order <==> k < |p.plan.tps| {
      assert k in order <==> k in multiset(order);
      assert k in Indices(|p.plan.tps|) <==> k in multiset(Indices(|p.plan.tps|));
    }
    forall i, j | 0 <= i < j < |order|
      ensures order[i] != order[j] && p.TargetGain(order[i]) <= p.TargetGain(order[j])
    {
      OrderedPair(order, Nearness(p.direction, p.entry, p.plan.tps), i, j);
    }
  }

  /** A duplicate-free list of targets, nearest first. */
  ghost predicate Ladder(p: Managed, order: seq<nat>) {
    && (forall i :: 0 <= i < |order| ==> order[i] < |p.plan.tps| && p.plan.tps[order[i]].fraction > 0.0)
    && (forall i, j :: 0 <= i < j < |order| ==>
          order[i] != order[j] && p.TargetGain(order[i]) <= p.TargetGain(order[j]))
  }

  /** Exactly the `m` nearest targets are taken; an open position still holds something, a closed
      one at most dust. */
  ghost predicate Climbed(p: Managed, order: seq<nat>, m: nat) {
    && Ladder(p, order) && m <= |order|
    && (forall i :: 0 <= i < |order| ==> (order[i] in p.taken <==> i < m))
    && (if p.open then p.remaining > DUST else 0.0 <= p.remaining <= DUST)
  }

  function Reach(p: Managed, high: real, low: real): real {
    p.GainAt(if p.direction.Long? then high else low)
  }

  /** Close at the `m`-th nearest target. */
  function Rung(p: Managed, k: nat): Decision
    requires k < |p.plan.tps|
  {
    var fraction := Min(p.plan.tps[k].fraction, p.remaining);
    Decision(TargetHit, p.plan.tps[k].price, fraction, k, p.remaining - fraction <= DUST)
  }

  /** Take target after target, nearest first, as far as the price reaches. */
  function Climb(p: Managed, order: seq<nat>, m: nat, reach: real, ts: int): (Managed, nat)
    requires m <= |order| && forall i :: 0 <= i < |order| ==> order[i] < |p.plan.tps|
    decreases |order| - m
  {
    if !p.open || m == |order| || p.TargetGain(order[m]) > reach then (p, m)
    else Climb(p.Apply(Rung(p, order[m]), ts), order, m + 1, reach, ts)
  }

  lemma {:induction false} RungKeeps(p: Managed, order: seq<nat>, m: nat, ts: int)
    requires Climbed(p, order, m) && p.open && m < |order|
    ensures var q := p.Apply(Rung(p, order[m]), ts);
            && Climbed(q, order, m + 1) && (q.open <==> !Rung(p, order[m]).fully)
            && q.plan == p.plan && q.direction == p.direction && q.entry == p.entry
            && q.remaining == p.remaining - Rung(p, order[m]).fraction
  {
  }

  lemma {:induction false} ClimbKeeps(p: Managed, order: seq<nat>, m: nat, reach: real, ts: int)
    requires Climbed(p, order, m)
    ensures var (q, m1) := Climb(p, order, m, reach, ts);
            m <= m1 && Climbed(q, order, m1) && q.plan == p.plan && q.direction == p.direction && q.entry == p.entry
            && q.stop == p.stop && q.bars == p.bars && q.best == p.best && q.worst == p.worst
    decreases |order| - m
  {
    if p.open && m < |order| && p.TargetGain(order[m]) <= reach {
      RungKeeps(p, order, m, ts);
      ClimbKeeps(p.Apply(Rung(p, order[m]), ts), order, m + 1, reach, ts);
    }
  }

  /** Climbing in two goes is climbing once, to the further of the two reaches. */
  lemma {:induction false} ClimbTwice(p: Managed, order: seq<nat>, m: nat, r1: real, r2: real, ts: int)
    requires Climbed(p, order, m)
    ensures var (q, m1) := Climb(p, order, m, r1, ts);
            m1 <= |order| && q.plan == p.plan && Climb(q, order, m1, r2, ts) == Climb(p, order, m, Max(r1, r2), ts)
    decreases |order| - m
  {
    ClimbKeeps(p, order, m, r1, ts);
    if p.open && m < |order| && p.TargetGain(order[m]) <= r1 {
      RungKeeps(p, order, m, ts);
      ClimbTwice(p.Apply(Rung(p, order[m]), ts), order, m + 1, r1, r2, ts);
    }
  }

  /** Targets already taken are skipped. */
  lemma {:induction false} ScanSkips(p: Managed, order: seq<nat>, i: nat, m: nat, running: real, high: real, low: real)
    requires Climbed(p, order, m) && i <= m
    ensures p.Scan(order, i, running, high, low) == p.Scan(order, m, running, high, low)
    decreases m - i
  {
    if i < m {
      p.ScanStep(order, i, running, high, low);
      ScanSkips(p, order, i + 1, m, running, high, low);
    }
  }

  lemma {:induction false} ScanOutOfReach(p: Managed, order: seq<nat>, i: nat, running: real, high: real, low: real)
    requires Ladder(p, order) && i < |order| && p.TargetGain(order[i]) > Reach(p, high, low)
    ensures p.Scan(order, i, running, high, low) == []
    decreases |order| - i
  {
    p.ScanStep(order, i, running, high, low);
    if i + 1 < |order| {
      ScanOutOfReach(p, order, i + 1, running, high, low);
    } else {
      p.ScanEnd(order, running, high, low);
    }
  }

  /** Applying the scan's decisions one by one is climbing. `q` is `p` after its first exits. */
  lemma {:induction false} ScanClimbs(p: Managed, q: Managed, order: seq<nat>, i: nat, high: real, low: real, ts: int)
    requires Climbed(q, order, i) && q.open && Ladder(p, order)
    requires q.plan == p.plan && q.direction == p.direction && q.entry == p.entry
    requires forall j :: i <= j < |order| ==> order[j] !in p.taken
    ensures q.ApplyAll(p.Scan(order, i, q.remaining, high, low), ts) == Climb(q, order, i, Reach(p, high, low), ts).0
    decreases |order| - i
  {
    hide Managed.Scan, Managed.Apply, Managed.ApplyAll;
    ApplyNone(q, ts);
    if i == |order| {
      p.ScanEnd(order, q.remaining, high, low);
    } else if p.TargetGain(order[i]) > Reach(p, high, low) {
      ScanOutOfReach(p, order, i, q.remaining, high, low);
    } else {
      p.ScanStep(order, i, q.remaining, high, low);
      var d := Rung(q, order[i]);
      var q1 := q.Apply(d, ts);
      RungKeeps(q, order, i, ts);
      if d.fully {
        q.ApplyOne(d, ts);
      } else {
        ScanClimbs(p, q1, order, i + 1, high, low, ts);
        ApplyFirst(q, d, p.Scan(order, i + 1, q1.remaining, high, low), ts);
      }
    }
  }

  lemma {:induction false} ApplyNone(q: Managed, ts: int)
    ensures q.ApplyAll([], ts) == q
  {
  }

  lemma {:induction false} ApplyFirst(q: Managed, d: Decision, rest: seq<Decision>, ts: int)
    ensures q.ApplyAll([d] + rest, ts) == q.Apply(d, ts).ApplyAll(rest, ts)
  {
    assert ([d] + rest)[1..] == rest;
  }

  /** When a range does not touch the stop, its exits climb the targets up to its reach. */
  lemma {:induction false} ExitedClimbs(p: Managed, m: nat, high: real, low: real, ts: int)
    requires Climbed(p, p.Order(), m) && !p.StopHit(high, low)
    ensures p.Exited(high, low, ts) == Climb(p, p.Order(), m, Reach(p, high, low), ts).0
  {
    if p.open {
      ScanSkips(p, p.Order(), 0, m, p.remaining, high, low);
      ScanClimbs(p, p, p.Order(), m, high, low, ts);
    }
  }
}
