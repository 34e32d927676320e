/** Exit plans (app/cfd_strategy/base.py) and the shared exit engine every executor runs
    (app/cfd_execution/base.py). Prices are reals; the direction decides which way is profit. */
module ExitPlans {
  import opened Prelude

  /** Slack of the fraction arithmetic: what is left of a closed position. */
  const DUST: real := 0.000000001
  /** Slack of the stop arithmetic. */
  const HAIR: real := 0.000000000001

  datatype Direction = Long | Short {
    /** Profit per unit of moving from one price to another. */
    function Gain(from: real, to: real): real {
      if Long? then to - from else from - to
    }

    /** The price `distance` away from `from` in the trade's favour. */
    function Beyond(from: real, distance: real): real {
      if Long? then from + distance else from - distance
    }

    function Tighter(a: real, b: real): real {
      if Long? then Max(a, b) else Min(a, b)
    }
  }

  datatype TakeProfit = TakeProfit(price: real, fraction: real) {
    predicate Valid() {
      0.0 < fraction <= 1.0 && price > 0.0
    }
  }

  datatype ExitPolicy = ExitPolicy(
    breakevenAtR: Option<real>, breakevenOffsetR: real, trailR: Option<real>, trailDistance: Option<real>,
    timeStopBars: Option<int>)
  {
    predicate Valid() {
      && (breakevenAtR.Some? ==> breakevenAtR.value > 0.0)
      && (trailR.Some? ==> trailR.value > 0.0)
      && (trailDistance.Some? ==> trailDistance.value > 0.0)
      && (timeStopBars.Some? ==> timeStopBars.value >= 1)
    }

    predicate Dynamic() {
      breakevenAtR.Some? || trailR.Some? || trailDistance.Some? || timeStopBars.Some?
    }

    /** An absolute distance takes precedence over one in multiples of the risk. */
    function TrailOver(risk: real): Option<real> {
      if trailDistance.Some? then trailDistance
      else if trailR.Some? then Some(trailR.value * risk)
      else None
    }
  }

  function FractionSum(tps: seq<TakeProfit>, n: nat): real
    requires n <= |tps|
  {
    if n == 0 then 0.0 else FractionSum(tps, n - 1) + tps[n - 1].fraction
  }

  datatype ExitPlan = ExitPlan(
    direction: Direction, entry: real, stop: real, tps: seq<TakeProfit>, minRr: real, policy: Option<ExitPolicy>)
  {
    function Risk(): real { Abs(entry - stop) }

    /** Some target pays at least the required multiple of the risk. */
    ghost predicate RewardsEnough() {
      exists i :: 0 <= i < |tps| && Abs(tps[i].price - entry) + 0.000001 * Risk() >= minRr * Risk()
    }

    ghost predicate Valid() {
      && entry > 0.0 && stop > 0.0 && tps != []
      && direction.Gain(entry, stop) < 0.0
      && (forall i :: 0 <= i < |tps| ==> tps[i].Valid() && direction.Gain(entry, tps[i].price) > 0.0)
      && FractionSum(tps, |tps|) <= 1.0 + DUST
      && RewardsEnough()
      && (policy.Some? ==> policy.value.Valid())
    }
  }
}

module ExitEngine {
  import opened Prelude
  import opened ExitPlans

  datatype ExitReason = StopLoss | TargetHit | TrailingStop | TimeUp | EodFlatten | Manual

  datatype Leg = Leg(price: real, fraction: real, reason: ExitReason, ts: int)

  datatype Decision = Decision(reason: ExitReason, price: real, fraction: real, tpIndex: int, fully: bool)

  /** The indices of the targets of a plan, in the order they are listed. */
  function Indices(n: nat): (r: seq<nat>)
    ensures |r| == n && forall i :: 0 <= i < n ==> r[i] == i
  {
    if n == 0 then [] else Indices(n - 1) + [n - 1]
  }

  function Listed(): nat -> int {
    (i: nat) => i
  }

  function GainOfTarget(direction: Direction, entry: real, tps: seq<TakeProfit>, i: nat): real {
    if i < |tps| then direction.Gain(entry, tps[i].price) else 0.0
  }

  function Nearness(direction: Direction, entry: real, tps: seq<TakeProfit>): nat -> real {
    (i: nat) => GainOfTarget(direction, entry, tps, i)
  }

  /** The targets, nearest first; equally near ones as listed. */
  function TargetOrder(direction: Direction, entry: real, tps: seq<TakeProfit>): (order: seq<nat>)
    ensures forall j :: 0 <= j < |order| ==> order[j] < |tps|
  {
    StableSortOrders(Indices(|tps|), Nearness(direction, entry, tps), Listed());
    var order := StableSort(Indices(|tps|), Nearness(direction, entry, tps));
    assert forall j :: 0 <= j < |order| ==> order[j] in multiset(order);
    order
  }

  /** Runtime state of an open trade. */
  datatype Managed = Managed(
    direction: Direction, entry: real, plan: ExitPlan, remaining: real, legs: seq<Leg>, taken: set<nat>,
    best: real, worst: real, stop: real, bars: nat, open: bool)
  {
    function GainAt(price: real): real { direction.Gain(entry, price) }

    // ----- excursion and managed stop -----

    function Excursed(price: real): Managed {
      if direction.Long? then this.(best := Max(best, price), worst := Min(worst, price))
      else this.(best := Min(best, price), worst := Max(worst, price))
    }

    /** Price has run far enough for the stop to move to breakeven. */
    predicate BreakevenDue(policy: ExitPolicy)
      requires plan.Risk() > 0.0
    {
      policy.breakevenAtR.Some? && GainAt(best) / plan.Risk() >= policy.breakevenAtR.value - HAIR
    }

    function BreakevenLevel(policy: ExitPolicy): real {
      direction.Beyond(entry, policy.breakevenOffsetR * plan.Risk())
    }

    function Pulled(policy: ExitPolicy, level: real): real
      requires plan.Risk() > 0.0
    {
      if BreakevenDue(policy) then direction.Tighter(level, BreakevenLevel(policy)) else level
    }

    function Trailed(policy: ExitPolicy, level: real): real {
      var trail := policy.TrailOver(plan.Risk());
      if trail.Some? && trail.value > 0.0 then direction.Tighter(level, direction.Beyond(best, -trail.value)) else level
    }

    /** Breakeven, then trailing; the stop moves only in the trade's favour. */
    function Restopped(): Managed {
      if plan.policy.None? || !plan.policy.value.Dynamic() || plan.Risk() <= 0.0 then this
      else
        var policy := plan.policy.value;
        var level := Trailed(policy, Pulled(policy, stop));
        if direction.Gain(stop, level) > HAIR then this.(stop := level) else this
    }

    predicate TimeStopDue() {
      && plan.policy.Some? && plan.policy.value.timeStopBars.Some?
      && bars as int >= plan.policy.value.timeStopBars.value
    }

    // ----- exits -----

    function TargetGain(i: nat): real {
      GainOfTarget(direction, entry, plan.tps, i)
    }

    function Order(): (order: seq<nat>)
      ensures forall j :: 0 <= j < |order| ==> order[j] < |plan.tps|
    {
      TargetOrder(direction, entry, plan.tps)
    }

    predicate StopHit(high: real, low: real) {
      if direction.Long? then low <= stop else high >= stop
    }

    predicate TargetReached(i: nat, high: real, low: real)
      requires i < |plan.tps|
    {
      if direction.Long? then high >= plan.tps[i].price else low <= plan.tps[i].price
    }

    /** Walk the targets from the `i`-th nearest on, closing at each untaken one in range. */
    function Scan(order: seq<nat>, i: nat, running: real, high: real, low: real): seq<Decision>
      requires i <= |order| && forall j :: 0 <= j < |order| ==> order[j] < |plan.tps|
      decreases |order| - i
    {
      if i == |order| then []
      else
        var k := order[i];
        var fraction := Min(plan.tps[k].fraction, running);
        if k in taken || !TargetReached(k, high, low) || fraction <= 0.0 then Scan(order, i + 1, running, high, low)
        else
          var fully := running - fraction <= DUST;
          [Decision(TargetHit, plan.tps[k].price, fraction, k, fully)] +
          (if fully then [] else Scan(order, i + 1, running - fraction, high, low))
    }

    lemma {:induction false} ScanStep(order: seq<nat>, i: nat, running: real, high: real, low: real)
      requires i < |order| && forall j :: 0 <= j < |order| ==> order[j] < |plan.tps|
      ensures var k := order[i];
              var fraction := Min(plan.tps[k].fraction, running);
              var rest := Scan(order, i, running, high, low);
              if k !in taken && TargetReached(k, high, low) && fraction > 0.0 then
                var d := Decision(TargetHit, plan.tps[k].price, fraction, k, running - fraction <= DUST);
                rest == if d.fully then [d] else [d] + Scan(order, i + 1, running - fraction, high, low)
              else rest == Scan(order, i + 1, running, high, low)
    {
    }

    lemma {:induction false} ScanEnd(order: seq<nat>, running: real, high: real, low: real)
      requires forall j :: 0 <= j < |order| ==> order[j] < |plan.tps|
      ensures Scan(order, |order|, running, high, low) == []
    {
    }

    /** What a price range triggers: the stop before any target. */
    function Evaluate(high: real, low: real): seq<Decision> {
      if !open then []
      else if StopHit(high, low) then [Decision(StopLoss, stop, remaining, -1, true)]
      else Scan(Order(), 0, remaining, high, low)
    }

    function Apply(d: Decision, ts: int): Managed {
      if d.fraction <= 0.0 then this
      else
        this.(legs := legs + [Leg(d.price, d.fraction, d.reason, ts)],
              taken := if d.tpIndex >= 0 then taken + {d.tpIndex} else taken,
              remaining := remaining - d.fraction,
              open := open && remaining - d.fraction > DUST && d.reason != StopLoss)
    }

    function ApplyAll(ds: seq<Decision>, ts: int): Managed
      decreases |ds|
    {
      if ds == [] then this else Apply(ds[0], ts).ApplyAll(ds[1..], ts)
    }

    lemma {:induction false} ApplyOne(d: Decision, ts: int)
      ensures ApplyAll([d], ts) == Apply(d, ts)
    {
      assert [d][1..] == [];
      assert Apply(d, ts).ApplyAll([], ts) == Apply(d, ts);
    }

    /** Take whatever a range triggers. */
    function Exited(high: real, low: real, ts: int): Managed {
      ApplyAll(Evaluate(high, low), ts)
    }

    /** One price update: excursion, managed stop, exits. */
    function Ticked(price: real, ts: int): Managed {
      if !open then this else Excursed(price).Restopped().Exited(price, price, ts)
    }
  }

  function Opened(direction: Direction, entry: real, plan: ExitPlan): Managed {
    Managed(direction, entry, plan, 1.0, [], {}, entry, entry, plan.stop, 0, true)
  }

  /** Fraction-weighted profit per unit of the first `n` legs. */
  function Profit(p: Managed, legs: seq<Leg>, n: nat): real
    requires n <= |legs|
  {
    if n == 0 then 0.0 else Profit(p, legs, n - 1) + p.GainAt(legs[n - 1].price) * legs[n - 1].fraction
  }

  /** Sum of the closed fractions. */
  function ClosedFraction(legs: seq<Leg>, n: nat): real
    requires n <= |legs|
  {
    if n == 0 then 0.0 else ClosedFraction(legs, n - 1) + legs[n - 1].fraction
  }

  /** The mutable position; every method is the value-level step of the same name. */
  class ManagedPosition {
    const direction: Direction
    const entry: real
    const plan: ExitPlan
    var remaining: real
    var legs: seq<Leg>
    var taken: set<nat>
    var best: real
    var worst: real
    var stop: real
    var bars: nat
    var open: bool

    constructor (direction: Direction, entry: real, plan: ExitPlan)
      ensures View() == Opened(direction, entry, plan)
    {
      this.direction, this.entry, this.plan := direction, entry, plan;
      remaining, legs, taken := 1.0, [], {};
      best, worst, stop, bars, open := entry, entry, plan.stop, 0, true;
    }

    function View(): Managed
      reads this
    {
      Managed(direction, entry, plan, remaining, legs, taken, best, worst, stop, bars, open)
    }

    method UpdateExcursion(price: real)
      modifies this`best, this`worst
      ensures View() == old(View()).Excursed(price)
    {
      if direction.Long? {
        best, worst := Max(best, price), Min(worst, price);
      } else {
        best, worst := Min(best, price), Max(worst, price);
      }
    }

    method ApplyDynamicStop() returns (moved: bool)
      modifies this`stop
      ensures View() == old(View()).Restopped()
      ensures moved <==> stop != old(stop)
    {
      if plan.policy.None? || !plan.policy.value.Dynamic() {
        return false;
      }
      var policy := plan.policy.value;
      var risk := plan.Risk();
      if risk <= 0.0 {
        return false;
      }
      var level := stop;
      if policy.breakevenAtR.Some? {
        var favourableR := View().GainAt(best) / risk;
        if favourableR >= policy.breakevenAtR.value - HAIR {
          level := direction.Tighter(level, direction.Beyond(entry, policy.breakevenOffsetR * risk));
        }
      }
      assert level == View().Pulled(policy, stop);
      var trail := policy.TrailOver(risk);
      if trail.Some? && trail.value > 0.0 {
        level := direction.Tighter(level, direction.Beyond(best, -trail.value));
      }
      if direction.Gain(stop, level) > HAIR {
        stop := level;
        return true;
      }
      return false;
    }

    /** The exit of one target, if it is untaken and in range. */
    method TryTarget(k: nat, running: real, high: real, low: real) returns (hit: bool, d: Decision)
      requires k < |plan.tps|
      ensures hit <==> k !in taken && View().TargetReached(k, high, low) && Min(plan.tps[k].fraction, running) > 0.0
      ensures hit ==>
                var fraction := Min(plan.tps[k].fraction, running);
                d == Decision(TargetHit, plan.tps[k].price, fraction, k, running - fraction <= DUST)
    {
      hit, d := false, Decision(TargetHit, 0.0, 0.0, -1, false);
      if k in taken {
        return;
      }
      var tp := plan.tps[k];
      var reached := if direction.Long? then high >= tp.price else low <= tp.price;
      if !reached {
        return;
      }
      var fraction := Min(tp.fraction, running);
      if fraction <= 0.0 {
        return;
      }
      return true, Decision(TargetHit, tp.price, fraction, k, running - fraction <= DUST);
    }

    method EvaluateExit(high: real, low: real) returns (decisions: seq<Decision>)
      ensures decisions == View().Evaluate(high, low)
    {
      hide Managed.Order, Managed.TargetReached, Managed.Scan, Min;
      if !open {
        return [];
      }
      if (if direction.Long? then low <= stop else high >= stop) {
        return [Decision(StopLoss, stop, remaining, -1, true)];
      }
      ghost var v := View();
      var order := View().Order();
      var running := remaining;
      decisions := [];
      for i := 0 to |order|
        invariant decisions + v.Scan(order, i, running, high, low) == v.Scan(order, 0, remaining, high, low)
      {
        v.ScanStep(order, i, running, high, low);
        var hit, d := TryTarget(order[i], running, high, low);
        if hit {
          decisions := decisions + [d];
          if d.fully {
            return;
          }
          running := running - d.fraction;
        }
      }
      v.ScanEnd(order, running, high, low);
    }

    method ApplyExit(d: Decision, ts: int)
      modifies this`legs, this`taken, this`remaining, this`open
      ensures View() == old(View()).Apply(d, ts)
    {
      if d.fraction <= 0.0 {
        return;
      }
      legs := legs + [Leg(d.price, d.fraction, d.reason, ts)];
      if d.tpIndex >= 0 {
        taken := taken + {d.tpIndex};
      }
      remaining := remaining - d.fraction;
      if remaining <= DUST || d.reason == StopLoss {
        open := false;
      }
    }
  }
}
