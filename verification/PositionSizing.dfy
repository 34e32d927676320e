/** Lot sizing of app/cfd_risk/position_sizing.py, in exact arithmetic. */
module PositionSizing {
  import opened Prelude
  import opened RiskGuards

  type Positive = x: real | x > 0.0 witness 1.0

  datatype Instrument = Instrument(pointValue: real, minLot: real, maxLot: real, lotStep: Positive)

  datatype Sizing =
    | Rejected
    | Sized(lots: real, riskUsd: real, riskPct: real)

  /** Round to the nearest whole number, ties to even. */
  function RoundHalfEven(x: real): int {
    var down := x.Floor;
    var rest := x - down as real;
    if rest < 0.5 || (rest == 0.5 && down % 2 == 0) then down else down + 1
  }

  function Round2(x: real): real { RoundHalfEven(x * 100.0) as real / 100.0 }

  function Round4(x: real): real { RoundHalfEven(x * 10000.0) as real / 10000.0 }

  /** Loss of one lot at the stop. */
  function StopCost(inst: Instrument, slDistance: real): real { Abs(slDistance) * inst.pointValue }

  function Times(a: real, b: real): real { a * b }

  function Steps(k: int, step: real): real { Times(k as real, step) }

  /** Whole steps the risk budget buys, capped at the largest lot. */
  function WholeLots(inst: Instrument, budget: real, cost: real): real
    requires cost > 0.0
  {
    Min(Steps((budget / cost / inst.lotStep).Floor, inst.lotStep), inst.maxLot)
  }

  function LossAtStop(lots: real, cost: real): real { Times(lots, cost) }

  function Budget(balance: real, riskPct: real): real { balance * (riskPct / 100.0) }

  function CalculateLotSize(inst: Instrument, balance: real, riskPct: real, slDistance: real): Sizing
  {
    var cost := StopCost(inst, slDistance);
    if Abs(slDistance) <= 0.0 then Rejected
    else if balance <= 0.0 then Rejected
    else if cost <= 0.0 then Rejected
    else
      var lots := WholeLots(inst, Budget(balance, riskPct), cost);
      if lots < inst.minLot then Rejected
      else Sized(Round2(lots), Round2(LossAtStop(lots, cost)), Round4(LossAtStop(lots, cost) / balance * 100.0))
  }

  // ----- rounding -----

  lemma {:induction false} RoundNearest(x: real)
    ensures x - 0.5 <= RoundHalfEven(x) as real <= x + 0.5
  {
  }

  lemma {:induction false} RoundMonotone(x: real, y: real)
    requires x <= y
    ensures RoundHalfEven(x) <= RoundHalfEven(y)
  {
    if x.Floor == y.Floor {
    } else {
      assert x.Floor + 1 <= y.Floor;
    }
  }

  lemma {:induction false} RoundWhole(n: int)
    ensures RoundHalfEven(n as real) == n
  {
  }

  /** A whole number of hundredths. */
  predicate Hundredths(x: real) { (x * 100.0).Floor as real == x * 100.0 }

  lemma {:induction false} Round2Fixes(x: real)
    requires Hundredths(x)
    ensures Round2(x) == x
  {
    RoundWhole((x * 100.0).Floor);
  }

  lemma {:induction false} Round2Monotone(x: real, y: real)
    requires x <= y
    ensures Round2(x) <= Round2(y)
  {
    RoundMonotone(x * 100.0, y * 100.0);
  }

  // ----- sizing laws -----

  lemma {:induction false} TimesOrder(a: real, b: real, c: real)
    requires c > 0.0
    ensures (a <= b <==> Times(a, c) <= Times(b, c)) && (a < b <==> Times(a, c) < Times(b, c))
  {
    if a < b { assert (b - a) * c > 0.0; }
    if a > b { assert (a - b) * c > 0.0; }
  }

  lemma {:induction false} TimesAdd(a: real, b: real, c: real)
    ensures Times(a + b, c) == Times(a, c) + Times(b, c)
  {
  }

  lemma {:induction false} TimesPart(f: real, step: real)
    requires 0.0 <= f < 1.0 && step > 0.0
    ensures 0.0 <= Times(f, step) < step
  {
    assert (1.0 - f) * step > 0.0;
    TimesAdd(1.0 - f, f, step);
  }

  lemma {:induction false} FloorTimes(q: real, step: real)
    requires step > 0.0
    ensures Steps(q.Floor, step) <= Times(q, step) < Steps(q.Floor, step) + step
  {
    hide Times;
    var n := q.Floor as real;
    TimesPart(q - n, step);
    TimesAdd(n, q - n, step);
    assert n + (q - n) == q;
  }

  lemma {:induction false} DivideBack(a: real, b: real)
    requires b != 0.0
    ensures Times(a / b, b) == a
  {
  }

  /** The whole steps below the exact quotient. */
  lemma {:induction false} StepsBracket(budget: real, cost: real, step: real)
    requires step > 0.0 && cost > 0.0
    ensures var whole := Steps((budget / cost / step).Floor, step);
            LossAtStop(whole, cost) <= budget < LossAtStop(whole + step, cost)
  {
    hide Times, Steps;
    var raw := budget / cost;
    var q := raw / step;
    var whole := Steps(q.Floor, step);
    FloorTimes(q, step);
    DivideBack(budget, cost);
    DivideBack(raw, step);
    TimesOrder(whole, raw, cost);
    TimesOrder(raw, whole + step, cost);
  }

  /** Never over-risks, and no larger whole-step size would do: one more step breaks the
      budget, unless the cap already binds. */
  lemma {:induction false} SizeIsMaximal(inst: Instrument, budget: real, cost: real)
    requires cost > 0.0
    ensures var lots := WholeLots(inst, budget, cost);
            && lots <= inst.maxLot && LossAtStop(lots, cost) <= budget
            && (lots == inst.maxLot || (LossAtStop(lots + inst.lotStep, cost) > budget
                && exists k: int :: lots == Steps(k, inst.lotStep)))
  {
    var whole := Steps((budget / cost / inst.lotStep).Floor, inst.lotStep);
    StepsBracket(budget, cost, inst.lotStep);
    TimesOrder(WholeLots(inst, budget, cost), whole, cost);
  }

  lemma {:induction false} StepsAreHundredths(step: real, k: int)
    requires Hundredths(step)
    ensures Hundredths(Steps(k, step))
  {
    var n := (step * 100.0).Floor;
    assert Steps(k, step) * 100.0 == k as real * (step * 100.0) == (k * n) as real;
    assert ((k * n) as real).Floor == k * n;
  }

  // ----- any lot step -----

  /** `k` steps, capped at the largest lot. */
  function Capped(inst: Instrument, k: int): real { Min(Steps(k, inst.lotStep), inst.maxLot) }

  ghost predicate WithinBudget(inst: Instrument, balance: real, riskPct: real, slDistance: real) {
    var z := CalculateLotSize(inst, balance, riskPct, slDistance);
    z.Sized? ==> LossAtStop(z.lots, StopCost(inst, slDistance)) <= Budget(balance, riskPct)
  }

  /** No acceptable whole-step size is rounded to more than its steps. */
  ghost predicate RoundsWithinSteps(inst: Instrument) {
    forall k: int :: Capped(inst, k) >= inst.minLot ==> Round2(Capped(inst, k)) <= Steps(k, inst.lotStep)
  }

  lemma {:induction false} RoundedWithinBudget(inst: Instrument, balance: real, riskPct: real, slDistance: real)
    requires RoundsWithinSteps(inst)
    ensures WithinBudget(inst, balance, riskPct, slDistance)
  {
    hide Round2, Round4, Steps, Budget, StopCost, Times;
    if CalculateLotSize(inst, balance, riskPct, slDistance).Sized? {
      var cost, budget := StopCost(inst, slDistance), Budget(balance, riskPct);
      var k := (budget / cost / inst.lotStep).Floor;
      assert WholeLots(inst, budget, cost) == Capped(inst, k);
      StepsBracket(budget, cost, inst.lotStep);
      TimesOrder(Round2(Capped(inst, k)), Steps(k, inst.lotStep), cost);
    }
  }

  /** A size in the instrument's range that the budget buys and that no further step fits, unless
      it is the largest lot. */
  ghost predicate Fitting(inst: Instrument, budget: real, cost: real, lots: real) {
    && inst.minLot <= lots <= inst.maxLot && LossAtStop(lots, cost) <= budget
    && (lots == inst.maxLot || (LossAtStop(lots + inst.lotStep, cost) > budget
        && exists k: int :: lots == Steps(k, inst.lotStep)))
  }

  /** An accepted size is the hundredth nearest to a size that fits. Where no size rounds up past
      its steps the loss it can make is within the budget too; on hundredth steps it fits as it is. */
  lemma {:induction false} AcceptedIsWithinBudget(inst: Instrument, balance: real, riskPct: real, slDistance: real)
    requires CalculateLotSize(inst, balance, riskPct, slDistance).Sized?
    ensures var lots, cost, budget := CalculateLotSize(inst, balance, riskPct, slDistance).lots,
                                      StopCost(inst, slDistance), Budget(balance, riskPct);
            && (exists size: real :: Fitting(inst, budget, cost, size) && lots == Round2(size))
            && (RoundsWithinSteps(inst) ==> LossAtStop(lots, cost) <= budget)
            && (Hundredths(inst.lotStep) && Hundredths(inst.maxLot) ==> Fitting(inst, budget, cost, lots))
  {
    hide WholeLots, Round2, Round4, Hundredths, Budget, StopCost, RoundsWithinSteps;
    var cost, budget := StopCost(inst, slDistance), Budget(balance, riskPct);
    var size := WholeLots(inst, budget, cost);
    SizeIsMaximal(inst, budget, cost);
    assert Fitting(inst, budget, cost, size);
    if RoundsWithinSteps(inst) {
      RoundedWithinBudget(inst, balance, riskPct, slDistance);
    }
    if Hundredths(inst.lotStep) && Hundredths(inst.maxLot) {
      if size != inst.maxLot {
        var k: int :| size == Steps(k, inst.lotStep);
        StepsAreHundredths(inst.lotStep, k);
      }
      Round2Fixes(size);
    }
  }

  /** A balance that buys exactly `k` steps at a stop one price unit away. */
  lemma {:induction false} BuysSteps(inst: Instrument, k: int)
    requires inst.pointValue > 0.0 && inst.minLot > 0.0 && Capped(inst, k) >= inst.minLot
    ensures var balance := Times(Steps(k, inst.lotStep), inst.pointValue);
            && balance > 0.0 && Budget(balance, 100.0) == balance && StopCost(inst, 1.0) == inst.pointValue
            && WholeLots(inst, balance, inst.pointValue) == Capped(inst, k)
  {
    hide Times;
    var size := Steps(k, inst.lotStep);
    var balance := Times(size, inst.pointValue);
    TimesOrder(0.0, size, inst.pointValue);
    ZeroTimes(inst.pointValue);
    TimesBack(size, inst.pointValue);
    TimesBack(k as real, inst.lotStep);
    assert (k as real).Floor == k;
  }

  lemma {:induction false} ZeroTimes(b: real)
    ensures Times(0.0, b) == 0.0
  {
  }

  lemma {:induction false} TimesBack(a: real, b: real)
    requires b != 0.0
    ensures Times(a, b) / b == a
  {
  }

  /** Whatever the balance, risk and stop, the lots handed back stay within the budget exactly when
      rounding them to hundredths never exceeds the whole steps they stand for. */
  lemma {:induction false} RoundingKeepsBudget(inst: Instrument)
    requires inst.pointValue > 0.0 && inst.minLot > 0.0
    ensures (forall balance: real, riskPct: real, slDistance: real :: WithinBudget(inst, balance, riskPct, slDistance))
            <==> RoundsWithinSteps(inst)
  {
    hide Round2, Round4, WholeLots, Budget, StopCost, Steps, Times, WithinBudget, Capped;
    if RoundsWithinSteps(inst) {
      forall balance: real, riskPct: real, slDistance: real ensures WithinBudget(inst, balance, riskPct, slDistance) {
        RoundedWithinBudget(inst, balance, riskPct, slDistance);
      }
    } else {
      var k: int :| Capped(inst, k) >= inst.minLot && !(Round2(Capped(inst, k)) <= Steps(k, inst.lotStep));
      BuysSteps(inst, k);
      RoundsOverBudget(inst, k);
    }
  }

  lemma {:induction false} RoundsOverBudget(inst: Instrument, k: int)
    requires inst.pointValue > 0.0 && inst.minLot > 0.0 && Capped(inst, k) >= inst.minLot
    requires Round2(Capped(inst, k)) > Steps(k, inst.lotStep)
    ensures !WithinBudget(inst, Times(Steps(k, inst.lotStep), inst.pointValue), 100.0, 1.0)
  {
    hide Round2, Round4, WholeLots, Budget, StopCost, Steps, Times, Capped;
    BuysSteps(inst, k);
    TimesOrder(Steps(k, inst.lotStep), Round2(Capped(inst, k)), inst.pointValue);
  }

  /** Hundredth steps and a hundredth largest lot never round. */
  lemma {:induction false} HundredthStepsFit(inst: Instrument)
    requires Hundredths(inst.lotStep) && Hundredths(inst.maxLot)
    ensures RoundsWithinSteps(inst)
  {
    hide Round2, Hundredths, Times;
    forall k: int ensures Round2(Capped(inst, k)) <= Steps(k, inst.lotStep) {
      StepsAreHundredths(inst.lotStep, k);
      Round2Fixes(Capped(inst, k));
    }
  }

  /** With a step of five thousandths a size of three steps is handed back as more than three. */
  lemma {:induction false} FineStepsOverRisk()
    ensures var inst := Instrument(1.0, 0.005, 10.0, 0.005);
            !RoundsWithinSteps(inst) && Capped(inst, 3) == 0.015 && Round2(Capped(inst, 3)) == 0.02
  {
  }

  /** Lots of a sizing, none when rejected. */
  function LotsOf(s: Sizing): real { if s.Sized? then s.lots else 0.0 }

  lemma {:induction false} WholeLotsMonotone(inst: Instrument, b1: real, c1: real, b2: real, c2: real)
    requires c1 > 0.0 && c2 > 0.0 && b1 / c1 <= b2 / c2
    ensures WholeLots(inst, b1, c1) <= WholeLots(inst, b2, c2)
  {
    var q1, q2 := b1 / c1 / inst.lotStep, b2 / c2 / inst.lotStep;
    assert q1 <= q2;
    assert q1.Floor <= q2.Floor;
    if q1.Floor < q2.Floor { TimesOrder(q1.Floor as real, q2.Floor as real, inst.lotStep); }
  }

  /** A larger balance never shrinks the size, a wider stop never grows it. */
  lemma {:induction false} SizeIsMonotone(inst: Instrument, b1: real, b2: real, riskPct: real, d1: real, d2: real)
    requires inst.minLot > 0.0 && riskPct >= 0.0 && inst.pointValue > 0.0
    requires b1 <= b2 && Abs(d1) >= Abs(d2) > 0.0
    ensures LotsOf(CalculateLotSize(inst, b1, riskPct, d1)) <= LotsOf(CalculateLotSize(inst, b2, riskPct, d2))
  {
    hide WholeLots, Round2, Round4;
    var c1, c2 := StopCost(inst, d1), StopCost(inst, d2);
    CostsPositive(inst, d1, d2);
    if b1 > 0.0 {
      BudgetRatio(b1, b2, riskPct, c1, c2);
      WholeLotsMonotone(inst, Budget(b1, riskPct), c1, Budget(b2, riskPct), c2);
      Round2Monotone(WholeLots(inst, Budget(b1, riskPct), c1), WholeLots(inst, Budget(b2, riskPct), c2));
    }
    if CalculateLotSize(inst, b2, riskPct, d2).Sized? {
      var lots := WholeLots(inst, Budget(b2, riskPct), c2);
      Round2Monotone(0.0, lots);
      RoundZero();
    }
  }

  lemma {:induction false} RoundZero()
    ensures Round2(0.0) == 0.0
  {
    RoundWhole(0);
  }

  lemma {:induction false} CostsPositive(inst: Instrument, d1: real, d2: real)
    requires inst.pointValue > 0.0 && Abs(d1) >= Abs(d2) > 0.0
    ensures StopCost(inst, d1) >= StopCost(inst, d2) > 0.0
  {
    TimesOrder(Abs(d2), Abs(d1), inst.pointValue);
  }

  lemma {:induction false} BudgetRatio(b1: real, b2: real, riskPct: real, c1: real, c2: real)
    requires 0.0 < b1 <= b2 && riskPct >= 0.0 && c1 >= c2 > 0.0
    ensures Budget(b1, riskPct) / c1 <= Budget(b2, riskPct) / c2
  {
    var p := riskPct / 100.0;
    assert (b2 - b1) * p >= 0.0;
    var x1, x2 := b1 * p, b2 * p;
    var r1, r2 := x1 / c1, x2 / c2;
    assert r1 * c1 == x1 && r2 * c2 == x2 && r1 >= 0.0;
    assert r1 * (c1 - c2) >= 0.0;
    assert r1 * c2 <= r2 * c2;
    TimesOrder(r1, r2, c2);
  }

  /** Rounding risk to cents keeps every risk within the limit within it exactly when the
      limit itself does not round up. */
  lemma {:induction false} CentsWithinLimit(limit: real)
    ensures (forall x: real :: x <= limit ==> Round2(x) <= limit) <==> Round2(limit) <= limit
  {
    if Round2(limit) <= limit {
      forall x: real | x <= limit ensures Round2(x) <= limit {
        Round2Monotone(x, limit);
      }
    }
  }

  /** A size computed from the guard's own balance and limit passes the guard's per-trade
      test: with a whole-cent limit the reported, rounded risk is within it. */
  lemma {:induction false} SizedRiskPassesGuard(inst: Instrument, g: Guard, riskPct: real, slDistance: real)
    requires 0.0 <= riskPct <= g.config.maxRiskPct
    requires Hundredths(g.MaxPerTrade())
    requires CalculateLotSize(inst, g.config.initialBalance, riskPct, slDistance).Sized?
    ensures CalculateLotSize(inst, g.config.initialBalance, riskPct, slDistance).riskUsd <= g.MaxPerTrade()
  {
    hide WholeLots, Round2, Round4, Hundredths, StopCost;
    var balance := g.config.initialBalance;
    var cost := StopCost(inst, slDistance);
    var lots := WholeLots(inst, Budget(balance, riskPct), cost);
    SizeIsMaximal(inst, Budget(balance, riskPct), cost);
    TimesOrder(riskPct / 100.0, g.config.maxRiskPct / 100.0, balance);
    assert Budget(balance, riskPct) <= g.MaxPerTrade();
    Round2Monotone(LossAtStop(lots, cost), g.MaxPerTrade());
    Round2Fixes(g.MaxPerTrade());
    assert CalculateLotSize(inst, balance, riskPct, slDistance).riskUsd == Round2(LossAtStop(lots, cost));
  }
}
