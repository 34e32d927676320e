/** Every research exit model books a loss its recorded excursion covers. */
module ExitModelLaws {
  import opened Prelude
  import opened Candles
  import opened ExitPlans
  import opened ExitEngine
  import opened ExitModels

  /** The stop is on the losing side and the model's parameters are sensible. */
  ghost predicate Ready(model: Model, su: Setup) {
    && su.GainAt(su.stop) < 0.0
    && match model
       case FixedRR(rr) => rr >= 0.0
       case BreakevenAfter1R(rr, _) => rr >= 0.0
       case TimeStop(rr, _) => rr >= 0.0
       case AtrTrailing(_) => true
       case ScaleRunner(rr, frac, _) => rr >= 0.0 && 0.0 <= frac <= 1.0
       case MeanTarget(rr) => rr >= 0.0
  }

  /** What holds between bars. */
  ghost predicate Watching(model: Model, su: Setup, w: Watch) {
    && su.GainAt(w.worst) <= 0.0
    && su.GainAt(w.stop) >= su.GainAt(su.stop)
    && 0.0 <= w.remaining <= 1.0
    && (if model.ScaleRunner? && w.switched
        then su.GainAt(w.stop) >= 0.0 && w.remaining == 1.0 - model.firstFrac
             && w.legs == [Slice(model.firstFrac, su.AtR(model.firstRr), ExitReason.TargetHit)]
        else w.legs == [] && w.remaining == 1.0)
  }

  /** The bar just seen did not reach the planned stop, and its range is in the excursion. */
  ghost predicate Survived(su: Setup, w: Watch, c: Candle) {
    su.GainAt(c.close) >= su.GainAt(w.worst) && su.GainAt(c.close) > su.GainAt(su.stop)
  }

  function FractionOf(legs: seq<Slice>, n: nat): real
    requires n <= |legs|
  {
    if n == 0 then 0.0 else FractionOf(legs, n - 1) + legs[n - 1].fraction
  }

  /** The slices are the whole position and none lost more than the capped excursion. */
  ghost predicate Sound(su: Setup, o: Outcome) {
    && o.legs != [] && FractionOf(o.legs, |o.legs|) == 1.0
    && forall i :: 0 <= i < |o.legs| ==> o.legs[i].fraction >= 0.0 && su.GainAt(o.legs[i].price) >= -CappedMae(su, o)
  }

  lemma {:induction false} TargetAbove(su: Setup, rr: real)
    requires rr >= 0.0
    ensures su.GainAt(su.AtR(rr)) >= 0.0
  {
    assert rr * su.Risk() >= 0.0;
  }

  /** Closing the remainder at a price within the excursion and no lower than the stop. */
  lemma {:induction false} ExitIsSound(model: Model, su: Setup, w: Watch, price: real, reason: ExitReason, ts: int,
        closed: bool)
    requires Ready(model, su) && Watching(model, su, w)
    requires su.GainAt(price) >= su.GainAt(w.worst) && su.GainAt(price) >= su.GainAt(su.stop)
    ensures Sound(su, Outcome(w.legs + [Slice(w.remaining, price, reason)], ts, w.bars, w.best, w.worst, closed))
  {
    hide Setup.AtR;
    var o := Outcome(w.legs + [Slice(w.remaining, price, reason)], ts, w.bars, w.best, w.worst, closed);
    var n := |o.legs|;
    assert FractionOf(o.legs, n) == FractionOf(o.legs, n - 1) + w.remaining;
    if model.ScaleRunner? && w.switched {
      TargetAbove(su, model.firstRr);
      assert FractionOf(o.legs, 1) == FractionOf(o.legs, 0) + model.firstFrac;
    }
  }

  /** A bracket's target is hit above the excursion, its stop within it. */
  lemma {:induction false} BracketIsSound(model: Model, su: Setup, w: Watch, target: real, c: Candle)
    requires Ready(model, su) && Watching(model, su, w) && c.WellFormed()
    requires su.GainAt(target) >= 0.0
    requires su.GainAt(w.worst) <= su.GainAt(c.low) && su.GainAt(w.worst) <= su.GainAt(c.high)
    ensures match Bracket(su, w, target, c)
            case Done(o) => Sound(su, o)
            case Going(w1) => w1 == w && Survived(su, w, c)
  {
    if su.StopHit(w.stop, c) {
      ExitIsSound(model, su, w, w.stop, StopLoss, c.ts, true);
    } else if su.TargetHit(target, c) {
      ExitIsSound(model, su, w, target, ExitReason.TargetHit, c.ts, true);
    }
  }

  lemma {:induction false} SeenBar(model: Model, su: Setup, w: Watch, c: Candle)
    requires Watching(model, su, w) && c.WellFormed()
    ensures Watching(model, su, w.Bar())
    ensures var s := w.Bar().Excursed(su.direction, c);
            && Watching(model, su, s) && s.stop == w.stop && s.switched == w.switched
            && su.GainAt(s.worst) <= su.GainAt(c.low) && su.GainAt(s.worst) <= su.GainAt(c.high)
  {
  }

  /** Trailing never leaves the stop looser, nor below its floor. */
  lemma {:induction false} RatchetTightens(su: Setup, stop: real, best: real, distance: real, floor: Option<real>)
    ensures su.GainAt(su.Ratchet(stop, best, distance, floor)) >= su.GainAt(stop)
    ensures floor.Some? ==> su.GainAt(su.Ratchet(stop, best, distance, floor)) >= su.GainAt(floor.value)
  {
  }

  /** One bar of any model either closes soundly or leaves a sound state that survived it. */
  ghost predicate StepKeeps(model: Model, su: Setup, p: Progress, c: Candle) {
    match p
    case Done(o) => Sound(su, o)
    case Going(w) => Watching(model, su, w) && Survived(su, w, c)
  }

  lemma {:induction false} BracketStep(model: Model, su: Setup, w: Watch, c: Candle)
    requires Ready(model, su) && Watching(model, su, w) && c.WellFormed()
    requires model.FixedRR? || model.BreakevenAfter1R? || model.TimeStop? || model.MeanTarget?
    ensures StepKeeps(model, su, Step(model, su, w, c), c)
  {
    hide Sound, CappedMae, Setup.AtR, Setup.TargetHit;
    var s := w.Bar().Excursed(su.direction, c);
    SeenBar(model, su, w, c);
    var target := match model
      case FixedRR(rr) => su.AtR(rr)
      case BreakevenAfter1R(rr, _) => su.AtR(rr)
      case TimeStop(rr, _) => su.AtR(rr)
      case MeanTarget(rr) => su.MeanOr(rr)
      case _ => 0.0;
    var multiple := match model
      case MeanTarget(rr) => rr
      case FixedRR(rr) => rr
      case TimeStop(rr, _) => rr
      case BreakevenAfter1R(rr, _) => rr
      case _ => 0.0;
    TargetAbove(su, multiple);
    BracketIsSound(model, su, s, target, c);
    if model.TimeStop? && Bracket(su, s, target, c).Going? {
      ExitIsSound(model, su, s, c.close, TimeUp, c.ts, true);
    }
  }

  lemma {:induction false} TrailingStep(model: Model, su: Setup, w: Watch, c: Candle)
    requires Ready(model, su) && Watching(model, su, w) && c.WellFormed() && model.AtrTrailing?
    ensures StepKeeps(model, su, Step(model, su, w, c), c)
  {
    hide Sound, CappedMae, Setup.TrailDistance, Setup.Ratchet;
    var s := w.Bar().Excursed(su.direction, c);
    SeenBar(model, su, w, c);
    RatchetTightens(su, s.stop, s.best, su.TrailDistance(model.mult), None);
    if su.StopHit(s.stop, c) {
      ExitIsSound(model, su, s, s.stop, if Abs(s.stop - su.stop) > DUST then TrailingStop else StopLoss, c.ts, true);
    }
  }

  lemma {:induction false} RunnerStep(model: Model, su: Setup, w: Watch, c: Candle)
    requires Ready(model, su) && Watching(model, su, w) && c.WellFormed() && model.ScaleRunner?
    ensures StepKeeps(model, su, Step(model, su, w, c), c)
  {
    hide Sound, CappedMae, Setup.TrailDistance, Setup.Ratchet, Setup.AtR;
    var b := w.Bar();
    var s := b.Excursed(su.direction, c);
    SeenBar(model, su, w, c);
    var distance := su.TrailDistance(model.mult);
    if w.switched {
      RatchetTightens(su, b.stop, s.best, distance, Some(su.entry));
      if su.StopHit(b.stop, c) {
        ExitIsSound(model, su, b, b.stop, if Abs(b.stop - su.entry) > DUST then TrailingStop else StopLoss, c.ts, true);
      }
    } else {
      RatchetTightens(su, su.entry, s.best, distance, Some(su.entry));
      if su.StopHit(s.stop, c) {
        ExitIsSound(model, su, s, s.stop, StopLoss, c.ts, true);
      }
    }
  }

  lemma {:induction false} AnyStep(model: Model, su: Setup, w: Watch, c: Candle)
    requires Ready(model, su) && Watching(model, su, w) && c.WellFormed()
    ensures StepKeeps(model, su, Step(model, su, w, c), c)
  {
    hide Step, StepKeeps, Ready, Watching;
    match model
    case AtrTrailing(_) => TrailingStep(model, su, w, c);
    case ScaleRunner(_, _, _) => RunnerStep(model, su, w, c);
    case _ => BracketStep(model, su, w, c);
  }

  /** Every model, on every run of well-formed bars, ends in a sound outcome. */
  lemma {:induction false} RunIsSound(model: Model, su: Setup, w: Watch, cs: seq<Candle>, i: nat)
    requires Ready(model, su) && Watching(model, su, w) && cs != [] && i <= |cs|
    requires forall k :: 0 <= k < |cs| ==> cs[k].WellFormed()
    requires i > 0 ==> Survived(su, w, cs[i - 1])
    ensures Sound(su, Run(model, su, w, cs, i))
    decreases |cs| - i
  {
    hide Step, Sound, Ready, Watching, Survived;
    if i == |cs| {
      FlattenIsSound(model, su, w, cs[|cs| - 1]);
    } else {
      AnyStep(model, su, w, cs[i]);
      match Step(model, su, w, cs[i])
      case Going(next) => RunIsSound(model, su, next, cs, i + 1);
      case Done(o) =>
    }
  }

  lemma {:induction false} FlattenIsSound(model: Model, su: Setup, w: Watch, last: Candle)
    requires Ready(model, su) && Watching(model, su, w) && Survived(su, w, last)
    ensures Sound(su, Flatten(w, last))
  {
    hide Sound, Ready, Watching;
    ExitIsSound(model, su, w, last.close, EodFlatten, last.ts, false);
  }

  lemma {:induction false} StartIsWatched(model: Model, su: Setup)
    requires Ready(model, su)
    ensures Watching(model, su, Start(su))
  {
  }

  // ----- what the account sees -----

  lemma {:induction false} WeightedBound(f: real, gain: real, floor: real)
    requires f >= 0.0 && gain >= floor
    ensures f * gain >= f * floor
  {
    assert f * (gain - floor) >= 0.0;
  }

  lemma {:induction false} ProfitBound(su: Setup, legs: seq<Slice>, mae: real, n: nat)
    requires n <= |legs|
    requires forall i :: 0 <= i < n ==> legs[i].fraction >= 0.0 && su.GainAt(legs[i].price) >= -mae
    ensures SliceProfit(su, legs, n) >= -mae * FractionOf(legs, n)
  {
    hide Setup.GainAt;
    if n > 0 {
      ProfitBound(su, legs, mae, n - 1);
      WeightedBound(legs[n - 1].fraction, su.GainAt(legs[n - 1].price), -mae);
      assert -mae * FractionOf(legs, n) == -mae * FractionOf(legs, n - 1) + legs[n - 1].fraction * -mae;
    }
  }

  lemma {:induction false} RIsProfitOverRisk(su: Setup, legs: seq<Slice>, n: nat)
    requires n <= |legs| && su.Risk() > 0.0
    ensures SliceR(su, legs, n) * su.Risk() == SliceProfit(su, legs, n)
  {
    hide Setup.GainAt, Setup.Risk;
    if n > 0 {
      RIsProfitOverRisk(su, legs, n - 1);
      var f, gain, risk := legs[n - 1].fraction, su.GainAt(legs[n - 1].price), su.Risk();
      TimesRatio(f, gain, risk);
      var before := SliceR(su, legs, n - 1);
      assert (before + f * (gain / risk)) * risk == before * risk + f * (gain / risk) * risk;
    }
  }

  lemma {:induction false} TimesRatio(f: real, gain: real, risk: real)
    requires risk > 0.0
    ensures f * (gain / risk) * risk == f * gain
  {
    var r := gain / risk;
    assert r * risk == gain;
    assert f * r * risk == f * (r * risk);
  }

  /** For all six models and every well-formed path: the fractions sum to one, realised R is at
      least -1, and the net loss never exceeds the recorded excursion plus the cost. */
  lemma {:induction false} LossIsCovered(model: Model, su: Setup, entryMs: int, cs: seq<Candle>, lots: real,
        pointValue: real, costUsd: real)
    requires Ready(model, su) && cs != [] && (forall k :: 0 <= k < |cs| ==> cs[k].WellFormed())
    requires lots >= 0.0 && pointValue >= 0.0
    ensures var o := Run(model, su, Start(su), cs, 0);
            && o.legs != [] && su.Risk() > 0.0
            && FractionOf(o.legs, |o.legs|) == 1.0
            && var t := TradeOf(su, entryMs, o, lots, pointValue, costUsd);
               t.realizedR >= -1.0 && t.netUsd >= -(t.mae * pointValue * lots + costUsd)
  {
    hide Run, Ready, Watching, SliceProfit, SliceR, FractionOf, Setup.GainAt, Setup.Risk;
    ReadyRisks(model, su);
    StartIsWatched(model, su);
    RunIsSound(model, su, Start(su), cs, 0);
    var o := Run(model, su, Start(su), cs, 0);
    var n := |o.legs|;
    var mae := CappedMae(su, o);
    ProfitBound(su, o.legs, mae, n);
    RIsProfitOverRisk(su, o.legs, n);
    assert mae <= su.Risk();
    RAtLeast(SliceR(su, o.legs, n), SliceProfit(su, o.legs, n), su.Risk(), mae);
    InDollars(SliceProfit(su, o.legs, n), mae, pointValue, lots);
  }

  lemma {:induction false} ReadyRisks(model: Model, su: Setup)
    requires Ready(model, su)
    ensures su.Risk() > 0.0
  {
  }

  lemma {:induction false} RAtLeast(r: real, profit: real, risk: real, mae: real)
    requires risk > 0.0 && r * risk == profit && profit >= -mae && mae <= risk
    ensures r >= -1.0
  {
    ScaleUp(-1.0, r, risk);
  }

  lemma {:induction false} InDollars(profit: real, mae: real, pointValue: real, lots: real)
    requires profit >= -mae && pointValue >= 0.0 && lots >= 0.0
    ensures profit * pointValue * lots >= -(mae * pointValue * lots)
  {
    assert (profit + mae) * pointValue >= 0.0;
    assert (profit + mae) * pointValue * lots >= 0.0;
  }
}
