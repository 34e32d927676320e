/** The research exit models of app/cfd_research/exit_models.py: six ways to walk the bars
    after an entry. Every model is a loop over the bars proved against one step function. */
module ExitModels {
  import opened Prelude
  import opened Candles
  import opened ExitPlans
  import opened ExitEngine
  import opened ExitSimulator

  /** A fraction of the position, where it closed and why. */
  datatype Slice = Slice(fraction: real, price: real, reason: ExitReason)

  datatype Outcome = Outcome(
    legs: seq<Slice>, exitMs: int, barsHeld: nat, best: real, worst: real, closed: bool)

  /** The entry every model starts from. */
  datatype Setup = Setup(direction: Direction, entry: real, stop: real, atr: Option<real>, target: Option<real>)
  {
    function Risk(): real { Abs(entry - stop) }

    function AtR(rr: real): real { direction.Beyond(entry, rr * Risk()) }

    function GainAt(price: real): real { direction.Gain(entry, price) }

    /** Trail distance: a multiple of the ATR, or of the risk when there is no ATR. */
    function TrailDistance(mult: real): real {
      mult * if atr.Some? && atr.value > 0.0 then atr.value else Risk()
    }

    function StopHit(level: real, c: Candle): bool {
      if direction.Long? then c.low <= level else c.high >= level
    }

    function TargetHit(level: real, c: Candle): bool {
      if direction.Long? then c.high >= level else c.low <= level
    }

    /** Move a trailing stop toward the price; never loosen. */
    function Ratchet(stop: real, best: real, distance: real, floor: Option<real>): real {
      var behind := direction.Beyond(best, -distance);
      var raised := if floor.Some? then direction.Tighter(behind, floor.value) else behind;
      direction.Tighter(stop, raised)
    }

    /** The carried mean if it is on the profit side, else a fixed multiple. */
    function MeanOr(rr: real): real {
      if target.Some? && GainAt(target.value) > 0.0 then target.value else AtR(rr)
    }
  }

  datatype Model =
    | FixedRR(rr: real)
    | BreakevenAfter1R(rr: real, beAt: real)
    | TimeStop(rr: real, maxBars: int)
    | AtrTrailing(mult: real)
    | ScaleRunner(firstRr: real, firstFrac: real, mult: real)
    | MeanTarget(fallbackRr: real)

  /** A model's running state: bars seen, excursions, current stop, whether the breakeven or
      first-target switch has flipped, and what is still open. */
  datatype Watch = Watch(
    bars: nat, best: real, worst: real, stop: real, switched: bool, legs: seq<Slice>, remaining: real)
  {
    function Bar(): Watch { this.(bars := bars + 1) }

    function Excursed(d: Direction, c: Candle): Watch {
      if d.Long? then this.(best := Max(best, c.high), worst := Min(worst, c.low))
      else this.(best := Min(best, c.low), worst := Max(worst, c.high))
    }

    /** Close all that is left. */
    function Exit(price: real, reason: ExitReason, ts: int): Outcome {
      Outcome(legs + [Slice(remaining, price, reason)], ts, bars, best, worst, true)
    }
  }

  datatype Progress = Going(watch: Watch) | Done(outcome: Outcome)

  function Start(su: Setup): Watch {
    Watch(0, su.entry, su.entry, su.stop, false, [], 1.0)
  }

  /** Stop before target on the full bar, as every static model resolves it. */
  function Bracket(su: Setup, w: Watch, target: real, c: Candle): Progress {
    if su.StopHit(w.stop, c) then Done(w.Exit(w.stop, StopLoss, c.ts))
    else if su.TargetHit(target, c) then Done(w.Exit(target, ExitReason.TargetHit, c.ts))
    else Going(w)
  }

  function BreakevenBar(su: Setup, w: Watch, rr: real, beAt: real, c: Candle): Progress {
    var p := Bracket(su, w, su.AtR(rr), c);
    if p.Going? && !w.switched && su.TargetHit(su.AtR(beAt), c) then Going(w.(switched := true, stop := su.entry))
    else p
  }

  function TimedBar(su: Setup, w: Watch, rr: real, maxBars: int, c: Candle): Progress {
    var p := Bracket(su, w, su.AtR(rr), c);
    if p.Going? && w.bars as int >= maxBars then Done(w.Exit(c.close, TimeUp, c.ts)) else p
  }

  /** The exit uses the stop of the prior bars; it trails only after the bar survived. */
  function TrailingBar(su: Setup, w: Watch, mult: real, c: Candle): Progress {
    if su.StopHit(w.stop, c) then
      Done(w.Exit(w.stop, if Abs(w.stop - su.stop) > DUST then TrailingStop else StopLoss, c.ts))
    else Going(w.(stop := su.Ratchet(w.stop, w.best, su.TrailDistance(mult), None)))
  }

  /** Until the first target: a bracket. */
  function FirstLegBar(su: Setup, w: Watch, firstRr: real, firstFrac: real, mult: real, c: Candle): Progress {
    if su.StopHit(w.stop, c) then Done(w.Exit(w.stop, StopLoss, c.ts))
    else if su.TargetHit(su.AtR(firstRr), c) then
      Going(w.(legs := w.legs + [Slice(firstFrac, su.AtR(firstRr), ExitReason.TargetHit)],
               remaining := w.remaining - firstFrac, switched := true,
               stop := su.Ratchet(su.entry, w.best, su.TrailDistance(mult), Some(su.entry))))
    else Going(w)
  }

  /** After it: a runner under a trailing stop floored at breakeven. */
  function RunnerBar(su: Setup, w: Watch, mult: real, c: Candle): Progress {
    if su.StopHit(w.stop, c) then
      Done(w.Exit(w.stop, if Abs(w.stop - su.entry) > DUST then TrailingStop else StopLoss, c.ts))
    else
      var seen := w.Excursed(su.direction, c);
      Going(seen.(stop := su.Ratchet(w.stop, seen.best, su.TrailDistance(mult), Some(su.entry))))
  }

  function Step(model: Model, su: Setup, w0: Watch, c: Candle): Progress {
    var w := w0.Bar();
    var seen := w.Excursed(su.direction, c);
    match model
    case FixedRR(rr) => Bracket(su, seen, su.AtR(rr), c)
    case BreakevenAfter1R(rr, beAt) => BreakevenBar(su, seen, rr, beAt, c)
    case TimeStop(rr, maxBars) => TimedBar(su, seen, rr, maxBars, c)
    case AtrTrailing(mult) => TrailingBar(su, seen, mult, c)
    case ScaleRunner(firstRr, firstFrac, mult) =>
      if w.switched then RunnerBar(su, w, mult, c) else FirstLegBar(su, seen, firstRr, firstFrac, mult, c)
    case MeanTarget(rr) => Bracket(su, seen, su.MeanOr(rr), c)
  }

  /** An unresolved remainder is valued at the last bar's close. */
  function Flatten(w: Watch, last: Candle): Outcome {
    Outcome(w.legs + [Slice(w.remaining, last.close, EodFlatten)], last.ts, w.bars, w.best, w.worst, false)
  }

  function Run(model: Model, su: Setup, w: Watch, cs: seq<Candle>, i: nat): Outcome
    requires i <= |cs| && cs != []
    decreases |cs| - i
  {
    if i == |cs| then Flatten(w, cs[|cs| - 1])
    else
      match Step(model, su, w, cs[i])
      case Going(next) => Run(model, su, next, cs, i + 1)
      case Done(o) => o
  }

  // ----- the six loops -----

  method Excursion(direction: Direction, best: real, worst: real, c: Candle) returns (best1: real, worst1: real)
    ensures forall w: Watch :: w.best == best && w.worst == worst ==>
              w.Excursed(direction, c) == w.(best := best1, worst := worst1)
  {
    if direction.Long? {
      best1, worst1 := Max(best, c.high), Min(worst, c.low);
    } else {
      best1, worst1 := Min(best, c.low), Max(worst, c.high);
    }
  }

  /** The plain bracket with its target at a given level: FixedRR and MeanTargetExit. */
  method SimulateBracket(ghost model: Model, su: Setup, target: real, cs: seq<Candle>) returns (o: Outcome)
    requires cs != []
    requires || (model.FixedRR? && target == su.AtR(model.rr))
             || (model.MeanTarget? && target == su.MeanOr(model.fallbackRr))
    ensures o == Run(model, su, Start(su), cs, 0)
  {
    var best, worst := su.entry, su.entry;
    var bars := 0;
    for i := 0 to |cs|
      invariant bars == i
      invariant Run(model, su, Start(su), cs, 0) ==
                  Run(model, su, Watch(bars, best, worst, su.stop, false, [], 1.0), cs, i)
    {
      var c := cs[i];
      bars := bars + 1;
      best, worst := Excursion(su.direction, best, worst, c);
      if su.StopHit(su.stop, c) {
        return Outcome([Slice(1.0, su.stop, StopLoss)], c.ts, bars, best, worst, true);
      }
      if su.TargetHit(target, c) {
        return Outcome([Slice(1.0, target, ExitReason.TargetHit)], c.ts, bars, best, worst, true);
      }
    }
    var last := cs[|cs| - 1];
    return Outcome([Slice(1.0, last.close, EodFlatten)], last.ts, bars, best, worst, false);
  }

  method SimulateBreakeven(su: Setup, rr: real, beAt: real, cs: seq<Candle>) returns (o: Outcome)
    requires cs != []
    ensures o == Run(BreakevenAfter1R(rr, beAt), su, Start(su), cs, 0)
  {
    ghost var model := BreakevenAfter1R(rr, beAt);
    var tp, trigger := su.AtR(rr), su.AtR(beAt);
    var stop, active := su.stop, false;
    var best, worst := su.entry, su.entry;
    var bars := 0;
    for i := 0 to |cs|
      invariant bars == i
      invariant Run(model, su, Start(su), cs, 0) ==
                  Run(model, su, Watch(bars, best, worst, stop, active, [], 1.0), cs, i)
    {
      var c := cs[i];
      bars := bars + 1;
      best, worst := Excursion(su.direction, best, worst, c);
      if su.StopHit(stop, c) {
        return Outcome([Slice(1.0, stop, StopLoss)], c.ts, bars, best, worst, true);
      }
      if su.TargetHit(tp, c) {
        return Outcome([Slice(1.0, tp, ExitReason.TargetHit)], c.ts, bars, best, worst, true);
      }
      if !active && su.TargetHit(trigger, c) {
        active, stop := true, su.entry;
      }
    }
    var last := cs[|cs| - 1];
    return Outcome([Slice(1.0, last.close, EodFlatten)], last.ts, bars, best, worst, false);
  }

  method SimulateTimeStop(su: Setup, rr: real, maxBars: int, cs: seq<Candle>) returns (o: Outcome)
    requires cs != []
    ensures o == Run(TimeStop(rr, maxBars), su, Start(su), cs, 0)
  {
    ghost var model := TimeStop(rr, maxBars);
    var tp := su.AtR(rr);
    var best, worst := su.entry, su.entry;
    var bars := 0;
    for i := 0 to |cs|
      invariant bars == i
      invariant Run(model, su, Start(su), cs, 0) ==
                  Run(model, su, Watch(bars, best, worst, su.stop, false, [], 1.0), cs, i)
    {
      var c := cs[i];
      bars := bars + 1;
      best, worst := Excursion(su.direction, best, worst, c);
      if su.StopHit(su.stop, c) {
        return Outcome([Slice(1.0, su.stop, StopLoss)], c.ts, bars, best, worst, true);
      }
      if su.TargetHit(tp, c) {
        return Outcome([Slice(1.0, tp, ExitReason.TargetHit)], c.ts, bars, best, worst, true);
      }
      if bars >= maxBars {
        return Outcome([Slice(1.0, c.close, TimeUp)], c.ts, bars, best, worst, true);
      }
    }
    var last := cs[|cs| - 1];
    return Outcome([Slice(1.0, last.close, EodFlatten)], last.ts, bars, best, worst, false);
  }

  method SimulateTrailing(su: Setup, mult: real, cs: seq<Candle>) returns (o: Outcome)
    requires cs != []
    ensures o == Run(AtrTrailing(mult), su, Start(su), cs, 0)
  {
    ghost var model := AtrTrailing(mult);
    var distance := su.TrailDistance(mult);
    var stop := su.stop;
    var best, worst := su.entry, su.entry;
    var bars := 0;
    for i := 0 to |cs|
      invariant bars == i
      invariant Run(model, su, Start(su), cs, 0) ==
                  Run(model, su, Watch(bars, best, worst, stop, false, [], 1.0), cs, i)
    {
      var c := cs[i];
      bars := bars + 1;
      best, worst := Excursion(su.direction, best, worst, c);
      if su.StopHit(stop, c) {
        var reason := if Abs(stop - su.stop) > DUST then TrailingStop else StopLoss;
        return Outcome([Slice(1.0, stop, reason)], c.ts, bars, best, worst, true);
      }
      stop := su.Ratchet(stop, best, distance, None);
    }
    var last := cs[|cs| - 1];
    return Outcome([Slice(1.0, last.close, EodFlatten)], last.ts, bars, best, worst, false);
  }

  method SimulateScaleRunner(su: Setup, firstRr: real, firstFrac: real, mult: real, cs: seq<Candle>)
    returns (o: Outcome)
    requires cs != []
    ensures o == Run(ScaleRunner(firstRr, firstFrac, mult), su, Start(su), cs, 0)
  {
    ghost var model := ScaleRunner(firstRr, firstFrac, mult);
    var firstTp, distance := su.AtR(firstRr), su.TrailDistance(mult);
    var legs: seq<Slice> := [];
    var firstTaken, stop, remaining := false, su.stop, 1.0;
    var best, worst := su.entry, su.entry;
    var bars := 0;
    for i := 0 to |cs|
      invariant bars == i && (!firstTaken ==> legs == [] && remaining == 1.0)
      invariant Run(model, su, Start(su), cs, 0) ==
                  Run(model, su, Watch(bars, best, worst, stop, firstTaken, legs, remaining), cs, i)
    {
      var c := cs[i];
      ghost var w := Watch(bars, best, worst, stop, firstTaken, legs, remaining).Bar();
      bars := bars + 1;
      if !firstTaken {
        best, worst := Excursion(su.direction, best, worst, c);
        assert w.Excursed(su.direction, c) == w.(best := best, worst := worst);
        if su.StopHit(stop, c) {
          return Outcome([Slice(1.0, stop, StopLoss)], c.ts, bars, best, worst, true);
        }
        if su.TargetHit(firstTp, c) {
          legs := legs + [Slice(firstFrac, firstTp, ExitReason.TargetHit)];
          remaining := remaining - firstFrac;
          firstTaken := true;
          stop := su.Ratchet(su.entry, best, distance, Some(su.entry));
        }
      } else {
        if su.StopHit(stop, c) {
          var reason := if Abs(stop - su.entry) > DUST then TrailingStop else StopLoss;
          return Outcome(legs + [Slice(remaining, stop, reason)], c.ts, bars, best, worst, true);
        }
        best, worst := Excursion(su.direction, best, worst, c);
        assert w.Excursed(su.direction, c) == w.(best := best, worst := worst);
        stop := su.Ratchet(stop, best, distance, Some(su.entry));
      }
    }
    var last := cs[|cs| - 1];
    return Outcome(legs + [Slice(remaining, last.close, EodFlatten)], last.ts, bars, best, worst, false);
  }

  method Simulate(model: Model, su: Setup, cs: seq<Candle>) returns (o: Outcome)
    requires cs != []
    ensures o == Run(model, su, Start(su), cs, 0)
  {
    match model
    case FixedRR(rr) => o := SimulateBracket(model, su, su.AtR(rr), cs);
    case BreakevenAfter1R(rr, beAt) => o := SimulateBreakeven(su, rr, beAt, cs);
    case TimeStop(rr, maxBars) => o := SimulateTimeStop(su, rr, maxBars, cs);
    case AtrTrailing(mult) => o := SimulateTrailing(su, mult, cs);
    case ScaleRunner(firstRr, firstFrac, mult) => o := SimulateScaleRunner(su, firstRr, firstFrac, mult, cs);
    case MeanTarget(rr) => o := SimulateBracket(model, su, su.MeanOr(rr), cs);
  }

  // ----- one entry under one model -----

  function SliceProfit(su: Setup, legs: seq<Slice>, n: nat): real
    requires n <= |legs|
  {
    if n == 0 then 0.0 else SliceProfit(su, legs, n - 1) + legs[n - 1].fraction * su.GainAt(legs[n - 1].price)
  }

  function SliceR(su: Setup, legs: seq<Slice>, n: nat): real
    requires n <= |legs| && su.Risk() > 0.0
  {
    if n == 0 then 0.0 else SliceR(su, legs, n - 1) + legs[n - 1].fraction * (su.GainAt(legs[n - 1].price) / su.Risk())
  }

  function LegsOf(o: Outcome, n: nat): (legs: seq<Leg>)
    requires n <= |o.legs|
    ensures |legs| == n && forall i :: 0 <= i < n ==>
              legs[i] == Leg(o.legs[i].price, o.legs[i].fraction, o.legs[i].reason, o.exitMs)
  {
    if n == 0 then []
    else LegsOf(o, n - 1) + [Leg(o.legs[n - 1].price, o.legs[n - 1].fraction, o.legs[n - 1].reason, o.exitMs)]
  }

  /** The adverse excursion that counts: once price reaches the stop the position is flat. */
  function CappedMae(su: Setup, o: Outcome): real {
    Min(Abs(o.worst - su.entry), su.Risk())
  }

  function TradeOf(su: Setup, entryMs: int, o: Outcome, lots: real, pointValue: real, costUsd: real): SimulatedTrade
    requires o.legs != [] && su.Risk() > 0.0
  {
    var pnl := SliceProfit(su, o.legs, |o.legs|);
    var usd := pnl * pointValue * lots;
    var exit := o.legs[|o.legs| - 1];
    SimulatedTrade(su.entry, entryMs, exit.price, o.exitMs, exit.reason, lots, pointValue,
                   SliceR(su, o.legs, |o.legs|), pnl, usd, costUsd, usd - costUsd,
                   Abs(o.best - su.entry), CappedMae(su, o), o.barsHeld, LegsOf(o, |o.legs|), o.closed)
  }

  /** Nothing if the entry risks nothing, there is no bar to resolve it on, or sizing rejects it. */
  method SimulateEntry(model: Model, su: Setup, entryMs: int, cs: seq<Candle>, lots: Option<real>,
                       pointValue: real, costUsd: real)
    returns (t: Option<SimulatedTrade>)
    ensures t.Some? <==> su.Risk() > 0.0 && cs != [] && lots.Some? && Run(model, su, Start(su), cs, 0).legs != []
    ensures t.Some? ==>
              t.value == TradeOf(su, entryMs, Run(model, su, Start(su), cs, 0), lots.value, pointValue, costUsd)
  {
    if su.Risk() <= 0.0 || cs == [] {
      return None;
    }
    if lots.None? {
      return None;
    }
    var o := Simulate(model, su, cs);
    if o.legs == [] {
      return None;
    }
    return Some(TradeOf(su, entryMs, o, lots.value, pointValue, costUsd));
  }
}
