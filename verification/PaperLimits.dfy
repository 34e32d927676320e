/** Two promises the paper executor does not keep: a flatten books no leg for what is still open,
    and nothing caps the open risk. */
module PaperLimits {
  import opened Prelude
  import opened ExitPlans
  import opened ExitEngine
  import opened RiskGuards
  import opened PositionSizing
  import opened PaperBook
  import opened PaperLaws

  // ----- every held position has a size -----

  /** Points are worth something and the smallest lot survives rounding. */
  ghost predicate SoundInstruments(su: Setup) {
    forall name: string :: su.instrument(name).pointValue > 0.0 && Round2(su.instrument(name).minLot) > 0.0
  }

  ghost predicate AllSized(positions: seq<Held>) {
    forall i :: 0 <= i < |positions| ==> positions[i].lots > 0.0
  }

  lemma {:induction false} SizedIsPositive(inst: Instrument, balance: real, riskPct: real, slDistance: real)
    requires Round2(inst.minLot) > 0.0 && CalculateLotSize(inst, balance, riskPct, slDistance).Sized?
    ensures CalculateLotSize(inst, balance, riskPct, slDistance).lots > 0.0
  {
    hide Round2, Round4, WholeLots;
    Round2Monotone(inst.minLot, WholeLots(inst, Budget(balance, riskPct), StopCost(inst, slDistance)));
  }

  lemma {:induction false} FillSized(su: Setup, s: Paper, signal: Signal)
    requires SoundInstruments(su) && AllSized(s.positions)
    ensures AllSized(Fill(su, s, signal).positions)
  {
    hide CalculateLotSize, Guard.Accepts, Guard.Checked, Round2;
    var inst, d := su.instrument(signal.key.instrument), Abs(signal.entry - signal.plan.stop);
    if CalculateLotSize(inst, su.sizingBalance, su.riskPct, d).Sized? {
      SizedIsPositive(inst, su.sizingBalance, su.riskPct, d);
    }
  }

  lemma {:induction false} CheckArmsSized(su: Setup, s: Paper, i: nat, instrument: string, price: real)
    requires SoundInstruments(su) && AllSized(s.positions) && i <= |s.arms|
    ensures AllSized(CheckArms(su, s, i, instrument, price).positions)
    decreases |s.arms| - i
  {
    hide Fill, Guard.Checked, Guard.Tradable, Reached, SoundInstruments;
    if i < |s.arms| {
      if s.arms[i].signal.key.instrument == instrument && Reached(s.arms[i].signal, price) {
        FillKeepsArms(su, s, i);
        FillSized(su, s.(arms := Without(s.arms, i), guard := s.guard.Checked()), s.arms[i].signal);
        CheckArmsSized(su, Trigger(su, s, i), i, instrument, price);
      } else {
        CheckArmsSized(su, s, i + 1, instrument, price);
      }
    }
  }

  lemma {:induction false} SettleSized(su: Setup, s: Paper, i: nat, pos: Managed)
    requires AllSized(s.positions) && i < |s.positions|
    ensures AllSized(Settle(su, s, i, pos).positions)
  {
    hide Net, Guard.Realized, Without;
    RemovalSized(s.positions, i);
  }

  lemma {:induction false} RemovalSized(positions: seq<Held>, i: nat)
    requires AllSized(positions) && i < |positions|
    ensures AllSized(Without(positions, i))
  {
    WithoutFacts(positions, i);
  }

  lemma {:induction false} ManageSized(su: Setup, s: Paper, i: nat, instrument: string, price: real, ts: int)
    requires AllSized(s.positions) && i <= |s.positions|
    ensures AllSized(Manage(su, s, i, instrument, price, ts).positions)
    decreases |s.positions| - i
  {
    hide AllSized, Managed.Ticked, Net, Guard.Realized;
    if i < |s.positions| {
      if s.positions[i].key.instrument != instrument || !s.positions[i].pos.open {
        ManageSized(su, s, i + 1, instrument, price, ts);
      } else {
        var pos := s.positions[i].pos.Ticked(price, ts);
        SettleSized(su, s, i, pos);
        ManageSized(su, Settle(su, s, i, pos), if pos.open then i + 1 else i, instrument, price, ts);
      }
    }
  }

  lemma {:induction false} AgePositionsSized(su: Setup, s: Paper, i: nat, instrument: string, ts: int)
    requires AllSized(s.positions) && i <= |s.positions|
    ensures AllSized(AgePositions(su, s, i, instrument, ts).positions)
    decreases |s.positions| - i
  {
    hide AllSized, Aged, Net, Guard.Realized;
    if i < |s.positions| {
      if s.positions[i].key.instrument != instrument || !s.positions[i].pos.open {
        AgePositionsSized(su, s, i + 1, instrument, ts);
      } else {
        var pos := Aged(s.positions[i].pos, PriceOf(s, s.positions[i]), ts);
        SettleSized(su, s, i, pos);
        AgePositionsSized(su, Settle(su, s, i, pos), if pos.open then i + 1 else i, instrument, ts);
      }
    }
  }

  lemma {:induction false} FlattenSized(su: Setup, s: Paper, i: nat, only: Option<string>)
    requires AllSized(s.positions) && i <= |s.positions|
    ensures AllSized(FlattenFrom(su, s, i, only).positions)
    decreases |s.positions| - i
  {
    hide AllSized, Net, Guard.Realized;
    if i < |s.positions| {
      if (only.Some? && s.positions[i].key.instrument != only.value) || !s.positions[i].pos.open {
        FlattenSized(su, s, i + 1, only);
      } else {
        RemovalSized(s.positions, i);
        FlattenSized(su, Close(su, s, i, Shut(s.positions[i]), true), i, only);
      }
    }
  }

  lemma {:induction false} StepSized(su: Setup, s: Paper, e: PaperBook.Event)
    requires SoundInstruments(su) && AllSized(s.positions)
    ensures AllSized(PaperBook.Step(su, s, e).positions)
  {
    hide AllSized, SoundInstruments, Fill, CheckArms, Manage, AgePositions, FlattenFrom, AgeArms, TotalFloating,
      Guard.Floating, Guard.Checked, Guard.Tradable, RiskGuards.Step;
    match e
    case SignalEvent(signal) =>
      FillSized(su, s.(guard := s.guard.Checked()), signal);
    case TickEvent(instrument, bid, ts) =>
      if bid > 0.0 {
        var s0 := s.(lastPrice := s.lastPrice[instrument := bid]);
        CheckArmsSized(su, s0, 0, instrument, bid);
        ManageSized(su, CheckArms(su, s0, 0, instrument, bid), 0, instrument, bid, ts);
      }
    case CandleEvent(instrument, ts) =>
      AgePositionsSized(su, s.(arms := AgeArms(s.arms, instrument, |s.arms|)), 0, instrument, ts);
    case FlattenEvent(only) => FlattenSized(su, s, 0, only);
    case DayEvent(_, _) =>
  }

  lemma {:induction false} RunSized(su: Setup, config: Config, es: seq<PaperBook.Event>, n: nat)
    requires SoundInstruments(su) && n <= |es|
    ensures AllSized(PaperBook.Run(su, Idle(config), es, n).positions)
  {
    hide PaperBook.Step, SoundInstruments;
    if n > 0 {
      RunSized(su, config, es, n - 1);
      StepSized(su, PaperBook.Run(su, Idle(config), es, n - 1), es[n - 1]);
    }
  }

  // ----- the leg a flatten leaves out -----

  function Shut(h: Held): Held { h.(pos := h.pos.(open := false)) }

  predicate Flattens(h: Held, only: Option<string>) {
    h.pos.open && (only.Some? ==> h.key.instrument == only.value)
  }

  /** The entries of a flatten that books `net` for each position it closes. */
  function Closings(positions: seq<Held>, only: Option<string>, net: Held -> real): seq<Booked> {
    if positions == [] then []
    else
      (if Flattens(positions[0], only) then [Booked(Shut(positions[0]), net(positions[0]), true)] else [])
      + Closings(positions[1..], only, net)
  }

  function NetOf(su: Setup): Held -> real { (h: Held) => Net(su, h) }

  /** What a close at `price` would book with a leg for the remainder. */
  function NetWithRemainder(su: Setup, h: Held, price: real): real {
    Net(su, h.(pos := h.pos.(legs := h.pos.legs + [Leg(price, h.pos.remaining, EodFlatten, 0)])))
  }

  /** The same at the last known price, which is the one the flatten looks up. */
  function NetClosing(su: Setup, s: Paper): Held -> real {
    (h: Held) => NetWithRemainder(su, h, PriceOf(s, h))
  }

  lemma {:induction false} FlattenBooks(su: Setup, s: Paper, i: nat, only: Option<string>)
    requires i <= |s.positions|
    ensures FlattenFrom(su, s, i, only).book == s.book + Closings(s.positions[i..], only, NetOf(su))
    decreases |s.positions| - i
  {
    hide Guard.Realized, Net;
    if i < |s.positions| {
      var h := s.positions[i];
      assert s.positions[i..][1..] == s.positions[i + 1..];
      if Flattens(h, only) {
        var t := Close(su, s, i, Shut(h), true);
        NetShut(su, h);
        FlattenBooks(su, t, i, only);
        assert t.positions[i..] == s.positions[i + 1..];
      } else {
        FlattenBooks(su, s, i + 1, only);
      }
    }
  }

  lemma {:induction false} NetShut(su: Setup, h: Held)
    ensures Net(su, Shut(h)) == Net(su, h)
  {
    ProfitPrefix(h.pos, Shut(h).pos, |h.pos.legs|);
  }

  lemma {:induction false} ClosingsAgree(positions: seq<Held>, only: Option<string>, f: Held -> real, g: Held -> real)
    ensures Closings(positions, only, f) == Closings(positions, only, g) <==>
              forall i :: 0 <= i < |positions| && Flattens(positions[i], only) ==> f(positions[i]) == g(positions[i])
  {
    hide Flattens, Shut;
    if positions != [] {
      var rest := positions[1..];
      ClosingsAgree(rest, only, f, g);
      assert forall i :: 0 <= i < |rest| ==> rest[i] == positions[i + 1];
      assert forall i :: 0 < i < |positions| ==> positions[i] == rest[i - 1];
      var a, b := Closings(positions, only, f), Closings(positions, only, g);
      if Flattens(positions[0], only) {
        assert a[0].net == f(positions[0]) && b[0].net == g(positions[0]);
        assert a[1..] == Closings(rest, only, f) && b[1..] == Closings(rest, only, g);
      } else {
        assert a == Closings(rest, only, f) && b == Closings(rest, only, g);
      }
    }
  }

  lemma {:induction false} ProfitAppend(p: Managed, q: Managed, l: Leg)
    requires q.direction == p.direction && q.entry == p.entry && q.legs == p.legs + [l]
    ensures Profit(q, q.legs, |q.legs|) == Profit(p, p.legs, |p.legs|) + p.GainAt(l.price) * l.fraction
  {
    ProfitPrefix(p, q, |p.legs|);
  }

  lemma {:induction false} ProfitPrefix(p: Managed, q: Managed, n: nat)
    requires n <= |p.legs| && n <= |q.legs| && forall i :: 0 <= i < n ==> p.legs[i] == q.legs[i]
    requires q.direction == p.direction && q.entry == p.entry
    ensures Profit(p, p.legs, n) == Profit(q, q.legs, n)
  {
    if n > 0 { ProfitPrefix(p, q, n - 1); }
  }

  lemma {:induction false} RemainderIsWorthNothing(su: Setup, h: Held, price: real)
    requires Whole(h.pos) && h.pos.open
    requires h.lots > 0.0 && su.instrument(h.key.instrument).pointValue > 0.0
    ensures NetWithRemainder(su, h, price) == Net(su, h) <==> price == h.pos.entry
  {
    hide Profit, ClosedFraction;
    var l := Leg(price, h.pos.remaining, EodFlatten, 0);
    var q := h.pos.(legs := h.pos.legs + [l]);
    ProfitAppend(h.pos, q, l);
    var a, b := Profit(h.pos, h.pos.legs, |h.pos.legs|), h.pos.GainAt(price) * h.pos.remaining;
    NoChange(a, b, su.instrument(h.key.instrument).pointValue, h.lots);
    Vanishes(h.pos.GainAt(price), h.pos.remaining);
  }

  lemma {:induction false} Vanishes(gain: real, f: real)
    requires f > 0.0
    ensures gain * f == 0.0 <==> gain == 0.0
  {
  }

  lemma {:induction false} NoChange(a: real, b: real, pv: real, lots: real)
    requires pv > 0.0 && lots > 0.0
    ensures (a + b) * pv * lots == a * pv * lots <==> b == 0.0
  {
    assert (a + b) * pv * lots == a * pv * lots + b * pv * lots;
    Vanishes(b, pv);
    Vanishes(b * pv, lots);
  }

  /** After any run a flatten books one entry for each position it closes, worth the legs so
      far; that is what closing the remainders at the last known price would book exactly when
      every such price is the position's entry. */
  lemma {:induction false} FlattenMissesTheRemainder(su: Setup, config: Config, es: seq<PaperBook.Event>, n: nat,
        only: Option<string>)
    requires SoundInstruments(su) && n <= |es| && forall i :: 0 <= i < |es| ==> WellFormed(es[i])
    ensures var s := PaperBook.Run(su, Idle(config), es, n);
            var book := PaperBook.Step(su, s, FlattenEvent(only)).book;
            && book == s.book + Closings(s.positions, only, NetOf(su))
            && (book == s.book + Closings(s.positions, only, NetClosing(su, s)) <==>
                forall i :: 0 <= i < |s.positions| && Flattens(s.positions[i], only) ==>
                  PriceOf(s, s.positions[i]) == s.positions[i].pos.entry)
  {
    hide PaperBook.Run, Whole, Net, Closings, FlattenFrom, Flattens, PriceOf;
    var s := PaperBook.Run(su, Idle(config), es, n);
    RunKeeps(su, config, es, n);
    RunSized(su, config, es, n);
    FlattenBooks(su, s, 0, only);
    assert s.positions[0..] == s.positions;
    forall i | 0 <= i < |s.positions|
      ensures NetOf(su)(s.positions[i]) == NetClosing(su, s)(s.positions[i])
              <==> PriceOf(s, s.positions[i]) == s.positions[i].pos.entry
    {
      PositionAt(su, s, i, config.initialBalance);
      RemainderIsWorthNothing(su, s.positions[i], PriceOf(s, s.positions[i]));
    }
    ClosingsAgree(s.positions, only, NetOf(su), NetClosing(su, s));
    SamePrefix(s.book, Closings(s.positions, only, NetOf(su)), Closings(s.positions, only, NetClosing(su, s)));
  }

  lemma {:induction false} SamePrefix<T>(a: seq<T>, b: seq<T>, c: seq<T>)
    ensures a + b == a + c <==> b == c
  {
    assert (a + b)[|a|..] == b && (a + c)[|a|..] == c;
  }

  // ----- a run of one signal, one tick and a flatten -----

  /** One percent of ten thousand per trade, three percent of open risk, no costs. */
  const DEMO_SETUP := Setup(
    true, 1.0, 10_000.0, (name: string) => Instrument(1.0, 0.01, 100.0, 0.01), (name: string, lots: real) => 0.0)

  const DEMO_CONFIG := Config(10_000.0, 5.0, 10.0, 0, 0, 0, 1.0, 3.0)

  const DEMO_SIGNAL := Signal(
    Key("trend", "a", "XAU", Long), false, 100.0,
    ExitPlan(Long, 100.0, 90.0, [TakeProfit(120.0, 1.0)], 2.0, None), 1, 0)

  lemma {:induction false} DemoFacts()
    ensures SignalOk(DEMO_SIGNAL) && SoundInstruments(DEMO_SETUP)
    ensures CalculateLotSize(DEMO_SETUP.instrument("XAU"), 10_000.0, 1.0, 10.0) == Sized(10.0, 100.0, 1.0)
    ensures Fresh(DEMO_CONFIG).Accepts(100.0) && Fresh(DEMO_CONFIG).Checked() == Fresh(DEMO_CONFIG)
    ensures Fresh(DEMO_CONFIG).Tradable()
  {
    var plan := DEMO_SIGNAL.plan;
    assert FractionSum(plan.tps, 1) == 1.0;
    assert Abs(plan.tps[0].price - plan.entry) + 0.000001 * plan.Risk() >= plan.minRr * plan.Risk();
    assert Budget(10_000.0, 1.0) == 100.0;
    assert 100.0 / 10.0 / 0.01 == 1000.0;
    assert Steps(1000, 0.01) == 10.0;
  }

  const DEMO_RUN: seq<PaperBook.Event> :=
    [SignalEvent(DEMO_SIGNAL), TickEvent("XAU", 95.0, 1), FlattenEvent(None)]

  function DemoPosition(): Managed { ExitEngine.Opened(Long, 100.0, DEMO_SIGNAL.plan) }

  lemma {:induction false} DemoTick()
    ensures DemoPosition().Ticked(95.0, 1) == DemoPosition().(worst := 95.0)
  {
    var p := DemoPosition().(worst := 95.0);
    assert DemoPosition().Excursed(95.0) == p && p.Restopped() == p;
    NothingReached(p, p.Order(), 0, p.remaining, 95.0, 95.0);
    assert p.Evaluate(95.0, 95.0) == [];
  }

  lemma {:induction false} NothingReached(p: Managed, order: seq<nat>, i: nat, running: real, high: real, low: real)
    requires i <= |order| && forall j :: 0 <= j < |order| ==> order[j] < |p.plan.tps|
    requires forall k :: 0 <= k < |p.plan.tps| ==> !p.TargetReached(k, high, low)
    ensures p.Scan(order, i, running, high, low) == []
    decreases |order| - i
  {
    if i < |order| { NothingReached(p, order, i + 1, running, high, low); }
  }

  /** The account after the signal, after the tick and after the flatten. */
  function DemoStates(): (r: seq<Paper>)
    ensures |r| == 4
  {
    var p, g := DemoPosition(), Fresh(DEMO_CONFIG);
    var h, keys := Held(0, DEMO_SIGNAL.key, 10.0, p), {DEMO_SIGNAL.key};
    var ticked := h.(pos := p.(worst := 95.0));
    var low := g.(unrealized := -50.0, daily := g.daily.(lowest := 9_950.0));
    [ Idle(DEMO_CONFIG),
      Paper([h], [], keys, map[], 1, 0, g, []),
      Paper([ticked], [], keys, map["XAU" := 95.0], 1, 0, low, []),
      Paper([], [], {}, map["XAU" := 95.0], 1, 1, low.Realized(0.0), [Booked(Shut(ticked), 0.0, true)]) ]
  }

  lemma {:induction false} DemoSignalStep()
    ensures PaperBook.Step(DEMO_SETUP, DemoStates()[0], DEMO_RUN[0]) == DemoStates()[1]
  {
    hide CalculateLotSize, Guard.Accepts, Guard.Checked;
    DemoFacts();
    var s := DemoStates()[0];
    assert s.openKeys + {DEMO_SIGNAL.key} == {DEMO_SIGNAL.key};
  }

  lemma {:induction false} DemoTickStep()
    ensures PaperBook.Step(DEMO_SETUP, DemoStates()[1], DEMO_RUN[1]) == DemoStates()[2]
  {
    hide Managed.Ticked;
    DemoTick();
    var s0 := DemoStates()[1].(lastPrice := map["XAU" := 95.0]);
    var s2 := DemoStates()[2].(guard := s0.guard);
    assert Settle(DEMO_SETUP, s0, 0, DemoPosition().(worst := 95.0)) == s2;
    assert Manage(DEMO_SETUP, s0, 0, "XAU", 95.0, 1) == s2;
    assert TotalFloating(DEMO_SETUP, s2, 1) == -50.0;
  }

  lemma {:induction false} DemoFlattenStep()
    ensures PaperBook.Step(DEMO_SETUP, DemoStates()[2], DEMO_RUN[2]) == DemoStates()[3]
  {
    hide Guard.Realized, Fresh;
    var s := DemoStates()[2];
    var h := s.positions[0];
    assert Net(DEMO_SETUP, Shut(h)) == 0.0;
    assert s.openKeys - {h.key} == {} && Without(s.positions, 0) == [];
    var t := Close(DEMO_SETUP, s, 0, Shut(h), true);
    assert t == DemoStates()[3];
    assert FlattenFrom(DEMO_SETUP, t, 0, None) == t;
    assert FlattenFrom(DEMO_SETUP, s, 0, None) == FlattenFrom(DEMO_SETUP, t, 0, None);
  }

  /** The run signal, tick at 95, flatten books a net of zero for a position bought at 100 that
      would have lost fifty dollars. */
  lemma {:induction false} FlattenForgetsALoss()
    ensures (forall i :: 0 <= i < |DEMO_RUN| ==> WellFormed(DEMO_RUN[i])) && SoundInstruments(DEMO_SETUP)
    ensures var s := PaperBook.Run(DEMO_SETUP, Idle(DEMO_CONFIG), DEMO_RUN, 2);
            var t := PaperBook.Run(DEMO_SETUP, Idle(DEMO_CONFIG), DEMO_RUN, 3);
            && |s.positions| == 1 && PriceOf(s, s.positions[0]) == 95.0
            && NetWithRemainder(DEMO_SETUP, s.positions[0], 95.0) == -50.0
            && |t.book| == 1 && t.book[0].net == 0.0 && t.positions == [] && t.guard.balance == 10_000.0
  {
    hide SignalOk, SoundInstruments, DemoStates, NetWithRemainder, PaperBook.Run, PriceOf;
    DemoFacts();
    DemoRuns(2);
    DemoRuns(3);
    DemoRemainder();
    DemoEnd();
  }

  lemma {:induction false} DemoRuns(n: nat)
    requires n <= 3
    ensures PaperBook.Run(DEMO_SETUP, Idle(DEMO_CONFIG), DEMO_RUN, n) == DemoStates()[n]
  {
    hide PaperBook.Step;
    if n > 0 {
      DemoRuns(n - 1);
      DemoSignalStep();
      DemoTickStep();
      DemoFlattenStep();
    }
  }

  lemma {:induction false} DemoEnd()
    ensures var s, t := DemoStates()[2], DemoStates()[3];
            && |s.positions| == 1 && PriceOf(s, s.positions[0]) == 95.0
            && |t.book| == 1 && t.book[0].net == 0.0 && t.positions == [] && t.guard.balance == 10_000.0
  {
    hide Guard.Checked;
    RealizedBalance(DemoStates()[2].guard, 0.0);
  }

  lemma {:induction false} DemoRemainder()
    ensures NetWithRemainder(DEMO_SETUP, DemoStates()[2].positions[0], 95.0) == -50.0
  {
    var p := DemoStates()[2].positions[0].pos;
    var l := Leg(95.0, 1.0, EodFlatten, 0);
    ProfitAppend(p, p.(legs := [l]), l);
    assert p.legs + [l] == [l];
  }

  // ----- the open risk nothing caps -----

  /** Loss of a position if its plan's stop takes it all. */
  function RiskOf(su: Setup, h: Held): real {
    LossAtStop(h.lots, StopCost(su.instrument(h.key.instrument), h.pos.entry - h.pos.plan.stop))
  }

  function OpenRisk(su: Setup, positions: seq<Held>, n: nat): real
    requires n <= |positions|
  {
    if n == 0 then 0.0 else OpenRisk(su, positions, n - 1) + RiskOf(su, positions[n - 1])
  }

  function OpenRiskCap(config: Config): real { config.initialBalance * (config.maxOpenRiskPct / 100.0) }

  function SizingOf(su: Setup, signal: Signal): Sizing {
    CalculateLotSize(su.instrument(signal.key.instrument), su.sizingBalance, su.riskPct,
                     Abs(signal.entry - signal.plan.stop))
  }

  /** A new account would open this signal. */
  ghost predicate Takes(su: Setup, config: Config, signal: Signal) {
    && su.enabled && SignalOk(signal) && SizingOf(su, signal).Sized?
    && Fresh(config).Accepts(SizingOf(su, signal).riskUsd)
  }

  /** The same signal for the `k`-th variant, filled at once. */
  function Variant(signal: Signal, k: nat): Signal {
    signal.(key := signal.key.(variant := seq(k, _ => 'x')), intrabar := false)
  }

  function Variants(signal: Signal, k: nat): (es: seq<PaperBook.Event>)
    ensures |es| == k && forall i :: 0 <= i < k ==> es[i] == SignalEvent(Variant(signal, i))
  {
    if k == 0 then [] else Variants(signal, k - 1) + [SignalEvent(Variant(signal, k - 1))]
  }

  function Stacked(su: Setup, signal: Signal, k: nat): (positions: seq<Held>)
    requires SizingOf(su, signal).Sized?
    ensures |positions| == k
  {
    if k == 0 then []
    else
      Stacked(su, signal, k - 1)
      + [Held(k - 1, Variant(signal, k - 1).key, SizingOf(su, signal).lots,
              ExitEngine.Opened(signal.key.direction, signal.entry, signal.plan))]
  }

  function StackedKeys(signal: Signal, k: nat): (keys: set<Key>)
    ensures forall key :: key in keys ==> |key.variant| < k
  {
    if k == 0 then {} else StackedKeys(signal, k - 1) + {Variant(signal, k - 1).key}
  }

  /** The account after `k` of them. */
  function Stack(su: Setup, config: Config, signal: Signal, k: nat): Paper
    requires SizingOf(su, signal).Sized?
  {
    Paper(Stacked(su, signal, k), [], StackedKeys(signal, k), map[], k, 0, Fresh(config), [])
  }

  lemma {:induction false} StackGrows(su: Setup, config: Config, signal: Signal, k: nat)
    requires Takes(su, config, signal)
    ensures OnSignal(su, Stack(su, config, signal, k), Variant(signal, k)) == Stack(su, config, signal, k + 1)
  {
    hide CalculateLotSize, SignalOk, Guard.Accepts, Guard.Checked, Guard.Tradable;
    TakesFresh(config, SizingOf(su, signal).riskUsd);
    assert SizingOf(su, Variant(signal, k)) == SizingOf(su, signal);
    assert |Variant(signal, k).key.variant| == k;
  }

  lemma {:induction false} TakesFresh(config: Config, risk: real)
    requires Fresh(config).Accepts(risk)
    ensures Fresh(config).Tradable() && Fresh(config).Checked() == Fresh(config)
  {
  }

  lemma {:induction false} VariantsStack(su: Setup, config: Config, signal: Signal, k: nat, n: nat)
    requires Takes(su, config, signal) && n <= k
    ensures PaperBook.Run(su, Idle(config), Variants(signal, k), n) == Stack(su, config, signal, n)
  {
    hide OnSignal, Takes, Variant;
    if n > 0 {
      VariantsStack(su, config, signal, k, n - 1);
      StackGrows(su, config, signal, n - 1);
    }
  }

  /** What each of them risks. */
  function UnitRisk(su: Setup, signal: Signal): real
    requires SizingOf(su, signal).Sized?
  {
    LossAtStop(SizingOf(su, signal).lots,
               StopCost(su.instrument(signal.key.instrument), signal.entry - signal.plan.stop))
  }

  lemma {:induction false} StackRisk(su: Setup, signal: Signal, k: nat, n: nat)
    requires SizingOf(su, signal).Sized? && n <= k
    ensures OpenRisk(su, Stacked(su, signal, k), n) == Times(n as real, UnitRisk(su, signal))
  {
    hide SizingOf, StopCost, Times;
    if n == 0 {
      ZeroTimes(UnitRisk(su, signal));
    } else {
      StackRisk(su, signal, k, n - 1);
      StackAt(su, signal, k, n - 1);
      TimesAdd((n - 1) as real, 1.0, UnitRisk(su, signal));
      OneTimes(UnitRisk(su, signal));
    }
  }

  lemma {:induction false} StackAt(su: Setup, signal: Signal, k: nat, i: nat)
    requires SizingOf(su, signal).Sized? && i < k
    ensures RiskOf(su, Stacked(su, signal, k)[i]) == UnitRisk(su, signal)
  {
    hide SizingOf, StopCost, LossAtStop;
    if i < k - 1 { StackAt(su, signal, k - 1, i); }
  }

  lemma {:induction false} OneTimes(x: real)
    ensures Times(1.0, x) == x
  {
  }

  lemma {:induction false} UnitIsPositive(su: Setup, signal: Signal)
    requires SoundInstruments(su) && SizingOf(su, signal).Sized?
    ensures UnitRisk(su, signal) > 0.0
  {
    hide Round2, Round4, WholeLots, Times;
    var inst, d := su.instrument(signal.key.instrument), Abs(signal.entry - signal.plan.stop);
    SizedIsPositive(inst, su.sizingBalance, su.riskPct, d);
    assert Abs(d) == Abs(signal.entry - signal.plan.stop);
    assert StopCost(inst, signal.entry - signal.plan.stop) == StopCost(inst, d);
    TimesOrder(0.0, SizingOf(su, signal).lots, StopCost(inst, d));
    ZeroTimes(StopCost(inst, d));
  }

  // ----- an account that takes no signal -----

  ghost predicate TakesNone(su: Setup, config: Config) { forall signal :: !Takes(su, config, signal) }

  /** Nothing was ever opened: the guard still has the money it started with. */
  ghost predicate Untouched(su: Setup, s: Paper, config: Config) {
    && s.positions == [] && ArmsOk(su, s.arms) && SameMoney(s.guard, config)
  }

  ghost predicate ArmsOk(su: Setup, arms: seq<Arm>) {
    forall i :: 0 <= i < |arms| ==> su.enabled && SignalOk(arms[i].signal)
  }

  ghost predicate SameMoney(g: Guard, config: Config) {
    && g.config == config && g.balance == config.initialBalance && g.unrealized == 0.0
    && g.daily.sod == config.initialBalance && g.floor == Fresh(config).floor
  }

  lemma {:induction false} MoneyStays(g: Guard, config: Config, current: Option<int>, clock: int)
    requires SameMoney(g, config)
    ensures SameMoney(g.Checked(), config) && SameMoney(g.Floating(0.0), config)
    ensures SameMoney(RiskGuards.Step(g, CheckReset(current, clock)), config)
  {
    hide Boundary;
  }

  lemma {:induction false} AcceptsLikeFresh(g: Guard, config: Config, risk: real)
    requires SameMoney(g, config) && g.Accepts(risk)
    ensures Fresh(config).Accepts(risk)
  {
    TradableIsSafe(g);
    TradableIsSafe(Fresh(config));
  }

  lemma {:induction false} FillUntouched(su: Setup, s: Paper, config: Config, signal: Signal)
    requires Untouched(su, s, config) && su.enabled && SignalOk(signal) && TakesNone(su, config)
    ensures Untouched(su, Fill(su, s, signal), config)
  {
    hide CalculateLotSize, SignalOk, Guard.Accepts, Guard.Checked, SameMoney;
    MoneyStays(s.guard, config, None, 0);
    assert !Takes(su, config, signal);
    if SizingOf(su, signal).Sized? && s.guard.Accepts(SizingOf(su, signal).riskUsd) {
      AcceptsLikeFresh(s.guard, config, SizingOf(su, signal).riskUsd);
      assert false;
    }
  }

  lemma {:induction false} SignalUntouched(su: Setup, s: Paper, config: Config, signal: Signal)
    requires Untouched(su, s, config) && SignalOk(signal) && TakesNone(su, config)
    ensures Untouched(su, OnSignal(su, s, signal), config)
  {
    hide SignalOk, Fill, Guard.Checked, Guard.Tradable, SameMoney, TakesNone;
    MoneyStays(s.guard, config, None, 0);
    if su.enabled { FillUntouched(su, s.(guard := s.guard.Checked()), config, signal); }
  }

  lemma {:induction false} CheckArmsUntouched(su: Setup, s: Paper, config: Config, i: nat, instrument: string,
        price: real)
    requires Untouched(su, s, config) && TakesNone(su, config) && i <= |s.arms|
    ensures Untouched(su, CheckArms(su, s, i, instrument, price), config)
    decreases |s.arms| - i
  {
    hide SignalOk, Fill, Guard.Checked, Guard.Tradable, SameMoney, TakesNone, Reached;
    if i < |s.arms| {
      if s.arms[i].signal.key.instrument == instrument && Reached(s.arms[i].signal, price) {
        MoneyStays(s.guard, config, None, 0);
        FillKeepsArms(su, s, i);
        FillUntouched(su, s.(arms := Without(s.arms, i), guard := s.guard.Checked()), config, s.arms[i].signal);
        CheckArmsUntouched(su, Trigger(su, s, i), config, i, instrument, price);
      } else {
        CheckArmsUntouched(su, s, config, i + 1, instrument, price);
      }
    }
  }

  lemma {:induction false} AgeUntouched(su: Setup, arms: seq<Arm>, instrument: string, n: nat)
    requires ArmsOk(su, arms) && n <= |arms|
    ensures ArmsOk(su, AgeArms(arms, instrument, n))
  {
    hide SignalOk;
    if n > 0 { AgeUntouched(su, arms, instrument, n - 1); }
  }

  lemma {:induction false} TickUntouched(su: Setup, s: Paper, config: Config, instrument: string, bid: real, ts: int)
    requires Untouched(su, s, config) && TakesNone(su, config)
    ensures Untouched(su, OnTick(su, s, instrument, bid, ts), config)
  {
    hide CheckArms, ArmsOk, SameMoney, Guard.Floating, TakesNone;
    if bid > 0.0 {
      var s0 := s.(lastPrice := s.lastPrice[instrument := bid]);
      CheckArmsUntouched(su, s0, config, 0, instrument, bid);
      MoneyStays(CheckArms(su, s0, 0, instrument, bid).guard, config, None, 0);
    }
  }

  lemma {:induction false} StepUntouched(su: Setup, s: Paper, config: Config, e: PaperBook.Event)
    requires Untouched(su, s, config) && TakesNone(su, config) && WellFormed(e)
    ensures Untouched(su, PaperBook.Step(su, s, e), config)
  {
    hide OnSignal, OnTick, AgeArms, ArmsOk, SameMoney, TakesNone, SignalOk, RiskGuards.Step;
    match e
    case SignalEvent(signal) => SignalUntouched(su, s, config, signal);
    case TickEvent(instrument, bid, ts) => TickUntouched(su, s, config, instrument, bid, ts);
    case CandleEvent(instrument, ts) => AgeUntouched(su, s.arms, instrument, |s.arms|);
    case FlattenEvent(only) =>
    case DayEvent(current, clock) => MoneyStays(s.guard, config, current, clock);
  }

  lemma {:induction false} RunUntouched(su: Setup, config: Config, es: seq<PaperBook.Event>, n: nat)
    requires TakesNone(su, config) && n <= |es| && forall i :: 0 <= i < |es| ==> WellFormed(es[i])
    ensures Untouched(su, PaperBook.Run(su, Idle(config), es, n), config)
  {
    hide PaperBook.Step, TakesNone, WellFormed;
    if n > 0 {
      RunUntouched(su, config, es, n - 1);
      StepUntouched(su, PaperBook.Run(su, Idle(config), es, n - 1), config, es[n - 1]);
    }
  }

  // ----- the bound -----

  /** A run after which the open risk is over the configured cap. */
  ghost predicate Overexposed(su: Setup, config: Config, es: seq<PaperBook.Event>) {
    && (forall i :: 0 <= i < |es| ==> WellFormed(es[i]))
    && var s := PaperBook.Run(su, Idle(config), es, |es|);
       OpenRisk(su, s.positions, |s.positions|) > OpenRiskCap(config)
  }

  lemma {:induction false} StackOverexposed(su: Setup, config: Config, signal: Signal, k: nat)
    requires Takes(su, config, signal) && Times(k as real, UnitRisk(su, signal)) > OpenRiskCap(config)
    ensures Overexposed(su, config, Variants(signal, k))
  {
    hide UnitRisk, Times, SizingOf, Guard.Accepts, PaperBook.Run, OpenRisk, OpenRiskCap;
    VariantsStack(su, config, signal, k, k);
    StackRisk(su, signal, k, k);
    assert SignalOk(signal);
    forall i | 0 <= i < k ensures WellFormed(Variants(signal, k)[i]) {
      assert Variants(signal, k)[i] == SignalEvent(Variant(signal, i));
    }
  }

  lemma {:induction false} TakenIsOverexposed(su: Setup, config: Config, signal: Signal)
    requires SoundInstruments(su) && OpenRiskCap(config) >= 0.0 && Takes(su, config, signal)
    ensures exists es :: Overexposed(su, config, es)
  {
    hide SoundInstruments, SizingOf, OpenRiskCap, UnitRisk, Times, Overexposed;
    var unit, cap := UnitRisk(su, signal), OpenRiskCap(config);
    UnitIsPositive(su, signal);
    var k := (cap / unit).Floor + 1;
    DivideBack(cap, unit);
    TimesOrder(cap / unit, k as real, unit);
    StackOverexposed(su, config, signal, k);
  }

  /** Whatever the cap, some run exceeds it exactly when the account would take any signal at all. */
  lemma {:induction false} OpenRiskIsUncapped(su: Setup, config: Config)
    requires SoundInstruments(su) && OpenRiskCap(config) >= 0.0
    ensures (exists es :: Overexposed(su, config, es)) <==> (exists signal :: Takes(su, config, signal))
  {
    hide SoundInstruments, Takes, OpenRiskCap;
    if exists signal :: Takes(su, config, signal) {
      var signal :| Takes(su, config, signal);
      TakenIsOverexposed(su, config, signal);
    } else {
      forall es ensures !Overexposed(su, config, es) {
        if Overexposed(su, config, es) {
          RunUntouched(su, config, es, |es|);
          assert false;
        }
      }
    }
  }

  /** Four signals of one percent each, with a cap of three. */
  lemma {:induction false} FourPercentOpen()
    ensures Overexposed(DEMO_SETUP, DEMO_CONFIG, Variants(DEMO_SIGNAL, 4)) && OpenRiskCap(DEMO_CONFIG) == 300.0
    ensures var positions := PaperBook.Run(DEMO_SETUP, Idle(DEMO_CONFIG), Variants(DEMO_SIGNAL, 4), 4).positions;
            |positions| == 4 && OpenRisk(DEMO_SETUP, positions, 4) == 400.0
  {
    hide CalculateLotSize, Guard.Accepts, SignalOk, SoundInstruments, Variants;
    DemoFacts();
    VariantsStack(DEMO_SETUP, DEMO_CONFIG, DEMO_SIGNAL, 4, 4);
    StackRisk(DEMO_SETUP, DEMO_SIGNAL, 4, 4);
    StackOverexposed(DEMO_SETUP, DEMO_CONFIG, DEMO_SIGNAL, 4);
  }
}
