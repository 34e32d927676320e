/** The paper executor of app/cfd_execution/paper_executor.py: arms, open positions, dedup keys
    and the account ledger of one account. */
module PaperBook {
  import opened Prelude
  import opened ExitPlans
  import opened ExitEngine
  import opened RiskGuards
  import opened PositionSizing

  datatype Key = Key(strategy: string, variant: string, instrument: string, direction: Direction)

  datatype Signal = Signal(key: Key, intrabar: bool, entry: real, plan: ExitPlan, expiry: int, ts: int)

  datatype Arm = Arm(signal: Signal, candles: int)

  /** An open position under its dedup key. */
  datatype Held = Held(id: nat, key: Key, lots: real, pos: Managed)

  /** A closed trade as it was booked; `flattened` if it was force-closed. */
  datatype Booked = Booked(held: Held, net: real, flattened: bool)

  /** What the executor is configured with: sizing base, instruments, cost per trade. */
  datatype Setup = Setup(
    enabled: bool, riskPct: real, sizingBalance: real, instrument: string -> Instrument, cost: (string, real) -> real)

  /** The executor's state. `book` is the trade log in closing order. */
  datatype Paper = Paper(
    positions: seq<Held>, arms: seq<Arm>, openKeys: set<Key>, lastPrice: map<string, real>,
    fills: nat, exits: nat, guard: Guard, book: seq<Booked>)

  /** Dollars made by the recorded legs, after costs. */
  function Net(su: Setup, h: Held): real {
    Profit(h.pos, h.pos.legs, |h.pos.legs|) * su.instrument(h.key.instrument).pointValue * h.lots
    - su.cost(h.key.instrument, h.lots)
  }

  function Without<T>(s: seq<T>, i: nat): seq<T>
    requires i < |s|
  {
    s[..i] + s[i + 1..]
  }

  function ArmOf(arms: seq<Arm>, key: Key): (i: nat)
    ensures i <= |arms| && (i < |arms| ==> arms[i].signal.key == key)
    ensures i == |arms| ==> forall j :: 0 <= j < |arms| ==> arms[j].signal.key != key
  {
    if arms == [] then 0 else if arms[0].signal.key == key then 0 else 1 + ArmOf(arms[1..], key)
  }

  function PriceOf(s: Paper, h: Held): real {
    if h.key.instrument in s.lastPrice then s.lastPrice[h.key.instrument] else h.pos.entry
  }

  /** Book a position that has closed: guard, key, position and trade log. */
  function Close(su: Setup, s: Paper, i: nat, h: Held, flattened: bool): Paper
    requires i < |s.positions|
  {
    var net := Net(su, h);
    s.(guard := s.guard.Realized(net), openKeys := s.openKeys - {h.key}, positions := Without(s.positions, i),
       exits := s.exits + 1, book := s.book + [Booked(h, net, flattened)])
  }

  lemma {:induction false} CloseShrinks(su: Setup, s: Paper, i: nat, h: Held, flattened: bool)
    requires i < |s.positions|
    ensures |Close(su, s, i, h, flattened).positions| == |s.positions| - 1
  {
  }

  /** Store a managed position back, booking it if it closed. */
  function Settle(su: Setup, s: Paper, i: nat, pos: Managed): Paper
    requires i < |s.positions|
  {
    var h := s.positions[i].(pos := pos);
    if pos.open then s.(positions := s.positions[i := h]) else Close(su, s, i, h, false)
  }

  /** Size from the constant sizing balance, ask the guard, and open. */
  function Fill(su: Setup, s: Paper, signal: Signal): Paper {
    var sizing := CalculateLotSize(su.instrument(signal.key.instrument), su.sizingBalance, su.riskPct,
                                   Abs(signal.entry - signal.plan.stop));
    if sizing.Rejected? then s
    else
      var checked := s.(guard := s.guard.Checked());
      if !s.guard.Accepts(sizing.riskUsd) then checked
      else
        var pos := ExitEngine.Opened(signal.key.direction, signal.entry, signal.plan);
        checked.(positions := s.positions + [Held(s.fills, signal.key, sizing.lots, pos)],
                 openKeys := s.openKeys + {signal.key}, fills := s.fills + 1)
  }

  function OnSignal(su: Setup, s: Paper, signal: Signal): Paper {
    if !su.enabled || signal.key in s.openKeys then s
    else
      var i := ArmOf(s.arms, signal.key);
      if i < |s.arms| then s.(arms := s.arms[i := Arm(signal, signal.expiry)])
      else
        var checked := s.(guard := s.guard.Checked());
        if !s.guard.Tradable() then checked
        else if signal.intrabar then checked.(arms := s.arms + [Arm(signal, signal.expiry)])
        else Fill(su, checked, signal)
  }

  predicate Reached(signal: Signal, price: real) {
    if signal.key.direction.Long? then price >= signal.entry else price <= signal.entry
  }

  /** An arm that was reached is dropped, and filled if its key is free and trading allowed. */
  function Trigger(su: Setup, s: Paper, i: nat): Paper
    requires i < |s.arms|
  {
    var signal := s.arms[i].signal;
    var dropped := s.(arms := Without(s.arms, i));
    if signal.key in s.openKeys then dropped
    else
      var checked := dropped.(guard := s.guard.Checked());
      if !s.guard.Tradable() then checked else Fill(su, checked, signal)
  }

  /** The arms from the `i`-th on; filling one leaves the other arms alone. */
  function CheckArms(su: Setup, s: Paper, i: nat, instrument: string, price: real): Paper
    requires i <= |s.arms|
    decreases |s.arms| - i
  {
    if i == |s.arms| then s
    else if s.arms[i].signal.key.instrument == instrument && Reached(s.arms[i].signal, price) then
      FillKeepsArms(su, s, i);
      CheckArms(su, Trigger(su, s, i), i, instrument, price)
    else CheckArms(su, s, i + 1, instrument, price)
  }

  lemma {:induction false} FillKeepsArms(su: Setup, s: Paper, i: nat)
    requires i < |s.arms|
    ensures Trigger(su, s, i).arms == Without(s.arms, i) && |Trigger(su, s, i).arms| == |s.arms| - 1
  {
    hide CalculateLotSize;
  }

  /** The positions from the `i`-th on, each taken through one price update. */
  function Manage(su: Setup, s: Paper, i: nat, instrument: string, price: real, ts: int): Paper
    requires i <= |s.positions|
    decreases |s.positions| - i
  {
    if i == |s.positions| then s
    else if s.positions[i].key.instrument != instrument || !s.positions[i].pos.open then
      Manage(su, s, i + 1, instrument, price, ts)
    else
      var pos := s.positions[i].pos.Ticked(price, ts);
      Manage(su, Settle(su, s, i, pos), if pos.open then i + 1 else i, instrument, price, ts)
  }

  /** Floating result of the first `n` positions at the last known prices. */
  function TotalFloating(su: Setup, s: Paper, n: nat): real
    requires n <= |s.positions|
  {
    if n == 0 then 0.0
    else
      var h := s.positions[n - 1];
      TotalFloating(su, s, n - 1) +
      if h.key.instrument in s.lastPrice then
        h.pos.GainAt(s.lastPrice[h.key.instrument]) * h.pos.remaining *
         su.instrument(h.key.instrument).pointValue * h.lots
      else 0.0
  }

  function OnTick(su: Setup, s: Paper, instrument: string, bid: real, ts: int): Paper {
    if bid <= 0.0 then s
    else
      var s1 := CheckArms(su, s.(lastPrice := s.lastPrice[instrument := bid]), 0, instrument, bid);
      var s2 := Manage(su, s1, 0, instrument, bid, ts);
      s2.(guard := s2.guard.Floating(TotalFloating(su, s2, |s2.positions|)))
  }

  /** Every arm of the instrument ages one candle and expires at zero. */
  function AgeArms(arms: seq<Arm>, instrument: string, n: nat): seq<Arm>
    requires n <= |arms|
  {
    if n == 0 then []
    else
      var rest := AgeArms(arms, instrument, n - 1);
      var a := arms[n - 1];
      if a.signal.key.instrument != instrument then rest + [a]
      else if a.candles - 1 <= 0 then rest
      else rest + [a.(candles := a.candles - 1)]
  }

  /** One more completed bar; at the time-stop the rest goes out at the last price. */
  function Aged(pos: Managed, price: real, ts: int): Managed {
    var older := pos.(bars := pos.bars + 1);
    if older.TimeStopDue() then older.Apply(Decision(TimeUp, price, older.remaining, -1, true), ts) else older
  }

  function AgePositions(su: Setup, s: Paper, i: nat, instrument: string, ts: int): Paper
    requires i <= |s.positions|
    decreases |s.positions| - i
  {
    if i == |s.positions| then s
    else if s.positions[i].key.instrument != instrument || !s.positions[i].pos.open then
      AgePositions(su, s, i + 1, instrument, ts)
    else
      var pos := Aged(s.positions[i].pos, PriceOf(s, s.positions[i]), ts);
      AgePositions(su, Settle(su, s, i, pos), if pos.open then i + 1 else i, instrument, ts)
  }

  function OnCandleClose(su: Setup, s: Paper, instrument: string, ts: int): Paper {
    AgePositions(su, s.(arms := AgeArms(s.arms, instrument, |s.arms|)), 0, instrument, ts)
  }

  /** Force-close: the position is booked from the legs it has, without one for the rest. */
  function FlattenFrom(su: Setup, s: Paper, i: nat, instrument: Option<string>): Paper
    requires i <= |s.positions|
    decreases |s.positions| - i
  {
    if i == |s.positions| then s
    else if (instrument.Some? && s.positions[i].key.instrument != instrument.value) || !s.positions[i].pos.open then
      FlattenFrom(su, s, i + 1, instrument)
    else
      var h := s.positions[i];
      FlattenFrom(su, Close(su, s, i, h.(pos := h.pos.(open := false)), true), i, instrument)
  }

  datatype Event =
    | SignalEvent(signal: Signal)
    | TickEvent(instrument: string, bid: real, ts: int)
    | CandleEvent(instrument: string, ts: int)
    | FlattenEvent(only: Option<string>)
    | DayEvent(current: Option<int>, clock: int)

  function Step(su: Setup, s: Paper, e: Event): Paper {
    match e
    case SignalEvent(signal) => OnSignal(su, s, signal)
    case TickEvent(instrument, bid, ts) => OnTick(su, s, instrument, bid, ts)
    case CandleEvent(instrument, ts) => OnCandleClose(su, s, instrument, ts)
    case FlattenEvent(only) => FlattenFrom(su, s, 0, only)
    case DayEvent(current, clock) => s.(guard := RiskGuards.Step(s.guard, CheckReset(current, clock)))
  }

  function Run(su: Setup, s: Paper, es: seq<Event>, n: nat): Paper
    requires n <= |es|
  {
    if n == 0 then s else Step(su, Run(su, s, es, n - 1), es[n - 1])
  }

  function Idle(config: Config): Paper {
    Paper([], [], {}, map[], 0, 0, RiskGuards.Fresh(config), [])
  }
}

module PaperExecution {
  import opened Prelude
  import opened ExitEngine
  import opened RiskGuards
  import opened PositionSizing
  import opened PaperBook

  /** The executor itself; every handler is the step of the same name on its state. */
  class PaperExecutor {
    const su: Setup
    const guard: RiskGuard
    var positions: seq<Held>
    var arms: seq<Arm>
    var openKeys: set<Key>
    var lastPrice: map<string, real>
    var fills: nat
    var exits: nat
    var book: seq<Booked>

    constructor (su: Setup, config: Config)
      ensures View() == Idle(config) && this.su == su && fresh(guard)
    {
      this.su := su;
      guard := new RiskGuard(config);
      positions, arms, openKeys, lastPrice, fills, exits, book := [], [], {}, map[], 0, 0, [];
    }

    function View(): Paper
      reads this, guard
    {
      Paper(positions, arms, openKeys, lastPrice, fills, exits, guard.View(), book)
    }

    method OnSignal(signal: Signal)
      modifies this, guard
      ensures View() == PaperBook.OnSignal(su, old(View()), signal)
    {
      hide PaperBook.Fill, Guard.Checked, Guard.Tradable;
      if !su.enabled || signal.key in openKeys {
        return;
      }
      var i := ArmOf(arms, signal.key);
      if i < |arms| {
        arms := arms[i := Arm(signal, signal.expiry)];
        return;
      }
      var ok := guard.CanTrade();
      if !ok {
        return;
      }
      if signal.intrabar {
        arms := arms + [Arm(signal, signal.expiry)];
      } else {
        Fill(signal);
      }
    }

    method Fill(signal: Signal)
      modifies this, guard
      ensures View() == PaperBook.Fill(su, old(View()), signal)
    {
      hide Guard.Checked, Guard.Accepts, CalculateLotSize;
      var sizing := CalculateLotSize(su.instrument(signal.key.instrument), su.sizingBalance, su.riskPct,
                                     Abs(signal.entry - signal.plan.stop));
      if sizing.Rejected? {
        return;
      }
      var ok := guard.CheckTradeRisk(sizing.riskUsd);
      if !ok {
        return;
      }
      var pos := ExitEngine.Opened(signal.key.direction, signal.entry, signal.plan);
      positions := positions + [Held(fills, signal.key, sizing.lots, pos)];
      openKeys := openKeys + {signal.key};
      fills := fills + 1;
    }

    method ClosePosition(i: nat, h: Held, flattened: bool)
      requires i < |positions|
      modifies this, guard
      ensures View() == PaperBook.Close(su, old(View()), i, h, flattened)
    {
      hide Guard.Realized, Profit;
      var net := Net(su, h);
      guard.AddRealizedPnl(net);
      openKeys := openKeys - {h.key};
      positions := positions[..i] + positions[i + 1..];
      exits := exits + 1;
      book := book + [Booked(h, net, flattened)];
    }

    method Settle(i: nat, pos: Managed)
      requires i < |positions|
      modifies this, guard
      ensures View() == PaperBook.Settle(su, old(View()), i, pos)
    {
      hide PaperBook.Close;
      var h := positions[i].(pos := pos);
      if pos.open {
        positions := positions[i := h];
      } else {
        ClosePosition(i, h, false);
      }
    }

    method CheckArms(instrument: string, price: real)
      modifies this, guard
      ensures View() == PaperBook.CheckArms(su, old(View()), 0, instrument, price)
    {
      hide PaperBook.Fill, Guard.Checked, Guard.Tradable, Net;
      var i := 0;
      while i < |arms|
        invariant i <= |arms|
        invariant PaperBook.CheckArms(su, View(), i, instrument, price) ==
                    PaperBook.CheckArms(su, old(View()), 0, instrument, price)
        decreases |arms| - i
      {
        if arms[i].signal.key.instrument == instrument && Reached(arms[i].signal, price) {
          FillKeepsArms(su, View(), i);
          TriggerArm(i);
        } else {
          i := i + 1;
        }
      }
    }

    method TriggerArm(i: nat)
      requires i < |arms|
      modifies this, guard
      ensures View() == Trigger(su, old(View()), i)
    {
      hide PaperBook.Fill, Guard.Checked, Guard.Tradable;
      var signal := arms[i].signal;
      arms := arms[..i] + arms[i + 1..];
      if signal.key in openKeys {
        return;
      }
      var ok := guard.CanTrade();
      if !ok {
        return;
      }
      Fill(signal);
    }

    method ManagePositions(instrument: string, price: real, ts: int)
      modifies this, guard
      ensures View() == Manage(su, old(View()), 0, instrument, price, ts)
    {
      hide Net, Managed.Ticked, Guard.Realized;
      var i := 0;
      while i < |positions|
        invariant i <= |positions|
        invariant Manage(su, View(), i, instrument, price, ts) == Manage(su, old(View()), 0, instrument, price, ts)
        decreases |positions| - i
      {
        if positions[i].key.instrument != instrument || !positions[i].pos.open {
          i := i + 1;
        } else {
          var pos := positions[i].pos.Ticked(price, ts);
          Settle(i, pos);
          if pos.open {
            i := i + 1;
          }
        }
      }
    }

    method OnTick(instrument: string, bid: real, ts: int)
      modifies this, guard
      ensures View() == PaperBook.OnTick(su, old(View()), instrument, bid, ts)
    {
      hide PaperBook.CheckArms, Manage, TotalFloating, Guard.Floating;
      if bid <= 0.0 {
        return;
      }
      lastPrice := lastPrice[instrument := bid];
      CheckArms(instrument, bid);
      ManagePositions(instrument, bid, ts);
      guard.UpdateUnrealizedPnl(TotalFloating(su, View(), |positions|));
    }

    method OnCandleClose(instrument: string, ts: int)
      modifies this, guard
      ensures View() == PaperBook.OnCandleClose(su, old(View()), instrument, ts)
    {
      hide Net, Aged, Guard.Realized;
      var aged: seq<Arm> := [];
      for n := 0 to |arms|
        invariant aged == AgeArms(arms, instrument, n) && View() == old(View())
      {
        var a := arms[n];
        if a.signal.key.instrument != instrument {
          aged := aged + [a];
        } else if a.candles - 1 > 0 {
          aged := aged + [a.(candles := a.candles - 1)];
        }
      }
      arms := aged;
      ghost var start := View();
      var i := 0;
      while i < |positions|
        invariant i <= |positions|
        invariant AgePositions(su, View(), i, instrument, ts) == AgePositions(su, start, 0, instrument, ts)
        decreases |positions| - i
      {
        if positions[i].key.instrument != instrument || !positions[i].pos.open {
          i := i + 1;
        } else {
          var pos := Aged(positions[i].pos, PriceOf(View(), positions[i]), ts);
          Settle(i, pos);
          if pos.open {
            i := i + 1;
          }
        }
      }
    }

    /** `flatten_all` and `flatten_instrument`. */
    method Flatten(only: Option<string>)
      modifies this, guard
      ensures View() == FlattenFrom(su, old(View()), 0, only)
    {
      hide Close;
      var i := 0;
      while i < |positions|
        invariant i <= |positions|
        invariant FlattenFrom(su, View(), i, only) == FlattenFrom(su, old(View()), 0, only)
        decreases |positions| - i
      {
        if (only.Some? && positions[i].key.instrument != only.value) || !positions[i].pos.open {
          i := i + 1;
        } else {
          var h := positions[i];
          CloseShrinks(su, View(), i, h.(pos := h.pos.(open := false)), true);
          ClosePosition(i, h.(pos := h.pos.(open := false)), true);
        }
      }
    }
  }
}
