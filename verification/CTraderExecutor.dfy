/** The live executor of app/cfd_execution/ctrader_executor.py as a protocol: every handler is
    one atomic step, the broker decides when and how its requests end. */
module BrokerProtocol {
  import opened Prelude
  import opened ExitPlans
  import opened ExitEngine
  import opened RiskGuards
  import opened PositionSizing
  import opened PaperBook

  type Volume = x: int | x > 0 witness 1

  /** Volume step and smallest tradable volume of a symbol. */
  datatype Symbol = Symbol(step: Volume, min: Volume)

  const DONE: real := 0.000001

  /** A position the executor opened: PENDING until its opening fill, then OPEN. */
  datatype Live = Live(
    key: Key, order: int, entryVolume: Volume, pos: Managed, clientManaged: bool, requested: set<nat>, symbol: Symbol)

  /** A partial close sent to the broker for one take-profit. */
  datatype Partial = Partial(pid: nat, target: nat, volume: int)

  /** One finalised trade; `matched` if its net came from the broker's balance. */
  datatype Booking = Booking(pid: nat, net: real, matched: bool)

  /** The broker's own accounting of a close, when it could be fetched. */
  datatype Accounting = Accounting(net: real, balance: Option<real>)

  /** `pending` counts the orders sent and not yet answered, `inFlight` the full-close requests
      not yet answered, `awaiting` the finalisations waiting for the broker's accounting. */
  datatype Desk = Desk(
    positions: map<nat, Live>, openKeys: map<Key, nat>, pending: multiset<Key>, closingFull: set<nat>,
    inFlight: multiset<nat>, awaiting: multiset<nat>, partials: seq<Partial>,
    entries: nat, closes: nat, lastReal: Option<real>, guard: Guard, log: seq<Booking>)

  // ----- volumes -----

  function StepVolume(k: int, step: Volume): int { k * step }

  ghost predicate WholeSteps(volume: int, step: Volume) {
    exists k: int :: volume == StepVolume(k, step)
  }

  function RoundVolume(symbol: Symbol, volume: real): int {
    RoundHalfEven(volume / symbol.step as real) * symbol.step
  }

  function VolumeOf(fraction: real, volume: Volume): real { fraction * volume as real }

  function RemainingVolume(l: Live): int {
    RoundVolume(l.symbol, VolumeOf(l.pos.remaining, l.entryVolume))
  }

  /** Volume of a fraction of the original position, within the remainder; the whole remainder
      if the fraction is too small to trade but covers it. */
  function FractionVolume(l: Live, fraction: real): int {
    var left := RemainingVolume(l);
    var want := RoundVolume(l.symbol, VolumeOf(fraction, l.entryVolume));
    var capped := if want < left then want else left;
    if capped >= l.symbol.min then capped
    else if left >= l.symbol.min && fraction >= l.pos.remaining - DUST then left
    else 0
  }

  // ----- steps -----

  /** What an entry is sized from. */
  datatype Ticket = Ticket(inst: Instrument, balance: real, riskPct: real, slDistance: real) {
    function Size(): Sizing { CalculateLotSize(inst, balance, riskPct, slDistance) }
  }

  /** The entry has a size and the risk guard accepts what it risks. */
  predicate Takes(g: Guard, ticket: Ticket) { ticket.Size().Sized? && g.Accepts(ticket.Size().riskUsd) }

  /** An entry is sent unless its key is open or it is not taken. The key itself is not taken yet. */
  function Submit(s: Desk, key: Key, ticket: Ticket): Desk {
    if key in s.openKeys then s
    else
      var checked := s.(guard := s.guard.Checked());
      if Takes(s.guard, ticket) then checked.(pending := s.pending + multiset{key}) else checked
  }

  /** An order that failed, was rejected or never left. */
  function Refuse(s: Desk, key: Key): Desk { s.(pending := s.pending - multiset{key}) }

  /** An accepted order, registered under its key once the broker has answered it. */
  function Register(s: Desk, pid: nat, l: Live): Desk {
    s.(positions := s.positions[pid := l], openKeys := s.openKeys[l.key := pid], pending := s.pending - multiset{l.key},
       entries := s.entries + 1)
  }

  function Classify(p: Managed, price: real): ExitReason {
    if p.direction.Gain(p.stop, price) <= DUST then
      if Abs(p.stop - p.plan.stop) > DUST then TrailingStop else StopLoss
    else if exists i :: 0 <= i < |p.plan.tps| && p.direction.Gain(p.plan.tps[i].price, price) >= -DUST then TargetHit
    else Manual
  }

  predicate IsOpening(l: Live, order: int) { !l.pos.open && order == l.order }

  /** The opening fill fixes the entry price and, if reported, the volume. */
  function OpeningFill(l: Live, price: real, volume: Option<int>): Live {
    l.(pos := l.pos.(entry := price, open := true),
       entryVolume := if volume.Some? && volume.value > 0 then volume.value else l.entryVolume)
  }

  /** The fraction a close fill took off: never more than what remains; an unknown volume
      means it closed the rest. */
  function FilledFraction(l: Live, volume: Option<int>): real {
    if volume.Some? && volume.value != 0 then Min(volume.value as real / l.entryVolume as real, l.pos.remaining)
    else l.pos.remaining
  }

  function CloseFill(l: Live, price: real, fraction: real, ts: int): Live {
    l.(pos := l.pos.(legs := l.pos.legs + [Leg(price, fraction, Classify(l.pos, price), ts)],
                     remaining := l.pos.remaining - fraction))
  }

  /** An ORDER_FILLED event; a position with nothing left starts its finalisation. */
  function OnFill(s: Desk, pid: nat, order: int, price: real, volume: Option<int>, ts: int): Desk {
    if pid !in s.positions then s
    else
      var l := s.positions[pid];
      if IsOpening(l, order) then s.(positions := s.positions[pid := OpeningFill(l, price, volume)])
      else
        var fraction := FilledFraction(l, volume);
        if fraction <= 0.0 then s
        else
          var l1 := CloseFill(l, price, fraction, ts);
          s.(positions := s.positions[pid := l1],
             awaiting := if l1.pos.remaining <= DONE then s.awaiting + multiset{pid} else s.awaiting)
  }

  /** Close requests for the client-managed targets from the `i`-th on that a price reaches. */
  function RequestTargets(s: Desk, pid: nat, i: nat, price: real): Desk
    requires pid in s.positions && i <= |s.positions[pid].pos.plan.tps|
    decreases |s.positions[pid].pos.plan.tps| - i
  {
    var l := s.positions[pid];
    if i == |l.pos.plan.tps| then s
    else if i in l.requested || !l.pos.TargetReached(i, price, price) then RequestTargets(s, pid, i + 1, price)
    else
      var volume := FractionVolume(l, l.pos.plan.tps[i].fraction);
      var noted := s.(positions := s.positions[pid := l.(requested := l.requested + {i})]);
      RequestTargets(if volume <= 0 then noted else noted.(partials := s.partials + [Partial(pid, i, volume)]),
                     pid, i + 1, price)
  }

  /** One open position's share of a tick. */
  function Priced(s: Desk, pid: nat, price: real): Desk {
    if pid !in s.positions || !s.positions[pid].pos.open then s
    else
      var l := s.positions[pid];
      var moved := s.(positions := s.positions[pid := l.(pos := l.pos.Excursed(price).Restopped())]);
      if l.clientManaged then RequestTargets(moved, pid, 0, price) else moved
  }

  /** Whether a full close may be requested: open, none requested before, some volume left. */
  predicate Closable(s: Desk, pid: nat) {
    pid in s.positions && s.positions[pid].pos.open && pid !in s.closingFull && RemainingVolume(s.positions[pid]) > 0
  }

  function RequestFullClose(s: Desk, pid: nat): Desk {
    if Closable(s, pid) then s.(closingFull := s.closingFull + {pid}, inFlight := s.inFlight + multiset{pid}) else s
  }

  /** One open position's share of a completed candle: age, and close at the time-stop. */
  function Candle(s: Desk, pid: nat): Desk {
    if pid !in s.positions || !s.positions[pid].pos.open then s
    else
      var l := s.positions[pid];
      var older := l.(pos := l.pos.(bars := l.pos.bars + 1));
      var s1 := s.(positions := s.positions[pid := older]);
      if older.pos.TimeStopDue() then RequestFullClose(s1, pid) else s1
  }

  /** The broker's answer to a full-close request; a failure releases the guard. */
  function Answered(s: Desk, pid: nat, ok: bool): Desk {
    s.(inFlight := s.inFlight - multiset{pid}, closingFull := if ok then s.closingFull else s.closingFull - {pid})
  }

  /** Net result: the balance delta, else the broker's sum, else the modelled cost. */
  function NetOf(s: Desk, accounting: Option<Accounting>, modelled: real): real {
    if accounting.None? then modelled
    else if accounting.value.balance.Some? && s.lastReal.Some? then accounting.value.balance.value - s.lastReal.value
    else accounting.value.net
  }

  /** Book the net result and remember the broker's balance. */
  function BookNet(s: Desk, pid: nat, accounting: Option<Accounting>, modelled: real): Desk {
    var net := NetOf(s, accounting, modelled);
    var hasBalance := accounting.Some? && accounting.value.balance.Some?;
    s.(lastReal := if hasBalance then accounting.value.balance else s.lastReal, guard := s.guard.Realized(net),
       log := s.log + [Booking(pid, net, hasBalance && s.lastReal.Some?)], closes := s.closes + 1)
  }

  function FreeKey(s: Desk, pid: nat): Desk {
    if pid in s.positions then s.(openKeys := s.openKeys - {s.positions[pid].key}) else s
  }

  function Leave(s: Desk, pid: nat): Desk {
    s.(positions := s.positions - {pid}, closingFull := s.closingFull - {pid}, awaiting := s.awaiting - multiset{pid})
  }

  /** Forget everything kept for a position, and free its key. */
  function Forget(s: Desk, pid: nat): Desk { Leave(FreeKey(s, pid), pid) }

  function Finalize(s: Desk, pid: nat, accounting: Option<Accounting>, modelled: real): Desk {
    Forget(BookNet(s, pid, accounting, modelled), pid)
  }

  predicate Matches(s: Desk, pid: nat, only: Option<string>) {
    pid in s.positions && (only.None? || s.positions[pid].key.instrument == only.value)
  }

  /** `flatten_all` and `flatten_instrument`: one full close per closable position. */
  function Flattened(s: Desk, only: Option<string>): set<nat> {
    set pid | pid in s.positions && Closable(s, pid) && Matches(s, pid, only)
  }

  function Requested(s: Desk, pids: set<nat>): Desk {
    s.(closingFull := s.closingFull + pids, inFlight := s.inFlight + multiset(pids))
  }

  function FlattenAll(s: Desk, only: Option<string>): Desk {
    Requested(s, Flattened(s, only))
  }

  datatype Event =
    | Submitted(key: Key, ticket: Ticket)
    | Refused(key: Key)
    | Registered(pid: nat, live: Live)
    | Filled(pid: nat, order: int, price: real, volume: Option<int>, ts: int)
    | PriceUpdate(pid: nat, price: real)
    | CandleClosed(pid: nat)
    | Flatten(only: Option<string>)
    | CloseAnswered(pid: nat, ok: bool)
    | Finalized(pid: nat, accounting: Option<Accounting>, modelled: real)
    | FloatingUpdate(pnl: real)
    | DayCheck(current: Option<int>, clock: int)

  function Step(s: Desk, e: Event): Desk {
    match e
    case Submitted(key, ticket) => Submit(s, key, ticket)
    case Refused(key) => Refuse(s, key)
    case Registered(pid, l) => Register(s, pid, l)
    case Filled(pid, order, price, volume, ts) => OnFill(s, pid, order, price, volume, ts)
    case PriceUpdate(pid, price) => Priced(s, pid, price)
    case CandleClosed(pid) => Candle(s, pid)
    case Flatten(only) => FlattenAll(s, only)
    case CloseAnswered(pid, ok) => Answered(s, pid, ok)
    case Finalized(pid, accounting, modelled) => Finalize(s, pid, accounting, modelled)
    case FloatingUpdate(pnl) => s.(guard := s.guard.Floating(pnl))
    case DayCheck(current, clock) => s.(guard := RiskGuards.Step(s.guard, CheckReset(current, clock)))
  }

  function Run(s: Desk, es: seq<Event>, n: nat): Desk
    requires n <= |es|
  {
    if n == 0 then s else Step(Run(s, es, n - 1), es[n - 1])
  }

  /** Started with the real balance, when it could be read. */
  function Started(config: Config, balance: Option<real>): Desk {
    var g := RiskGuards.Fresh(config);
    Desk(map[], map[], multiset{}, {}, multiset{}, multiset{}, [], 0, 0, balance,
         if balance.Some? then g.Based(balance.value) else g, [])
  }

  /** What may happen next. A registered id was never used before; its volume is a whole number
      of steps, fewer than a million; the opening fill precedes every close fill; filled
      volumes are whole steps; only outstanding requests are answered. */
  ghost predicate Possible(s: Desk, e: Event) {
    match e
    case Refused(key) => s.pending[key] > 0
    case Registered(pid, l) =>
      && s.pending[l.key] > 0
      && pid !in s.positions && s.awaiting[pid] == 0 && s.inFlight[pid] == 0 && pid !in s.closingFull
      && (forall b :: b in s.log ==> b.pid != pid) && (forall r :: r in s.partials ==> r.pid != pid)
      && NewLive(l)
    case Filled(pid, order, _, volume, _) =>
      pid in s.positions ==>
        var l := s.positions[pid];
        && (IsOpening(l, order) || l.pos.open)
        && (volume.Some? ==> volume.value >= 0 && WholeSteps(volume.value, l.symbol.step)
                             && (IsOpening(l, order) ==> volume.value < 1_000_000 * l.symbol.step))
    case CloseAnswered(pid, _) => s.inFlight[pid] > 0
    case Finalized(pid, _, _) => s.awaiting[pid] > 0
    case _ => true
  }

  ghost predicate NewLive(l: Live) {
    && !l.pos.open && l.pos.legs == [] && l.pos.remaining == 1.0 && l.requested == {}
    && WholeSteps(l.entryVolume, l.symbol.step) && l.entryVolume < 1_000_000 * l.symbol.step
  }
}

module BrokerExecution {
  import opened Prelude
  import opened ExitEngine
  import opened RiskGuards
  import opened PaperBook
  import opened BrokerProtocol

  /** The executor's own state; requests to the broker are recorded as they are sent. */
  class CTraderExecutor {
    const guard: RiskGuard
    var positions: map<nat, Live>
    var openKeys: map<Key, nat>
    var pending: multiset<Key>
    var closingFull: set<nat>
    var inFlight: multiset<nat>
    var awaiting: multiset<nat>
    var partials: seq<Partial>
    var entries: nat
    var closes: nat
    var lastReal: Option<real>
    var log: seq<Booking>

    constructor (config: Config, balance: Option<real>)
      ensures View() == Started(config, balance) && fresh(guard)
    {
      var g := new RiskGuard(config);
      if balance.Some? {
        g.SeedBalance(balance.value);
      }
      guard := g;
      positions, openKeys, pending, closingFull := map[], map[], multiset{}, {};
      inFlight, awaiting := multiset{}, multiset{};
      partials, entries, closes, lastReal, log := [], 0, 0, balance, [];
    }

    function View(): Desk
      reads this, guard
    {
      Desk(positions, openKeys, pending, closingFull, inFlight, awaiting, partials, entries, closes, lastReal,
           guard.View(), log)
    }

    /** The entry tests, and the order on its way; whether one was sent. */
    method SubmitEntry(key: Key, ticket: Ticket) returns (sent: bool)
      modifies this`pending, guard
      ensures View() == Submit(old(View()), key, ticket)
      ensures sent <==> key !in openKeys && Takes(old(guard.View()), ticket)
    {
      hide Guard.Checked, Guard.Accepts, Guard.Tradable, Ticket.Size;
      ghost var g := guard.View();
      CheckedTwice(g);
      AcceptsWhenTradable(g, ticket);
      if key in openKeys {
        return false;
      }
      sent := guard.CanTrade();
      if !sent {
        return;
      }
      var sizing := ticket.Size();
      if sizing.Rejected? {
        return false;
      }
      sent := guard.CheckTradeRisk(sizing.riskUsd);
      if sent {
        pending := pending + multiset{key};
      }
    }

    static lemma {:induction false} CheckedTwice(g: Guard)
      ensures g.Checked().Checked() == g.Checked() && forall risk: real :: g.Checked().Accepts(risk) == g.Accepts(risk)
    {
    }

    static lemma {:induction false} AcceptsWhenTradable(g: Guard, ticket: Ticket)
      ensures Takes(g, ticket) ==> g.Tradable()
    {
    }

    method OrderRefused(key: Key)
      modifies this`pending
      ensures View() == Refuse(old(View()), key)
    {
      pending := pending - multiset{key};
    }

    method RegisterOrder(pid: nat, l: Live)
      modifies this
      ensures View() == Register(old(View()), pid, l)
    {
      ghost var s := View();
      positions := positions[pid := l];
      assert View() == s.(positions := s.positions[pid := l]);
      openKeys := openKeys[l.key := pid];
      assert View() == s.(positions := s.positions[pid := l], openKeys := s.openKeys[l.key := pid]);
      pending := pending - multiset{l.key};
      assert View() == s.(positions := s.positions[pid := l], openKeys := s.openKeys[l.key := pid],
                          pending := s.pending - multiset{l.key});
      entries := entries + 1;
    }

    /** Whether the fill emptied the position, so that it must be finalised. */
    method HandleExecution(pid: nat, order: int, price: real, volume: Option<int>, ts: int) returns (toFinalize: bool)
      modifies this
      ensures View() == OnFill(old(View()), pid, order, price, volume, ts)
      ensures toFinalize <==> awaiting != old(awaiting)
    {
      hide Classify;
      toFinalize := false;
      if pid !in positions {
        return;
      }
      var l := positions[pid];
      if !l.pos.open && order == l.order {
        positions := positions[pid := OpeningFill(l, price, volume)];
        return;
      }
      var fraction := FilledFraction(l, volume);
      if fraction <= 0.0 {
        return;
      }
      var l1 := CloseFill(l, price, fraction, ts);
      positions := positions[pid := l1];
      if l1.pos.remaining <= DONE {
        awaiting := awaiting + multiset{pid};
        toFinalize := true;
        assert awaiting[pid] == old(awaiting)[pid] + 1;
      }
    }

    method CheckClientTps(pid: nat, price: real)
      requires pid in positions
      modifies this
      ensures View() == RequestTargets(old(View()), pid, 0, price)
    {
      hide FractionVolume, Managed.TargetReached;
      var tps := positions[pid].pos.plan.tps;
      for i := 0 to |tps|
        invariant pid in positions && positions[pid].pos.plan.tps == tps
        invariant RequestTargets(View(), pid, i, price) == RequestTargets(old(View()), pid, 0, price)
      {
        var l := positions[pid];
        var reached := if l.pos.direction.Long? then price >= tps[i].price else price <= tps[i].price;
        assert reached == l.pos.TargetReached(i, price, price) by { ReachedIs(l.pos, i, price); }
        if i !in l.requested && reached {
          positions := positions[pid := l.(requested := l.requested + {i})];
          var volume := FractionVolume(l, tps[i].fraction);
          if volume > 0 {
            partials := partials + [Partial(pid, i, volume)];
          }
        }
      }
    }

    static lemma {:induction false} ReachedIs(p: Managed, i: nat, price: real)
      requires i < |p.plan.tps|
      ensures p.TargetReached(i, price, price) <==>
                if p.direction.Long? then price >= p.plan.tps[i].price else price <= p.plan.tps[i].price
    {
    }

    method OnPrice(pid: nat, price: real)
      modifies this
      ensures View() == Priced(old(View()), pid, price)
    {
      hide RequestTargets, Managed.Restopped;
      if pid !in positions || !positions[pid].pos.open {
        return;
      }
      var l := positions[pid];
      positions := positions[pid := l.(pos := l.pos.Excursed(price).Restopped())];
      if l.clientManaged {
        CheckClientTps(pid, price);
      }
    }

    /** A time-stop request: guarded, and skipped without a resolvable volume. */
    method RunTimeStop(pid: nat)
      modifies this
      ensures View() == RequestFullClose(old(View()), pid)
    {
      if pid in positions && positions[pid].pos.open && pid !in closingFull {
        var volume := RemainingVolume(positions[pid]);
        if volume > 0 {
          closingFull := closingFull + {pid};
          inFlight := inFlight + multiset{pid};
        }
      }
    }

    method OnCandle(pid: nat)
      modifies this
      ensures View() == Candle(old(View()), pid)
    {
      hide RequestFullClose;
      if pid !in positions || !positions[pid].pos.open {
        return;
      }
      var l := positions[pid];
      var older := l.(pos := l.pos.(bars := l.pos.bars + 1));
      positions := positions[pid := older];
      if older.pos.TimeStopDue() {
        RunTimeStop(pid);
      }
    }

    /** Schedule a full close for every closable position; how many were scheduled. */
    method ScheduleFullCloses(only: Option<string>) returns (scheduled: nat)
      modifies this
      ensures View() == FlattenAll(old(View()), only)
      ensures scheduled == |Flattened(old(View()), only)|
    {
      hide Closable, Matches, Requested;
      ghost var start := View();
      var todo := positions.Keys;
      var done: set<nat> := {};
      NoneRequested(start);
      while todo != {}
        invariant todo <= start.positions.Keys && done !! todo
        invariant forall pid :: pid in done <==>
                  pid in start.positions && pid !in todo && Closable(start, pid) && Matches(start, pid, only)
        invariant View() == Requested(start, done)
        decreases |todo|
      {
        var pid :| pid in todo;
        StillClosable(start, pid, done);
        if Closable(View(), pid) && Matches(View(), pid, only) {
          Request(pid);
          done := done + {pid};
        }
        todo := todo - {pid};
      }
      assert done == Flattened(start, only);
      scheduled := |done|;
    }

    method Request(pid: nat)
      modifies this
      ensures View() == Requested(old(View()), {pid})
    {
      closingFull := closingFull + {pid};
      inFlight := inFlight + multiset{pid};
      assert multiset({pid}) == multiset{pid};
    }

    static lemma {:induction false} NoneRequested(s: Desk)
      ensures Requested(s, {}) == s
    {
      assert s.closingFull + {} == s.closingFull && s.inFlight + multiset({}) == s.inFlight;
    }

    /** Requests for other positions leave this one as closable as it was, and add up. */
    static lemma {:induction false} StillClosable(s: Desk, pid: nat, done: set<nat>)
      requires pid !in done
      ensures var t := Requested(s, done);
              && (Closable(t, pid) <==> Closable(s, pid))
              && (forall only :: Matches(t, pid, only) <==> Matches(s, pid, only))
              && Requested(t, {pid}) == Requested(s, done + {pid})
    {
      assert multiset(done) + multiset({pid}) == multiset(done + {pid});
      assert s.inFlight + multiset(done) + multiset({pid}) == s.inFlight + multiset(done + {pid});
      assert s.closingFull + done + {pid} == s.closingFull + (done + {pid});
    }

    /** The completion of a full-close request: a failure releases the guard for a retry. */
    method FullCloseDone(pid: nat, ok: bool)
      modifies this
      ensures View() == Answered(old(View()), pid, ok)
    {
      inFlight := inFlight - multiset{pid};
      if !ok {
        closingFull := closingFull - {pid};
      }
    }

    /** The net to book, preferring the balance delta, and the balance to remember. */
    method Reconcile(accounting: Option<Accounting>, modelled: real) returns (net: real, matched: bool)
      modifies this`lastReal
      ensures net == NetOf(old(View()), accounting, modelled)
      ensures matched <==> accounting.Some? && accounting.value.balance.Some? && old(lastReal).Some?
      ensures lastReal == if accounting.Some? && accounting.value.balance.Some? then accounting.value.balance
                          else old(lastReal)
    {
      net, matched := modelled, false;
      if accounting.Some? {
        var balance := accounting.value.balance;
        if balance.Some? && lastReal.Some? {
          net, matched := balance.value - lastReal.value, true;
        } else {
          net := accounting.value.net;
        }
        if balance.Some? {
          lastReal := balance;
        }
      }
    }

    method Record(pid: nat, accounting: Option<Accounting>, modelled: real)
      modifies this, guard
      ensures View() == BookNet(old(View()), pid, accounting, modelled)
    {
      hide Guard.Realized, NetOf;
      ghost var s := View();
      var net, matched := Reconcile(accounting, modelled);
      assert View() == s.(lastReal := lastReal);
      guard.AddRealizedPnl(net);
      assert View() == s.(lastReal := lastReal, guard := s.guard.Realized(net));
      closes := closes + 1;
      log := log + [Booking(pid, net, matched)];
    }

    method Cleanup(pid: nat)
      modifies this
      ensures View() == Forget(old(View()), pid)
    {
      hide FreeKey, Leave;
      ReleaseKey(pid);
      LeaveDesk(pid);
    }

    method ReleaseKey(pid: nat)
      modifies this`openKeys
      ensures View() == FreeKey(old(View()), pid)
    {
      if pid in positions {
        openKeys := openKeys - {positions[pid].key};
      }
    }

    method LeaveDesk(pid: nat)
      modifies this`positions, this`closingFull, this`awaiting
      ensures View() == Leave(old(View()), pid)
    {
      ghost var s := View();
      positions := positions - {pid};
      assert View() == s.(positions := s.positions - {pid});
      closingFull := closingFull - {pid};
      assert View() == s.(positions := s.positions - {pid}, closingFull := s.closingFull - {pid});
      awaiting := awaiting - multiset{pid};
    }

    method FinalizeClose(pid: nat, accounting: Option<Accounting>, modelled: real)
      modifies this, guard
      ensures View() == Finalize(old(View()), pid, accounting, modelled)
    {
      hide BookNet, Forget;
      Record(pid, accounting, modelled);
      Cleanup(pid);
    }
  }
}
