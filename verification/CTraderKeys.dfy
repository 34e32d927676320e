/** The dedup keys of the live executor. A key is taken only when the broker has answered the
    order, so a second order of the same key can already be on its way. */
module BrokerKeys {
  import opened Prelude
  import opened ExitPlans
  import opened ExitEngine
  import opened RiskGuards
  import opened PositionSizing
  import opened PaperBook
  import opened BrokerProtocol

  /** Every live position holds its key. */
  ghost predicate KeysHeld(s: Desk) {
    forall pid :: pid in s.positions ==> s.positions[pid].key in s.openKeys && s.openKeys[s.positions[pid].key] == pid
  }

  /** No order on its way has a key that is taken. */
  ghost predicate PendingFree(s: Desk) {
    forall key :: s.pending[key] > 0 ==> key !in s.openKeys
  }

  ghost predicate AtMostPending(s: Desk, m: nat) {
    forall key :: s.pending[key] <= m
  }

  /** The run from the start is possible, and never sends an order while `m` orders of the same
      key are unanswered. */
  ghost predicate Patient(s0: Desk, es: seq<BrokerProtocol.Event>, m: nat) {
    forall i :: 0 <= i < |es| ==>
      && Possible(BrokerProtocol.Run(s0, es, i), es[i])
      && (es[i].Submitted? ==> BrokerProtocol.Run(s0, es, i).pending[es[i].key] < m)
  }

  // ----- one step -----

  /** Live positions keep their identity and key. */
  ghost predicate SameKeys(s: Desk, t: Desk) {
    && t.openKeys == s.openKeys && t.pending == s.pending && t.positions.Keys == s.positions.Keys
    && forall pid :: pid in s.positions ==> t.positions[pid].key == s.positions[pid].key
  }

  lemma {:induction false} TargetsKeepKeys(s: Desk, pid: nat, i: nat, price: real)
    requires pid in s.positions && i <= |s.positions[pid].pos.plan.tps|
    ensures SameKeys(s, RequestTargets(s, pid, i, price))
    decreases |s.positions[pid].pos.plan.tps| - i
  {
    hide FractionVolume, Managed.TargetReached;
    var l := s.positions[pid];
    if i < |l.pos.plan.tps| {
      if i in l.requested || !l.pos.TargetReached(i, price, price) {
        TargetsKeepKeys(s, pid, i + 1, price);
      } else {
        var volume := FractionVolume(l, l.pos.plan.tps[i].fraction);
        var noted := s.(positions := s.positions[pid := l.(requested := l.requested + {i})]);
        TargetsKeepKeys(if volume <= 0 then noted else noted.(partials := s.partials + [Partial(pid, i, volume)]),
                        pid, i + 1, price);
      }
    }
  }

  lemma {:induction false} PriceKeepsKeys(s: Desk, pid: nat, price: real)
    ensures SameKeys(s, Priced(s, pid, price))
  {
    hide RequestTargets, Managed.Restopped, Managed.Excursed;
    if pid in s.positions && s.positions[pid].pos.open && s.positions[pid].clientManaged {
      var l := s.positions[pid];
      TargetsKeepKeys(s.(positions := s.positions[pid := l.(pos := l.pos.Excursed(price).Restopped())]), pid, 0, price);
    }
  }

  lemma {:induction false} FillKeepsKeys(s: Desk, pid: nat, order: int, price: real, volume: Option<int>, ts: int)
    ensures SameKeys(s, OnFill(s, pid, order, price, volume, ts))
  {
    hide FilledFraction, Classify;
  }

  lemma {:induction false} CandleKeepsKeys(s: Desk, pid: nat)
    ensures SameKeys(s, Candle(s, pid))
  {
    hide Closable;
  }

  /** Every event but sending, answering and finalising leaves the keys alone. */
  lemma {:induction false} OthersKeepKeys(s: Desk, e: BrokerProtocol.Event)
    requires !e.Submitted? && !e.Refused? && !e.Registered? && !e.Finalized?
    ensures SameKeys(s, BrokerProtocol.Step(s, e))
  {
    hide OnFill, Priced, Candle, Flattened, Guard.Floating, RiskGuards.Step, Finalize;
    match e
    case Filled(pid, order, price, volume, ts) => FillKeepsKeys(s, pid, order, price, volume, ts);
    case PriceUpdate(pid, price) => PriceKeepsKeys(s, pid, price);
    case CandleClosed(pid) => CandleKeepsKeys(s, pid);
    case _ =>
  }

  lemma {:induction false} FinalizeFreesKey(s: Desk, pid: nat, accounting: Option<Accounting>, modelled: real)
    requires KeysHeld(s)
    ensures var t := Finalize(s, pid, accounting, modelled);
            && KeysHeld(t) && t.pending == s.pending && t.openKeys.Keys <= s.openKeys.Keys
            && (pid in s.positions ==> s.positions[pid].key !in t.openKeys)
  {
    hide NetOf, Guard.Realized;
  }

  /** Registering keeps every key with its position exactly when no live position has it. */
  lemma {:induction false} RegisterAndKeys(s: Desk, pid: nat, l: Live)
    requires KeysHeld(s) && pid !in s.positions
    ensures KeysHeld(Register(s, pid, l)) <==> forall other :: other in s.positions ==> s.positions[other].key != l.key
  {
    var t := Register(s, pid, l);
    if KeysHeld(t) {
      forall other | other in s.positions ensures s.positions[other].key != l.key {
        assert other in t.positions && t.openKeys[t.positions[other].key] == other;
      }
    }
  }

  lemma {:induction false} SubmitKeepsKeys(s: Desk, key: Key, ticket: Ticket)
    requires KeysHeld(s) && PendingFree(s) && AtMostPending(s, 1) && s.pending[key] < 1
    ensures var t := Submit(s, key, ticket); KeysHeld(t) && PendingFree(t) && AtMostPending(t, 1)
  {
    hide Takes, Guard.Checked;
  }

  lemma {:induction false} RegisterKeepsKeys(s: Desk, pid: nat, l: Live)
    requires KeysHeld(s) && PendingFree(s) && AtMostPending(s, 1) && pid !in s.positions && s.pending[l.key] > 0
    ensures var t := Register(s, pid, l); KeysHeld(t) && PendingFree(t) && AtMostPending(t, 1)
  {
    RegisterAndKeys(s, pid, l);
  }

  lemma {:induction false} OneOrderStep(s: Desk, e: BrokerProtocol.Event)
    requires KeysHeld(s) && PendingFree(s) && AtMostPending(s, 1) && Possible(s, e)
    requires e.Submitted? ==> s.pending[e.key] < 1
    ensures var t := BrokerProtocol.Step(s, e); KeysHeld(t) && PendingFree(t) && AtMostPending(t, 1)
  {
    hide NewLive, Submit, Register, Finalize, OnFill, Priced, Candle, FlattenAll, Answered, Guard.Floating,
      RiskGuards.Step;
    match e
    case Submitted(key, ticket) => SubmitKeepsKeys(s, key, ticket);
    case Registered(pid, l) => RegisterKeepsKeys(s, pid, l);
    case Finalized(pid, accounting, modelled) => FinalizeFreesKey(s, pid, accounting, modelled);
    case Refused(key) =>
    case _ => OthersKeepKeys(s, e);
  }

  // ----- whole runs -----

  /** As long as no key is submitted while an order for it is unanswered, every live position
      holds its key and at most one order per key is on its way. */
  lemma {:induction false} OneOrderHoldsKeys(config: Config, balance: real, es: seq<BrokerProtocol.Event>, m: nat,
        n: nat)
    requires n <= |es| && m <= 1 && Patient(Started(config, Some(balance)), es, m)
    ensures var s := BrokerProtocol.Run(Started(config, Some(balance)), es, n);
            KeysHeld(s) && PendingFree(s) && AtMostPending(s, 1)
  {
    hide KeysHeld, PendingFree, AtMostPending, Possible, BrokerProtocol.Step;
    var s0 := Started(config, Some(balance));
    if n == 0 {
      NoKeys(config, balance);
    } else {
      OneOrderHoldsKeys(config, balance, es, m, n - 1);
      OneOrderStep(BrokerProtocol.Run(s0, es, n - 1), es[n - 1]);
    }
  }

  lemma {:induction false} NoKeys(config: Config, balance: real)
    ensures var s := Started(config, Some(balance)); KeysHeld(s) && PendingFree(s) && AtMostPending(s, 1)
  {
  }

  const KEY := Key("s", "v", "XAUUSD", Long)

  const PLAN := ExitPlan(Long, 10.0, 5.0, [TakeProfit(30.0, 1.0)], 2.0, None)

  /** A pending position of three volume units. */
  function Twin(key: Key, order: int): Live {
    Live(key, order, 3, Opened(Long, 10.0, PLAN).(open := false), false, {}, Symbol(1, 1))
  }

  lemma {:induction false} TwinIsNew(key: Key, order: int)
    ensures NewLive(Twin(key, order))
  {
    assert 3 == StepVolume(3, 1);
  }

  /** The started account takes this entry. */
  predicate StartTakes(config: Config, balance: real, ticket: Ticket) {
    Takes(Started(config, Some(balance)).guard, ticket)
  }

  /** Ten thousand, one percent a trade, a stop ten points away. */
  lemma {:induction false} SomeAccountTakes()
    ensures StartTakes(Config(10_000.0, 5.0, 10.0, 0, 0, 0, 1.0, 3.0), 10_000.0,
                       Ticket(Instrument(1.0, 0.01, 100.0, 0.01), 10_000.0, 1.0, 10.0))
  {
    assert Budget(10_000.0, 1.0) == 100.0;
    assert 100.0 / 10.0 / 0.01 == 1000.0;
    assert Steps(1000, 0.01) == 10.0;
  }

  /** Two signals, and the broker's answers to both. */
  function TwoSignals(first: Key, second: Key, ticket: Ticket): seq<BrokerProtocol.Event> {
    [Submitted(first, ticket), Submitted(second, ticket), Registered(0, Twin(first, 7)), Registered(1, Twin(second, 8))]
  }

  lemma {:induction false} RunNext(s0: Desk, es: seq<BrokerProtocol.Event>, i: nat, s: Desk, t: Desk)
    requires i < |es| && BrokerProtocol.Run(s0, es, i) == s && BrokerProtocol.Step(s, es[i]) == t
    ensures BrokerProtocol.Run(s0, es, i + 1) == t
  {
  }

  /** An entry the guard takes goes out and changes nothing else. */
  lemma {:induction false} Sends(s: Desk, key: Key, ticket: Ticket)
    requires key !in s.openKeys && Takes(s.guard, ticket)
    ensures Possible(s, Submitted(key, ticket))
    ensures BrokerProtocol.Step(s, Submitted(key, ticket)) == s.(pending := s.pending + multiset{key})
  {
    hide Ticket.Size;
  }

  lemma {:induction false} SendBoth(s: Desk, first: Key, second: Key, ticket: Ticket)
    requires s.openKeys == map[] && s.pending == multiset{} && Takes(s.guard, ticket)
    ensures Possible(s, Submitted(first, ticket)) && Possible(s.(pending := multiset{first}), Submitted(second, ticket))
    ensures var s1 := BrokerProtocol.Step(s, Submitted(first, ticket));
            && s1 == s.(pending := multiset{first})
            && BrokerProtocol.Step(s1, Submitted(second, ticket)) == s.(pending := multiset{first, second})
  {
    hide Takes, Submit, Possible;
    Sends(s, first, ticket);
    assert s.pending + multiset{first} == multiset{first};
    Sends(s.(pending := multiset{first}), second, ticket);
    assert multiset{first} + multiset{second} == multiset{first, second};
  }

  /** An order answered while its key is pending takes the key. */
  lemma {:induction false} OrderAnswered(s: Desk, pid: nat, l: Live)
    requires NewLive(l) && s.pending[l.key] > 0 && s.partials == []
    requires pid !in s.positions && forall b :: b in s.log ==> b.pid != pid
    requires s.awaiting == multiset{} && s.inFlight == multiset{} && s.closingFull == {}
    ensures Possible(s, Registered(pid, l))
    ensures BrokerProtocol.Step(s, Registered(pid, l)) ==
              s.(positions := s.positions[pid := l], openKeys := s.openKeys[l.key := pid],
                 pending := s.pending - multiset{l.key}, entries := s.entries + 1)
  {
    hide NewLive;
  }

  lemma {:induction false} TwinAnswered(s: Desk, pid: nat, key: Key, order: int)
    requires s.pending[key] > 0 && pid !in s.positions && (forall b :: b in s.log ==> b.pid != pid) && s.partials == []
    requires s.awaiting == multiset{} && s.inFlight == multiset{} && s.closingFull == {}
    ensures Possible(s, Registered(pid, Twin(key, order)))
    ensures BrokerProtocol.Step(s, Registered(pid, Twin(key, order))) ==
              s.(positions := s.positions[pid := Twin(key, order)], openKeys := s.openKeys[key := pid],
                 pending := s.pending - multiset{key}, entries := s.entries + 1)
  {
    hide NewLive, Twin, Possible, BrokerProtocol.Step;
    TwinIsNew(key, order);
    TwinKey(key, order);
    OrderAnswered(s, pid, Twin(key, order));
  }

  /** Both positions live, as the two answers leave them. */
  function Twins(s0: Desk, first: Key, second: Key): Desk {
    s0.(positions := map[0 := Twin(first, 7), 1 := Twin(second, 8)], openKeys := map[first := 0][second := 1],
        entries := 2)
  }

  /** Nothing has happened yet. */
  ghost predicate Empty(s: Desk) {
    && s.positions == map[] && s.openKeys == map[] && s.pending == multiset{} && s.closingFull == {}
    && s.entries == 0 && s.inFlight == s.awaiting == multiset{} && s.partials == [] && s.log == []
  }

  /** One answered, the other still on its way. */
  function OneTwin(s0: Desk, first: Key, second: Key): Desk {
    s0.(positions := map[0 := Twin(first, 7)], openKeys := map[first := 0], pending := multiset{second}, entries := 1)
  }

  lemma {:induction false} BothAnswered(s0: Desk, first: Key, second: Key)
    requires Empty(s0)
    ensures var s2 := s0.(pending := multiset{first, second});
            && Possible(s2, Registered(0, Twin(first, 7)))
            && BrokerProtocol.Step(s2, Registered(0, Twin(first, 7))) == OneTwin(s0, first, second)
    ensures Possible(OneTwin(s0, first, second), Registered(1, Twin(second, 8)))
    ensures BrokerProtocol.Step(OneTwin(s0, first, second), Registered(1, Twin(second, 8))) == Twins(s0, first, second)
  {
    hide NewLive, Twin, BrokerProtocol.Step, Possible;
    var s2, s3 := s0.(pending := multiset{first, second}), OneTwin(s0, first, second);
    TwinAnswered(s2, 0, first, 7);
    assert s2.pending - multiset{first} == multiset{second};
    TwinAnswered(s3, 1, second, 8);
    assert s3.pending - multiset{second} == multiset{};
    assert s3.positions[1 := Twin(second, 8)] == Twins(s0, first, second).positions;
  }

  lemma {:induction false} TwoAnswers(s0: Desk, first: Key, second: Key, ticket: Ticket, es: seq<BrokerProtocol.Event>)
    requires Takes(s0.guard, ticket) && Empty(s0)
    requires |es| >= 4 && es[0] == Submitted(first, ticket) && es[1] == Submitted(second, ticket)
    requires es[2] == Registered(0, Twin(first, 7)) && es[3] == Registered(1, Twin(second, 8))
    ensures forall i :: 0 <= i < 4 ==> Possible(BrokerProtocol.Run(s0, es, i), es[i])
    ensures BrokerProtocol.Run(s0, es, 0) == s0 && BrokerProtocol.Run(s0, es, 1).pending == multiset{first}
    ensures BrokerProtocol.Run(s0, es, 4) == Twins(s0, first, second)
  {
    hide NewLive, Twin, Twins, OneTwin, BrokerProtocol.Step, BrokerProtocol.Run, Possible, Takes;
    SendBoth(s0, first, second, ticket);
    BothAnswered(s0, first, second);
    var s1, s2 := s0.(pending := multiset{first}), s0.(pending := multiset{first, second});
    Begins(s0, es);
    RunNext(s0, es, 0, s0, s1);
    RunNext(s0, es, 1, s1, s2);
    RunNext(s0, es, 2, s2, OneTwin(s0, first, second));
    RunNext(s0, es, 3, OneTwin(s0, first, second), Twins(s0, first, second));
  }

  /** Two signals of one key before the broker answers the first. */
  lemma {:induction false} TwoSignalsRun(config: Config, balance: real, ticket: Ticket)
    requires StartTakes(config, balance, ticket)
    ensures var (s0, es) := (Started(config, Some(balance)), TwoSignals(KEY, KEY, ticket));
            && Patient(s0, es, 2)
            && var s := BrokerProtocol.Run(s0, es, 4);
               && s.positions == map[0 := Twin(KEY, 7), 1 := Twin(KEY, 8)] && s.openKeys == map[KEY := 1]
               && !KeysHeld(s)
  {
    hide Twin, BrokerProtocol.Run, Possible, Started, Takes;
    var s0, es := Started(config, Some(balance)), TwoSignals(KEY, KEY, ticket);
    StartsEmpty(config, balance);
    TwoAnswers(s0, KEY, KEY, ticket, es);
    assert map[KEY := 0][KEY := 1] == map[KEY := 1];
    TwinKey(KEY, 7);
    var s := BrokerProtocol.Run(s0, es, 4);
    assert 0 in s.positions && s.openKeys[s.positions[0].key] == 1;
  }

  lemma {:induction false} StartsEmpty(config: Config, balance: real)
    ensures Empty(Started(config, Some(balance)))
  {
  }

  lemma {:induction false} Begins(s0: Desk, es: seq<BrokerProtocol.Event>)
    ensures BrokerProtocol.Run(s0, es, 0) == s0
  {
  }

  lemma {:induction false} TwinKey(key: Key, order: int)
    ensures Twin(key, order).key == key
  {
  }

  /** The exact discipline, for an account that takes some entry: some possible run that sends an
      order only while fewer than `m` of its key are unanswered takes a key away from a live
      position if and only if `m` is 2 or more. */
  lemma {:induction false} KeysBound(config: Config, balance: real, ticket: Ticket, m: nat)
    requires StartTakes(config, balance, ticket)
    ensures var s0 := Started(config, Some(balance));
            (exists es: seq<BrokerProtocol.Event> ::
               Patient(s0, es, m) && !KeysHeld(BrokerProtocol.Run(s0, es, |es|)))
            <==> m >= 2
  {
    hide KeysHeld, Possible, BrokerProtocol.Run, Takes;
    var s0 := Started(config, Some(balance));
    if m >= 2 {
      TwoSignalsRun(config, balance, ticket);
      MorePatient(s0, TwoSignals(KEY, KEY, ticket), m);
    } else {
      forall es: seq<BrokerProtocol.Event> | Patient(s0, es, m) ensures KeysHeld(BrokerProtocol.Run(s0, es, |es|)) {
        OneOrderHoldsKeys(config, balance, es, m, |es|);
      }
    }
  }

  lemma {:induction false} MorePatient(s0: Desk, es: seq<BrokerProtocol.Event>, m: nat)
    requires m >= 2 && Patient(s0, es, 2)
    ensures Patient(s0, es, m)
  {
    hide Possible;
  }
}

/** What becomes of a full-close request after the broker has answered it. */
module BrokerRetries {
  import opened Prelude
  import opened ExitEngine
  import opened RiskGuards
  import opened PositionSizing
  import opened BrokerProtocol
  import opened BrokerLaws
  import opened BrokerKeys

  ghost predicate PossibleFrom(s: Desk, es: seq<BrokerProtocol.Event>) {
    forall i :: 0 <= i < |es| ==> Possible(BrokerProtocol.Run(s, es, i), es[i])
  }

  ghost predicate Unfinalized(es: seq<BrokerProtocol.Event>, pid: nat) {
    forall i :: 0 <= i < |es| ==> !(es[i].Finalized? && es[i].pid == pid)
  }

  /** No full close of the position is on its way, and none can be requested: the guard is still
      set, or nothing is left. */
  ghost predicate Blocked(s: Desk, pid: nat) {
    && pid in s.positions && s.inFlight[pid] == 0
    && (pid in s.closingFull || s.positions[pid].pos.remaining == 0.0)
  }

  lemma {:induction false} BlockedIsNotClosable(s: Desk, pid: nat)
    requires Kept(s) && Blocked(s, pid)
    ensures !Closable(s, pid)
  {
    hide RemainingVolume, Whole, BookedOnce, TargetsOnce, Reconciled, AwaitingOnce, OneInFlight;
    WholeAt(s, pid);
    RequestIsExact(s.positions[pid]);
  }

  lemma {:induction false} FlattenSkipsBlocked(s: Desk, pid: nat, only: Option<string>)
    requires Kept(s) && Blocked(s, pid)
    ensures Blocked(FlattenAll(s, only), pid)
  {
    hide Kept, Closable, Matches;
    BlockedIsNotClosable(s, pid);
    assert pid !in Flattened(s, only);
  }

  lemma {:induction false} CandleSkipsBlocked(s: Desk, other: nat, pid: nat)
    requires Kept(s) && Blocked(s, pid)
    ensures Blocked(Candle(s, other), pid)
  {
    hide RemainingVolume, Whole, BookedOnce, TargetsOnce, Reconciled, AwaitingOnce, OneInFlight;
    if other == pid {
      BlockedIsNotClosable(s, pid);
      var l := s.positions[pid];
      SameVolume(l, l.(pos := l.pos.(bars := l.pos.bars + 1)));
    }
  }

  lemma {:induction false} SameVolume(l: Live, m: Live)
    requires m.pos.remaining == l.pos.remaining && m.entryVolume == l.entryVolume && m.symbol == l.symbol
    ensures RemainingVolume(m) == RemainingVolume(l)
  {
    hide RoundVolume;
  }

  lemma {:induction false} TargetsKeepBlocked(s: Desk, other: nat, i: nat, price: real, pid: nat)
    requires Blocked(s, pid) && other in s.positions && i <= |s.positions[other].pos.plan.tps|
    ensures Blocked(RequestTargets(s, other, i, price), pid)
    decreases |s.positions[other].pos.plan.tps| - i
  {
    hide FractionVolume, Managed.TargetReached;
    var l := s.positions[other];
    if i < |l.pos.plan.tps| {
      if i in l.requested || !l.pos.TargetReached(i, price, price) {
        TargetsKeepBlocked(s, other, i + 1, price, pid);
      } else {
        var volume := FractionVolume(l, l.pos.plan.tps[i].fraction);
        var noted := s.(positions := s.positions[other := l.(requested := l.requested + {i})]);
        TargetsKeepBlocked(if volume <= 0 then noted else noted.(partials := s.partials + [Partial(other, i, volume)]),
                           other, i + 1, price, pid);
      }
    }
  }

  lemma {:induction false} PriceKeepsBlocked(s: Desk, other: nat, price: real, pid: nat)
    requires Blocked(s, pid)
    ensures Blocked(Priced(s, other, price), pid)
  {
    hide RequestTargets, Managed.Restopped;
    if other in s.positions && s.positions[other].pos.open {
      var l := s.positions[other];
      var moved := s.(positions := s.positions[other := l.(pos := l.pos.Excursed(price).Restopped())]);
      PaperLaws.RestopOnlyTightens(l.pos.Excursed(price));
      assert Blocked(moved, pid);
      if l.clientManaged { TargetsKeepBlocked(moved, other, 0, price, pid); }
    }
  }

  lemma {:induction false} FillKeepsBlocked(s: Desk, other: nat, order: int, price: real, volume: Option<int>, ts: int,
        pid: nat)
    requires Kept(s) && Blocked(s, pid) && Possible(s, Filled(other, order, price, volume, ts))
    ensures Blocked(OnFill(s, other, order, price, volume, ts), pid)
  {
    hide Whole, FilledFraction, Classify, BookedOnce, TargetsOnce, Reconciled, OneInFlight, AllWhole;
    if other == pid && s.positions[pid].pos.remaining == 0.0 {
      NothingAfterZero(s, pid, order, price, volume, ts);
    }
  }

  lemma {:induction false} FinalizeKeepsBlocked(s: Desk, other: nat, accounting: Option<Accounting>, modelled: real,
        pid: nat)
    requires Blocked(s, pid) && other != pid
    ensures Blocked(Finalize(s, other, accounting, modelled), pid)
  {
    hide NetOf, Guard.Realized;
  }

  lemma {:induction false} BlockedStep(s: Desk, e: BrokerProtocol.Event, pid: nat)
    requires Kept(s) && Blocked(s, pid) && Possible(s, e) && !(e.Finalized? && e.pid == pid)
    ensures Blocked(BrokerProtocol.Step(s, e), pid)
  {
    hide Kept, NewLive, OnFill, Priced, Candle, FlattenAll, Finalize, Takes, Guard.Checked, Guard.Floating,
      RiskGuards.Step;
    match e
    case Finalized(other, accounting, modelled) => FinalizeKeepsBlocked(s, other, accounting, modelled, pid);
    case Filled(other, order, price, volume, ts) => FillKeepsBlocked(s, other, order, price, volume, ts, pid);
    case PriceUpdate(other, price) => PriceKeepsBlocked(s, other, price, pid);
    case CandleClosed(other) => CandleSkipsBlocked(s, other, pid);
    case Flatten(only) => FlattenSkipsBlocked(s, pid, only);
    case _ =>
  }

  /** From then on, until it is finalised, no full close of a blocked position is ever requested. */
  lemma {:induction false} BlockedForGood(s: Desk, es: seq<BrokerProtocol.Event>, pid: nat, n: nat)
    requires n <= |es| && Kept(s) && Blocked(s, pid) && PossibleFrom(s, es) && Unfinalized(es, pid)
    ensures var t := BrokerProtocol.Run(s, es, n); Kept(t) && Blocked(t, pid)
  {
    hide Kept, Blocked, Possible, BrokerProtocol.Step;
    if n > 0 {
      BlockedForGood(s, es, pid, n - 1);
      var t := BrokerProtocol.Run(s, es, n - 1);
      StepKeeps(t, es[n - 1]);
      BlockedStep(t, es[n - 1], pid);
    }
  }

  /** After the broker's answer a further full close of the position is ever requested before it is
      finalised, on some possible run, exactly when the request failed and volume is left. */
  lemma {:induction false} RetriedIffFailed(s: Desk, pid: nat, ok: bool)
    requires Kept(s) && s.inFlight[pid] > 0 && pid in s.positions && s.positions[pid].pos.open
    ensures var t := Answered(s, pid, ok);
            (exists es: seq<BrokerProtocol.Event> ::
               PossibleFrom(t, es) && Unfinalized(es, pid) && BrokerProtocol.Run(t, es, |es|).inFlight[pid] > 0)
            <==> !ok && s.positions[pid].pos.remaining > 0.0
  {
    hide Kept, Blocked, Closable, FlattenAll, Whole, BrokerProtocol.Run, PossibleFrom, Unfinalized;
    var t := Answered(s, pid, ok);
    AnsweredKeeps(s, pid, ok);
    AfterAnswer(s, pid, ok);
    if !ok && s.positions[pid].pos.remaining > 0.0 {
      var es := [BrokerProtocol.Flatten(None)];
      FlattenOnce(t, es, pid);
    } else {
      forall es: seq<BrokerProtocol.Event> | PossibleFrom(t, es) && Unfinalized(es, pid)
        ensures BrokerProtocol.Run(t, es, |es|).inFlight[pid] == 0
      {
        BlockedForGood(t, es, pid, |es|);
        NoneInFlight(BrokerProtocol.Run(t, es, |es|), pid);
      }
    }
  }

  lemma {:induction false} NoneInFlight(s: Desk, pid: nat)
    requires Blocked(s, pid)
    ensures s.inFlight[pid] == 0
  {
  }

  lemma {:induction false} AfterAnswer(s: Desk, pid: nat, ok: bool)
    requires Kept(s) && s.inFlight[pid] > 0 && pid in s.positions && s.positions[pid].pos.open
    ensures var t := Answered(s, pid, ok);
            if !ok && s.positions[pid].pos.remaining > 0.0 then Closable(t, pid) else Blocked(t, pid)
  {
    hide RemainingVolume, Whole, BookedOnce, TargetsOnce, Reconciled, AwaitingOnce;
    WholeAt(s, pid);
    RequestIsExact(s.positions[pid]);
    WholeRemains(s.positions[pid]);
  }

  lemma {:induction false} WholeRemains(l: Live)
    requires Whole(l)
    ensures l.pos.remaining >= 0.0
  {
  }

  lemma {:induction false} FlattenOnce(s: Desk, es: seq<BrokerProtocol.Event>, pid: nat)
    requires es == [BrokerProtocol.Flatten(None)] && Closable(s, pid)
    ensures PossibleFrom(s, es) && Unfinalized(es, pid) && BrokerProtocol.Run(s, es, 1).inFlight[pid] > 0
  {
    hide RemainingVolume;
    assert BrokerProtocol.Run(s, es, 0) == s;
    assert BrokerProtocol.Run(s, es, 1) == FlattenAll(s, None);
    assert pid in Flattened(s, None);
    assert multiset(Flattened(s, None))[pid] == 1;
  }

  // ----- an acknowledged request that fills only in part -----

  /** One entry of three units, flattened, acknowledged, and filled for one unit only. */
  function PartFilled(ticket: Ticket): seq<BrokerProtocol.Event> {
    [Submitted(KEY, ticket), Registered(0, Twin(KEY, 7)), Filled(0, 7, 10.0, None, 0), BrokerProtocol.Flatten(None),
     CloseAnswered(0, true), Filled(0, 9, 11.0, Some(1), 1)]
  }

  function Entered(): Live { Twin(KEY, 7).(pos := Twin(KEY, 7).pos.(entry := 10.0, open := true)) }

  lemma {:induction false} TwoThirdsLeft()
    ensures var l := CloseFill(Entered(), 11.0, FilledFraction(Entered(), Some(1)), 1);
            l.pos.remaining == 2.0 / 3.0 > DONE
    ensures RemainingVolume(Entered()) == 3 && FilledFraction(Entered(), Some(1)) > 0.0
  {
    hide Classify;
    RoundWhole(3);
  }

  lemma {:induction false} EntryFilled(s: Desk)
    requires s.positions == map[0 := Twin(KEY, 7)] && s.closingFull == {} && s.inFlight == multiset{}
    ensures Possible(s, Filled(0, 7, 10.0, None, 0))
    ensures BrokerProtocol.Step(s, Filled(0, 7, 10.0, None, 0)) == s.(positions := map[0 := Entered()])
  {
    hide Twin;
    TwinParts();
  }

  lemma {:induction false} FlattenAcknowledged(s: Desk)
    requires s.positions == map[0 := Entered()] && s.closingFull == {} && s.inFlight == multiset{}
    ensures Possible(s, BrokerProtocol.Flatten(None))
    ensures var t := BrokerProtocol.Step(s, BrokerProtocol.Flatten(None));
            && t == s.(closingFull := {0}, inFlight := multiset{0}) && Possible(t, CloseAnswered(0, true))
            && BrokerProtocol.Step(t, CloseAnswered(0, true)) == s.(closingFull := {0})
  {
    hide Twin, RemainingVolume;
    TwinParts();
    TwoThirdsLeft();
    assert Flattened(s, None) == {0};
    assert {} + {0 as nat} == {0} && multiset{} + multiset({0 as nat}) == multiset{0};
    assert multiset{0 as nat} - multiset{0} == multiset{};
  }

  lemma {:induction false} OneUnitFilled(s: Desk)
    requires s.positions == map[0 := Entered()]
    ensures Possible(s, Filled(0, 9, 11.0, Some(1), 1))
    ensures var t := BrokerProtocol.Step(s, Filled(0, 9, 11.0, Some(1), 1));
            && t == s.(positions := map[0 := CloseFill(Entered(), 11.0, FilledFraction(Entered(), Some(1)), 1)])
            && t.positions[0].pos.remaining == 2.0 / 3.0
  {
    hide Twin, CloseFill, FilledFraction;
    TwinParts();
    TwoThirdsLeft();
  }

  /** The run leaves two thirds of the position open, and no full close of it is requested again
      until it is finalised. */
  lemma {:induction false} PartFilledIsStranded(config: Config, balance: real, ticket: Ticket)
    requires StartTakes(config, balance, ticket)
    ensures var (s0, es) := (Started(config, Some(balance)), PartFilled(ticket));
            && PossibleFrom(s0, es)
            && var s := BrokerProtocol.Run(s0, es, 6);
               && Blocked(s, 0) && 0 in s.positions && s.positions[0].pos.remaining == 2.0 / 3.0 && s.awaiting[0] == 0
  {
    hide Twin, NewLive, CloseFill, FilledFraction, Started, BrokerProtocol.Step, BrokerProtocol.Run, Possible, Entered,
      Takes;
    var s0, es := Started(config, Some(balance)), PartFilled(ticket);
    StartsEmpty(config, balance);
    SendBoth(s0, KEY, KEY, ticket);
    var s1 := s0.(pending := multiset{KEY});
    TwinAnswered(s1, 0, KEY, 7);
    var s2 := s1.(positions := map[0 := Twin(KEY, 7)], openKeys := map[KEY := 0], pending := multiset{}, entries := 1);
    assert multiset{KEY} - multiset{KEY} == multiset{};
    EntryFilled(s2);
    var s3 := s2.(positions := map[0 := Entered()]);
    FlattenAcknowledged(s3);
    var s4, s5 := s3.(closingFull := {0}, inFlight := multiset{0}), s3.(closingFull := {0});
    OneUnitFilled(s5);
    var s6 := s5.(positions := map[0 := CloseFill(Entered(), 11.0, FilledFraction(Entered(), Some(1)), 1)]);
    Begins(s0, es);
    RunNext(s0, es, 0, s0, s1);
    RunNext(s0, es, 1, s1, s2);
    RunNext(s0, es, 2, s2, s3);
    RunNext(s0, es, 3, s3, s4);
    RunNext(s0, es, 4, s4, s5);
    RunNext(s0, es, 5, s5, s6);
  }

  lemma {:induction false} TwinParts()
    ensures var l := Twin(KEY, 7);
            && l.key == KEY && l.order == 7 && !l.pos.open && !l.clientManaged
            && l.entryVolume == 3 && l.symbol == Symbol(1, 1)
    ensures Entered().pos.open && Entered().key == KEY && OpeningFill(Twin(KEY, 7), 10.0, None) == Entered()
    ensures Entered().symbol == Symbol(1, 1)
    ensures WholeSteps(1, 1)
  {
    assert 1 == StepVolume(1, 1);
  }
}
