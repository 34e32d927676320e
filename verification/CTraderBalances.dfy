/** What the risk guard knows of the broker's balance: finalisations that come without one, and
    finalisations that overtake each other. */
module BrokerBalances {
  import opened Prelude
  import opened ExitPlans
  import opened ExitEngine
  import opened RiskGuards
  import opened PaperBook
  import opened BrokerProtocol
  import opened BrokerLaws
  import opened BrokerKeys
  import opened BrokerRetries
  import BrokerPartials

  // ----- finalisations without a balance -----

  predicate HasBalance(e: BrokerProtocol.Event)
    requires e.Finalized?
  {
    e.accounting.Some? && e.accounting.value.balance.Some?
  }

  /** The net an event books that no broker balance reflects yet. */
  function UnbalancedNet(e: BrokerProtocol.Event): real {
    if !e.Finalized? || HasBalance(e) then 0.0
    else if e.accounting.None? then e.modelled
    else e.accounting.value.net
  }

  function UnbalancedNets(es: seq<BrokerProtocol.Event>, n: nat): real
    requires n <= |es|
  {
    if n == 0 then 0.0 else UnbalancedNets(es, n - 1) + UnbalancedNet(es[n - 1])
  }

  /** Closes among the first `n` events that are finalised without a balance. */
  function Fallbacks(es: seq<BrokerProtocol.Event>, n: nat): nat
    requires n <= |es|
  {
    if n == 0 then 0 else Fallbacks(es, n - 1) + if es[n - 1].Finalized? && !HasBalance(es[n - 1]) then 1 else 0
  }

  lemma {:induction false} PriceKeepsLog(s: Desk, pid: nat, price: real)
    ensures var t := Priced(s, pid, price); t.log == s.log && t.lastReal == s.lastReal
  {
    hide RequestTargets, Managed.Restopped, Managed.Excursed;
    if pid in s.positions && s.positions[pid].pos.open && s.positions[pid].clientManaged {
      var l := s.positions[pid];
      BrokerPartials.TargetsKeepLog(
        s.(positions := s.positions[pid := l.(pos := l.pos.Excursed(price).Restopped())]), pid, 0, price);
    }
  }

  /** Only a finalisation writes the log and the remembered balance. */
  lemma {:induction false} OthersKeepLog(s: Desk, e: BrokerProtocol.Event)
    requires !e.Finalized?
    ensures var t := BrokerProtocol.Step(s, e); t.log == s.log && t.lastReal == s.lastReal
  {
    hide Takes, FilledFraction, Classify, Priced, Closable, Flattened, Guard.Floating, RiskGuards.Step, Finalize;
    if e.PriceUpdate? { PriceKeepsLog(s, e.pid, e.price); }
  }

  /** A finalisation books a matched net exactly when it brings a balance. */
  lemma {:induction false} FinalizeLogs(s: Desk, e: BrokerProtocol.Event)
    requires e.Finalized? && s.lastReal.Some?
    ensures var t := BrokerProtocol.Step(s, e);
            && t.lastReal.Some? && (HasBalance(e) ==> t.lastReal == e.accounting.value.balance)
            && Unmatched(t.log, |t.log|) == Unmatched(s.log, |s.log|) + UnbalancedNet(e)
  {
    hide Unmatched, Guard.Realized;
    var t := BrokerProtocol.Step(s, e);
    UnmatchedAppend(s.log, t.log[|s.log|]);
  }

  /** Over every possible run the guard is off the last real balance by exactly the nets of the
      closes finalised without one: every later balance delta counts them again. */
  lemma {:induction false} FallbackIsCountedAgain(config: Config, balance: real, es: seq<BrokerProtocol.Event>, n: nat)
    requires n <= |es| && PossibleFrom(Started(config, Some(balance)), es)
    ensures var s := BrokerProtocol.Run(Started(config, Some(balance)), es, n);
            && Kept(s) && s.lastReal.Some?
            && Unmatched(s.log, |s.log|) == UnbalancedNets(es, n)
            && s.guard.balance - s.lastReal.value == UnbalancedNets(es, n)
  {
    hide Kept, Possible, BrokerProtocol.Step, UnbalancedNet;
    var s0 := Started(config, Some(balance));
    if n == 0 {
      StartedKept(config, balance);
    } else {
      FallbackIsCountedAgain(config, balance, es, n - 1);
      var s := BrokerProtocol.Run(s0, es, n - 1);
      StepKeeps(s, es[n - 1]);
      if es[n - 1].Finalized? {
        FinalizeLogs(s, es[n - 1]);
      } else {
        OthersKeepLog(s, es[n - 1]);
        NothingBooked(es[n - 1]);
      }
    }
    Drift(BrokerProtocol.Run(s0, es, n));
  }

  lemma {:induction false} NothingBooked(e: BrokerProtocol.Event)
    requires !e.Finalized?
    ensures UnbalancedNet(e) == 0.0
  {
  }

  lemma {:induction false} Drift(s: Desk)
    requires Kept(s) && s.lastReal.Some?
    ensures s.guard.balance - s.lastReal.value == Unmatched(s.log, |s.log|)
  {
    hide AllWhole, AwaitingOnce, OneInFlight, BookedOnce, TargetsOnce, Unmatched;
  }

  lemma {:induction false} NoneUnbalanced(es: seq<BrokerProtocol.Event>, n: nat)
    requires n <= |es| && Fallbacks(es, n) == 0
    ensures UnbalancedNets(es, n) == 0.0
  {
    if n > 0 { NoneUnbalanced(es, n - 1); }
  }

  /** As long as every close brings a balance, the guard's balance is the last real balance. */
  lemma {:induction false} GuardTracksBroker(config: Config, balance: real, es: seq<BrokerProtocol.Event>, n: nat)
    requires n <= |es| && PossibleFrom(Started(config, Some(balance)), es) && Fallbacks(es, n) == 0
    ensures var s := BrokerProtocol.Run(Started(config, Some(balance)), es, n);
            s.lastReal.Some? && s.guard.balance == s.lastReal.value
  {
    hide Kept, PossibleFrom, BrokerProtocol.Run;
    FallbackIsCountedAgain(config, balance, es, n);
    NoneUnbalanced(es, n);
  }

  // ----- two positions, filled and closed -----

  const OTHER := Key("s", "w", "XAUUSD", Long)

  /** Both positions are entered and closed; then the two finalisations. */
  function TwoCloses(ticket: Ticket, first: BrokerProtocol.Event, second: BrokerProtocol.Event)
    : seq<BrokerProtocol.Event>
  {
    [Submitted(KEY, ticket), Submitted(OTHER, ticket), Registered(0, Twin(KEY, 7)), Registered(1, Twin(OTHER, 8)),
     Filled(0, 7, 10.0, None, 0), Filled(1, 8, 10.0, None, 0), Filled(0, 9, 11.0, None, 1), Filled(1, 9, 11.0, None, 1),
     first, second]
  }

  function OpenTwin(key: Key, order: int): Live {
    Twin(key, order).(pos := Twin(key, order).pos.(entry := 10.0, open := true))
  }

  function ClosedTwin(key: Key, order: int): Live { CloseFill(OpenTwin(key, order), 11.0, 1.0, 1) }

  /** One position each way. */
  function Pair(s0: Desk, a: Live, b: Live, awaiting: multiset<nat>): Desk {
    Twins(s0, KEY, OTHER).(positions := map[0 := a, 1 := b], awaiting := awaiting)
  }

  lemma {:induction false} TwinOpens(s: Desk, pid: nat, key: Key, order: int)
    requires pid in s.positions && s.positions[pid] == Twin(key, order)
    ensures Possible(s, Filled(pid, order, 10.0, None, 0))
    ensures BrokerProtocol.Step(s, Filled(pid, order, 10.0, None, 0)) ==
              s.(positions := s.positions[pid := OpenTwin(key, order)])
  {
    hide WholeSteps;
  }

  lemma {:induction false} TwinCloses(s: Desk, pid: nat, key: Key, order: int)
    requires pid in s.positions && s.positions[pid] == OpenTwin(key, order)
    ensures Possible(s, Filled(pid, 9, 11.0, None, 1))
    ensures BrokerProtocol.Step(s, Filled(pid, 9, 11.0, None, 1)) ==
              s.(positions := s.positions[pid := ClosedTwin(key, order)], awaiting := s.awaiting + multiset{pid})
  {
    hide WholeSteps, Classify;
  }

  lemma {:induction false} PairOpens(s0: Desk)
    ensures var (a, b) := (Twin(KEY, 7), Twin(OTHER, 8));
            var (s4, s5) := (Pair(s0, a, b, multiset{}), Pair(s0, OpenTwin(KEY, 7), b, multiset{}));
            var s6 := Pair(s0, OpenTwin(KEY, 7), OpenTwin(OTHER, 8), multiset{});
            && Possible(s4, Filled(0, 7, 10.0, None, 0)) && BrokerProtocol.Step(s4, Filled(0, 7, 10.0, None, 0)) == s5
            && Possible(s5, Filled(1, 8, 10.0, None, 0)) && BrokerProtocol.Step(s5, Filled(1, 8, 10.0, None, 0)) == s6
  {
    hide Twin, OpenTwin, BrokerProtocol.Step, Possible;
    var s4 := Pair(s0, Twin(KEY, 7), Twin(OTHER, 8), multiset{});
    TwinOpens(s4, 0, KEY, 7);
    var s5 := Pair(s0, OpenTwin(KEY, 7), Twin(OTHER, 8), multiset{});
    assert s4.positions[0 := OpenTwin(KEY, 7)] == s5.positions;
    TwinOpens(s5, 1, OTHER, 8);
    assert s5.positions[1 := OpenTwin(OTHER, 8)] == map[0 := OpenTwin(KEY, 7), 1 := OpenTwin(OTHER, 8)];
  }

  lemma {:induction false} PairCloses(s0: Desk)
    ensures var (a, b) := (OpenTwin(KEY, 7), OpenTwin(OTHER, 8));
            var (s6, s7) := (Pair(s0, a, b, multiset{}), Pair(s0, ClosedTwin(KEY, 7), b, multiset{0}));
            var s8 := Pair(s0, ClosedTwin(KEY, 7), ClosedTwin(OTHER, 8), multiset{0, 1});
            && Possible(s6, Filled(0, 9, 11.0, None, 1)) && BrokerProtocol.Step(s6, Filled(0, 9, 11.0, None, 1)) == s7
            && Possible(s7, Filled(1, 9, 11.0, None, 1)) && BrokerProtocol.Step(s7, Filled(1, 9, 11.0, None, 1)) == s8
  {
    hide OpenTwin, ClosedTwin, BrokerProtocol.Step, Possible;
    var s6 := Pair(s0, OpenTwin(KEY, 7), OpenTwin(OTHER, 8), multiset{});
    TwinCloses(s6, 0, KEY, 7);
    var s7 := Pair(s0, ClosedTwin(KEY, 7), OpenTwin(OTHER, 8), multiset{0});
    assert s6.positions[0 := ClosedTwin(KEY, 7)] == s7.positions;
    TwinCloses(s7, 1, OTHER, 8);
    assert s7.positions[1 := ClosedTwin(OTHER, 8)] == map[0 := ClosedTwin(KEY, 7), 1 := ClosedTwin(OTHER, 8)];
    assert s7.awaiting + multiset{1} == multiset{0, 1};
  }

  lemma {:induction false} BothEnterAndClose(s0: Desk, ticket: Ticket, es: seq<BrokerProtocol.Event>,
        first: BrokerProtocol.Event, second: BrokerProtocol.Event)
    requires Takes(s0.guard, ticket) && Empty(s0) && es == TwoCloses(ticket, first, second)
    ensures forall i :: 0 <= i < 8 ==> Possible(BrokerProtocol.Run(s0, es, i), es[i])
    ensures BrokerProtocol.Run(s0, es, 8) == Pair(s0, ClosedTwin(KEY, 7), ClosedTwin(OTHER, 8), multiset{0, 1})
  {
    hide Twin, OpenTwin, ClosedTwin, Twins, Pair, Empty, BrokerProtocol.Step, BrokerProtocol.Run, Possible, Takes;
    TwoAnswers(s0, KEY, OTHER, ticket, es);
    BothTwins(s0);
    PairOpens(s0);
    PairCloses(s0);
    var s5 := Pair(s0, OpenTwin(KEY, 7), Twin(OTHER, 8), multiset{});
    var s6 := Pair(s0, OpenTwin(KEY, 7), OpenTwin(OTHER, 8), multiset{});
    var s7 := Pair(s0, ClosedTwin(KEY, 7), OpenTwin(OTHER, 8), multiset{0});
    RunNext(s0, es, 4, Twins(s0, KEY, OTHER), s5);
    RunNext(s0, es, 5, s5, s6);
    RunNext(s0, es, 6, s6, s7);
    RunNext(s0, es, 7, s7, Pair(s0, ClosedTwin(KEY, 7), ClosedTwin(OTHER, 8), multiset{0, 1}));
  }

  lemma {:induction false} BothTwins(s0: Desk)
    requires Empty(s0)
    ensures Twins(s0, KEY, OTHER) == Pair(s0, Twin(KEY, 7), Twin(OTHER, 8), multiset{})
  {
  }

  /** What one finalisation does to the guard's balance, the remembered balance and the log. */
  lemma {:induction false} FinalizeFacts(s: Desk, e: BrokerProtocol.Event)
    requires e.Finalized?
    ensures var t := BrokerProtocol.Step(s, e);
            var net := NetOf(s, e.accounting, e.modelled);
            && t.guard.balance == s.guard.balance + net && t.awaiting == s.awaiting - multiset{e.pid}
            && t.lastReal == (if HasBalance(e) then e.accounting.value.balance else s.lastReal)
            && t.log == s.log + [Booking(e.pid, net, HasBalance(e) && s.lastReal.Some?)]
  {
    hide Guard.Realized, NetOf;
    PaperLaws.RealizedBalance(s.guard, NetOf(s, e.accounting, e.modelled));
  }

  /** Two finalisations in a row, of two positions awaiting one each. */
  lemma {:induction false} BothFinalized(s: Desk, first: BrokerProtocol.Event, second: BrokerProtocol.Event)
    requires s.awaiting == multiset{0, 1} && s.log == [] && s.lastReal.Some?
    requires first.Finalized? && second.Finalized? && HasBalance(second)
    requires first.pid < 2 && second.pid == 1 - first.pid
    ensures var s1 := BrokerProtocol.Step(s, first);
            var s2 := BrokerProtocol.Step(s1, second);
            var (a, b) := (NetOf(s, first.accounting, first.modelled), NetOf(s1, second.accounting, second.modelled));
            && Possible(s, first) && Possible(s1, second)
            && s2.guard.balance == s.guard.balance + a + b && s2.lastReal == second.accounting.value.balance
            && s1.lastReal == (if HasBalance(first) then first.accounting.value.balance else s.lastReal)
            && s2.log == [Booking(first.pid, a, HasBalance(first)), Booking(second.pid, b, true)]
  {
    hide BrokerProtocol.Step, NetOf, Possible, HasBalance;
    var s1 := BrokerProtocol.Step(s, first);
    FinalizeFacts(s, first);
    FinalizeFacts(s1, second);
    StillAwaits(first.pid, second.pid);
    CanFinalize(s, first);
    CanFinalize(s1, second);
    Balances(s1, s, first);
  }

  lemma {:induction false} Balances(t: Desk, s: Desk, e: BrokerProtocol.Event)
    requires e.Finalized? && s.lastReal.Some?
    requires t.lastReal == if HasBalance(e) then e.accounting.value.balance else s.lastReal
    ensures t.lastReal.Some?
  {
  }

  lemma {:induction false} StillAwaits(first: nat, second: nat)
    requires first < 2 && second == 1 - first
    ensures multiset{0 as nat, 1}[first] > 0 && (multiset{0 as nat, 1} - multiset{first})[second] > 0
  {
  }

  lemma {:induction false} CanFinalize(s: Desk, e: BrokerProtocol.Event)
    requires e.Finalized? && s.awaiting[e.pid] > 0
    ensures Possible(s, e)
  {
  }

  /** The whole run, up to the two balances it leaves. */
  lemma {:induction false} TwoClosesRun(config: Config, balance: real, ticket: Ticket, first: BrokerProtocol.Event,
        second: BrokerProtocol.Event)
    requires StartTakes(config, balance, ticket)
    requires first.Finalized? && second.Finalized? && HasBalance(second)
    requires first.pid < 2 && second.pid == 1 - first.pid
    ensures var (s0, es) := (Started(config, Some(balance)), TwoCloses(ticket, first, second));
            var s := BrokerProtocol.Run(s0, es, 10);
            var a := NetOf(s0, first.accounting, first.modelled);
            var b := second.accounting.value.balance.value
                     - if HasBalance(first) then first.accounting.value.balance.value else balance;
            && PossibleFrom(s0, es)
            && s.guard.balance == balance + a + b && s.lastReal == second.accounting.value.balance
            && s.log == [Booking(first.pid, a, HasBalance(first)), Booking(second.pid, b, true)]
  {
    hide ClosedTwin, BrokerProtocol.Step, BrokerProtocol.Run, Possible, Takes, Empty, Started;
    var s0, es := Started(config, Some(balance)), TwoCloses(ticket, first, second);
    StartsEmpty(config, balance);
    StartsWith(config, balance);
    BothEnterAndClose(s0, ticket, es, first, second);
    var s8 := Pair(s0, ClosedTwin(KEY, 7), ClosedTwin(OTHER, 8), multiset{0, 1});
    NothingLogged(s0);
    BothFinalized(s8, first, second);
    var s9 := BrokerProtocol.Step(s8, first);
    RunNext(s0, es, 8, s8, s9);
    RunNext(s0, es, 9, s9, BrokerProtocol.Step(s9, second));
  }

  lemma {:induction false} NothingLogged(s: Desk)
    requires Empty(s)
    ensures s.log == []
  {
  }

  lemma {:induction false} StartsWith(config: Config, balance: real)
    ensures var s := Started(config, Some(balance)); s.lastReal == Some(balance) && s.guard.balance == balance
  {
  }

  // ----- one fallback is enough -----

  /** The last close was matched, and the guard still disagrees with the broker. */
  ghost predicate OffAfterMatch(s: Desk) {
    s.log != [] && s.log[|s.log| - 1].matched && s.lastReal.Some? && s.guard.balance != s.lastReal.value
  }

  /** The first close falls back to the modelled 25, the second brings the broker's balance after
      both, forty up: the guard ends sixty-five up. */
  lemma {:induction false} FallbackRun(config: Config, balance: real, ticket: Ticket)
    requires StartTakes(config, balance, ticket)
    ensures var s0 := Started(config, Some(balance));
            var es := TwoCloses(ticket, Finalized(0, None, 25.0),
                                Finalized(1, Some(Accounting(15.0, Some(balance + 40.0))), 0.0));
            var s := BrokerProtocol.Run(s0, es, 10);
            && PossibleFrom(s0, es) && Fallbacks(es, 10) == 1 && OffAfterMatch(s)
            && s.guard.balance == balance + 65.0 && s.lastReal == Some(balance + 40.0)
  {
    hide BrokerProtocol.Run, PossibleFrom, Started, Takes, Twin;
    var first := Finalized(0, None, 25.0);
    var second := Finalized(1, Some(Accounting(15.0, Some(balance + 40.0))), 0.0);
    TwoClosesRun(config, balance, ticket, first, second);
    CountFallbacks(ticket, first, second);
  }

  lemma {:induction false} CountFallbacks(ticket: Ticket, first: BrokerProtocol.Event, second: BrokerProtocol.Event)
    requires first.Finalized? && !HasBalance(first) && second.Finalized? && HasBalance(second)
    ensures Fallbacks(TwoCloses(ticket, first, second), 10) == 1
  {
    hide Twin;
    var es := TwoCloses(ticket, first, second);
    NoFinalizations(es, 8);
    assert Fallbacks(es, 9) == 1;
  }

  lemma {:induction false} NoFinalizations(es: seq<BrokerProtocol.Event>, n: nat)
    requires n <= |es| && forall i :: 0 <= i < n ==> !es[i].Finalized?
    ensures Fallbacks(es, n) == 0
  {
    if n > 0 { NoFinalizations(es, n - 1); }
  }

  /** Some possible run with at most `n` closes finalised without a balance ends with the guard off
      after a matched close if and only if `n` is at least one. */
  lemma {:induction false} FallbackBound(config: Config, balance: real, ticket: Ticket, n: nat)
    requires StartTakes(config, balance, ticket)
    ensures var s0 := Started(config, Some(balance));
            (exists es: seq<BrokerProtocol.Event> ::
               PossibleFrom(s0, es) && Fallbacks(es, |es|) <= n && OffAfterMatch(BrokerProtocol.Run(s0, es, |es|)))
            <==> n >= 1
  {
    hide BrokerProtocol.Run, PossibleFrom, Fallbacks, Started, Takes;
    var s0 := Started(config, Some(balance));
    if n >= 1 {
      FallbackRun(config, balance, ticket);
    } else {
      forall es: seq<BrokerProtocol.Event> | PossibleFrom(s0, es) && Fallbacks(es, |es|) == 0
        ensures !OffAfterMatch(BrokerProtocol.Run(s0, es, |es|))
      {
        GuardTracksBroker(config, balance, es, |es|);
      }
    }
  }

  // ----- finalisations out of deal order -----

  /** A closing deal: its position and what it made; the broker's deals come in order. */
  datatype Deal = Deal(pid: nat, net: real)

  /** The broker's balance after the first `k` deals. */
  function BalanceAfter(start: real, deals: seq<Deal>, k: nat): real
    requires k <= |deals|
  {
    if k == 0 then start else BalanceAfter(start, deals, k - 1) + deals[k - 1].net
  }

  function DealOf(deals: seq<Deal>, pid: nat): (k: nat)
    ensures k <= |deals| && (k < |deals| ==> deals[k].pid == pid)
    ensures k == |deals| ==> forall i :: 0 <= i < |deals| ==> deals[i].pid != pid
  {
    if deals == [] then 0 else if deals[0].pid == pid then 0 else 1 + DealOf(deals[1..], pid)
  }

  /** Every finalisation is told its own deal's net and the balance right after that deal. */
  ghost predicate Truthful(start: real, deals: seq<Deal>, es: seq<BrokerProtocol.Event>) {
    forall i :: 0 <= i < |es| && es[i].Finalized? ==>
      var k := DealOf(deals, es[i].pid);
      k < |deals| && es[i].accounting == Some(Accounting(deals[k].net, Some(BalanceAfter(start, deals, k + 1))))
  }

  /** One deal per position, and every position finalised. */
  ghost predicate AllFinalized(deals: seq<Deal>, es: seq<BrokerProtocol.Event>) {
    && (forall i, j :: 0 <= i < j < |deals| ==> deals[i].pid != deals[j].pid)
    && (forall k :: 0 <= k < |deals| ==> exists i :: 0 <= i < |es| && es[i].Finalized? && es[i].pid == deals[k].pid)
  }

  /** How many deals had happened by the deal of the last finalisation. */
  function Known(deals: seq<Deal>, es: seq<BrokerProtocol.Event>, n: nat): nat
    requires n <= |es|
  {
    if n == 0 then 0
    else if es[n - 1].Finalized? then DealOf(deals, es[n - 1].pid) + 1
    else Known(deals, es, n - 1)
  }

  /** Finalisations whose deal came before that of the finalisation they follow. */
  function Overtaken(deals: seq<Deal>, es: seq<BrokerProtocol.Event>, n: nat): nat
    requires n <= |es|
  {
    if n == 0 then 0
    else
      Overtaken(deals, es, n - 1)
      + if es[n - 1].Finalized? && DealOf(deals, es[n - 1].pid) + 1 < Known(deals, es, n - 1) then 1 else 0
  }

  /** The guard's balance is that of the deal finalised last, whatever came after it. */
  lemma {:induction false} GuardKnowsLastFinalized(config: Config, balance: real, deals: seq<Deal>,
        es: seq<BrokerProtocol.Event>, n: nat)
    requires n <= |es| && PossibleFrom(Started(config, Some(balance)), es) && Truthful(balance, deals, es)
    ensures var s := BrokerProtocol.Run(Started(config, Some(balance)), es, n);
            && Known(deals, es, n) <= |deals|
            && s.guard.balance == BalanceAfter(balance, deals, Known(deals, es, n))
  {
    hide PossibleFrom, BrokerProtocol.Run;
    NoneFallsBack(balance, deals, es, n);
    GuardTracksBroker(config, balance, es, n);
    RemembersLast(config, balance, deals, es, n);
  }

  lemma {:induction false} NoneFallsBack(balance: real, deals: seq<Deal>, es: seq<BrokerProtocol.Event>, n: nat)
    requires n <= |es| && Truthful(balance, deals, es)
    ensures Fallbacks(es, n) == 0
  {
    hide DealOf, BalanceAfter;
    if n > 0 { NoneFallsBack(balance, deals, es, n - 1); }
  }

  lemma {:induction false} RemembersLast(config: Config, balance: real, deals: seq<Deal>,
        es: seq<BrokerProtocol.Event>, n: nat)
    requires n <= |es| && Truthful(balance, deals, es)
    ensures var s := BrokerProtocol.Run(Started(config, Some(balance)), es, n);
            && Known(deals, es, n) <= |deals|
            && s.lastReal == Some(BalanceAfter(balance, deals, Known(deals, es, n)))
  {
    hide BrokerProtocol.Step, DealOf, BalanceAfter, Started;
    var s0 := Started(config, Some(balance));
    if n == 0 {
      StartsWith(config, balance);
      NoDeals(balance, deals);
    } else {
      RemembersLast(config, balance, deals, es, n - 1);
      var s := BrokerProtocol.Run(s0, es, n - 1);
      if es[n - 1].Finalized? {
        FinalizeFacts(s, es[n - 1]);
      } else {
        OthersKeepLog(s, es[n - 1]);
      }
    }
  }

  lemma {:induction false} NoDeals(start: real, deals: seq<Deal>)
    ensures BalanceAfter(start, deals, 0) == start
  {
  }

  /** Without an overtaken finalisation the last one knows of every deal finalised so far. */
  lemma {:induction false} InOrderKnowsAll(deals: seq<Deal>, es: seq<BrokerProtocol.Event>, n: nat, i: nat)
    requires i < n <= |es| && Overtaken(deals, es, n) == 0 && es[i].Finalized?
    ensures DealOf(deals, es[i].pid) < Known(deals, es, n)
    decreases n
  {
    hide DealOf;
    if i < n - 1 { InOrderKnowsAll(deals, es, n - 1, i); }
  }

  /** Every position is finalised, at most `n` of them overtaken, and the guard's balance is not
      the broker's. */
  ghost predicate EndsStale(s0: Desk, balance: real, deals: seq<Deal>, es: seq<BrokerProtocol.Event>, n: nat) {
    && PossibleFrom(s0, es) && Truthful(balance, deals, es) && AllFinalized(deals, es)
    && Overtaken(deals, es, |es|) <= n
    && BrokerProtocol.Run(s0, es, |es|).guard.balance != BalanceAfter(balance, deals, |deals|)
  }

  /** In deal order, the guard ends at the broker's balance. */
  lemma {:induction false} InOrderEndsRight(config: Config, balance: real, deals: seq<Deal>,
        es: seq<BrokerProtocol.Event>)
    requires PossibleFrom(Started(config, Some(balance)), es) && Truthful(balance, deals, es)
    requires AllFinalized(deals, es) && Overtaken(deals, es, |es|) == 0
    ensures BrokerProtocol.Run(Started(config, Some(balance)), es, |es|).guard.balance
            == BalanceAfter(balance, deals, |deals|)
  {
    hide PossibleFrom, BrokerProtocol.Run, Started, BalanceAfter, Truthful, Known;
    GuardKnowsLastFinalized(config, balance, deals, es, |es|);
    if |deals| > 0 {
      var last := deals[|deals| - 1];
      var i :| 0 <= i < |es| && es[i].Finalized? && es[i].pid == last.pid;
      InOrderKnowsAll(deals, es, |es|, i);
      assert DealOf(deals, last.pid) == |deals| - 1;
    }
  }

  const FIVE_THEN_SEVEN := [Deal(0, 5.0), Deal(1, 7.0)]

  /** The second close is finalised first: it books both results, and the first close then takes
      the guard back to the balance before the second. */
  function Swapped(balance: real, ticket: Ticket): seq<BrokerProtocol.Event> {
    TwoCloses(ticket, Finalized(1, Some(Accounting(7.0, Some(balance + 12.0))), 0.0),
              Finalized(0, Some(Accounting(5.0, Some(balance + 5.0))), 0.0))
  }

  lemma {:induction false} SwappedIsStale(config: Config, balance: real, ticket: Ticket)
    requires StartTakes(config, balance, ticket)
    ensures var (s0, es) := (Started(config, Some(balance)), Swapped(balance, ticket));
            var s := BrokerProtocol.Run(s0, es, 10);
            && EndsStale(s0, balance, FIVE_THEN_SEVEN, es, 1)
            && s.log == [Booking(1, 12.0, true), Booking(0, -7.0, true)]
            && s.guard.balance == balance + 5.0
  {
    hide BrokerProtocol.Run, PossibleFrom, Started, Takes, Twin;
    var first := Finalized(1, Some(Accounting(7.0, Some(balance + 12.0))), 0.0);
    var second := Finalized(0, Some(Accounting(5.0, Some(balance + 5.0))), 0.0);
    TwoClosesRun(config, balance, ticket, first, second);
    StartsWith(config, balance);
    SwappedDeals(balance, ticket);
  }

  lemma {:induction false} SwappedDeals(balance: real, ticket: Ticket)
    ensures var es := Swapped(balance, ticket);
            && Truthful(balance, FIVE_THEN_SEVEN, es) && AllFinalized(FIVE_THEN_SEVEN, es)
            && Overtaken(FIVE_THEN_SEVEN, es, |es|) == 1 && BalanceAfter(balance, FIVE_THEN_SEVEN, 2) == balance + 12.0
  {
    hide Twin;
    var es, deals := Swapped(balance, ticket), FIVE_THEN_SEVEN;
    assert DealOf(deals, 0) == 0 && DealOf(deals, 1) == 1;
    assert BalanceAfter(balance, deals, 1) == balance + 5.0;
    NoneOvertaken(deals, es, 8);
    assert Known(deals, es, 9) == 2 && Overtaken(deals, es, 9) == 0;
    assert es[8].pid == deals[1].pid && es[9].pid == deals[0].pid;
  }

  lemma {:induction false} NoneOvertaken(deals: seq<Deal>, es: seq<BrokerProtocol.Event>, n: nat)
    requires n <= |es| && forall i :: 0 <= i < n ==> !es[i].Finalized?
    ensures Overtaken(deals, es, n) == 0 && Known(deals, es, n) == 0
  {
    if n > 0 { NoneOvertaken(deals, es, n - 1); }
  }

  /** With every close matched, the guard can still end at a stale balance on some possible run if
      and only if a finalisation may be overtaken. */
  lemma {:induction false} OvertakingBound(config: Config, balance: real, ticket: Ticket, n: nat)
    requires StartTakes(config, balance, ticket)
    ensures (exists deals, es :: EndsStale(Started(config, Some(balance)), balance, deals, es, n)) <==> n >= 1
  {
    hide PossibleFrom, BrokerProtocol.Run, Started, Takes, Truthful, AllFinalized, Swapped;
    var s0 := Started(config, Some(balance));
    if n >= 1 {
      SwappedIsStale(config, balance, ticket);
      assert EndsStale(s0, balance, FIVE_THEN_SEVEN, Swapped(balance, ticket), n);
    } else {
      forall deals, es ensures !EndsStale(s0, balance, deals, es, n) {
        if PossibleFrom(s0, es) && Truthful(balance, deals, es) && AllFinalized(deals, es)
           && Overtaken(deals, es, |es|) == 0 {
          InOrderEndsRight(config, balance, deals, es);
        }
      }
    }
  }
}
