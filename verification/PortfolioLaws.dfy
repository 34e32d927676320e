/** What the shared-account simulation keeps at every step, and what its verdicts promise. */
module PortfolioLaws {
  import opened Prelude
  import opened ChallengeRulesModel
  import opened ChallengeSim
  import opened PortfolioSim

  // ----- weighted sums over sets of legs -----

  lemma {:induction false} WeighAdd(w: seq<real>, s: set<nat>, k: nat, n: nat)
    requires n <= |w| && k !in s
    ensures Weigh(w, s + {k}, n) == Weigh(w, s, n) + if k < n then w[k] else 0.0
  {
    if n > 0 { WeighAdd(w, s, k, n - 1); }
  }

  lemma {:induction false} WeighRemove(w: seq<real>, s: set<nat>, k: nat, n: nat)
    requires n <= |w| && k in s
    ensures Weigh(w, s - {k}, n) == Weigh(w, s, n) - if k < n then w[k] else 0.0
  {
    assert s - {k} + {k} == s;
    WeighAdd(w, s - {k}, k, n);
  }

  lemma {:induction false} WeighNone(w: seq<real>, s: set<nat>, n: nat)
    requires n <= |w| && forall k :: k in s ==> k >= n
    ensures Weigh(w, s, n) == 0.0
  {
    if n > 0 { WeighNone(w, s, n - 1); }
  }

  lemma {:induction false} WeighNonNegative(w: seq<real>, s: set<nat>, n: nat)
    requires n <= |w| && forall k :: 0 <= k < n ==> w[k] >= 0.0
    ensures Weigh(w, s, n) >= 0.0
  {
    if n > 0 { WeighNonNegative(w, s, n - 1); }
  }

  /** Floating results, each no worse than its leg's excursion, are together no worse than
      all excursions at once. */
  lemma {:induction false} FloatingBound(float: seq<real>, mae: seq<real>, s: set<nat>, n: nat)
    requires n <= |float| && n <= |mae|
    requires forall k :: k in s && k < n ==> float[k] >= -mae[k]
    ensures Weigh(float, s, n) >= -Weigh(mae, s, n)
  {
    if n > 0 { FloatingBound(float, mae, s, n - 1); }
  }

  /** A set of all indices below `n` has `n` members. */
  lemma {:induction false} FullSet(s: set<nat>, n: nat)
    requires forall k: nat :: k in s <==> k < n
    ensures |s| == n
  {
    if n > 0 {
      FullSet(s - {n - 1}, n - 1);
    } else {
      assert s == {};
    }
  }

  // ----- which legs are open -----

  /** Positive holding time, and no negative excursion or risk. */
  ghost predicate Sane(legs: seq<Leg>) {
    forall i :: 0 <= i < |legs| ==>
      legs[i].trade.entryMs < legs[i].trade.exitMs && legs[i].trade.mae >= 0.0 && legs[i].risk >= 0.0
  }

  ghost predicate Sorted(p: Portfolio, es: seq<Event>) {
    && Ordered(es, FreeFirst, EventIndex)
    && forall e :: e in es <==> e.k < |p.legs| && e == EventOf(Trades(p.legs), e.k, e.opening)
  }

  function Entry(p: Portfolio, k: nat): Event
    requires k < |p.legs|
  {
    Event(p.legs[k].trade.entryMs, true, k)
  }

  function Exit(p: Portfolio, k: nat): Event
    requires k < |p.legs|
  {
    Event(p.legs[k].trade.exitMs, false, k)
  }

  /** The event under the cursor: new to the stream, and for a CLOSE its OPEN is behind. */
  lemma {:induction false} CursorFacts(p: Portfolio, es: seq<Event>, j: nat)
    requires Sane(p.legs) && Sorted(p, es) && j < |es|
    ensures es[j].k < |p.legs| && es[j] == (if es[j].opening then Entry(p, es[j].k) else Exit(p, es[j].k))
    ensures !Seen(es, j, es[j])
    ensures es[j].opening ==> !Seen(es, j, Exit(p, es[j].k))
    ensures !es[j].opening ==> Seen(es, j, Entry(p, es[j].k))
  {
    var e := es[j];
    assert e in es && e == EventOf(Trades(p.legs), e.k, e.opening);
    SeenIsBefore(es, j, e, FreeFirst);
    var other := EventOf(Trades(p.legs), e.k, !e.opening);
    assert other in es;
    SeenIsBefore(es, j, other, FreeFirst);
  }

  /** A leg is open exactly from its accepted OPEN to its CLOSE. */
  ghost predicate Positions(p: Portfolio, s: Account, es: seq<Event>, j: nat)
    requires j <= |es|
  {
    && (forall k: nat :: k in s.accepted ==> k < |p.legs| && Seen(es, j, Entry(p, k)))
    && (forall k: nat :: k in s.open <==> k in s.accepted && !Seen(es, j, Exit(p, k)))
  }

  lemma {:induction false} SeenStep(p: Portfolio, es: seq<Event>, j: nat, k: nat)
    requires j < |es| && k < |p.legs|
    ensures Seen(es, j + 1, Entry(p, k)) <==> Seen(es, j, Entry(p, k)) || es[j] == Entry(p, k)
    ensures Seen(es, j + 1, Exit(p, k)) <==> Seen(es, j, Exit(p, k)) || es[j] == Exit(p, k)
  {
    SeenNext(es, j, Entry(p, k));
    SeenNext(es, j, Exit(p, k));
  }

  lemma {:induction false} PositionsStep(p: Portfolio, s: Account, es: seq<Event>, j: nat)
    requires Sane(p.legs) && Sorted(p, es) && j < |es| && Positions(p, s, es, j)
    ensures es[j].k < |p.legs| && Positions(p, p.Step(s, es[j]), es, j + 1)
  {
    hide Sane, Sorted, Seen, Portfolio.Rejects, Portfolio.Low;
    CursorFacts(p, es, j);
    forall k: nat | k < |p.legs|
      ensures Seen(es, j + 1, Entry(p, k)) <==> Seen(es, j, Entry(p, k)) || es[j] == Entry(p, k)
      ensures Seen(es, j + 1, Exit(p, k)) <==> Seen(es, j, Exit(p, k)) || es[j] == Exit(p, k)
    {
      SeenStep(p, es, j, k);
    }
  }

  // ----- the account's books -----

  /** Equity is the sum of the closed results, open risk the sum of the open risks, and every
      offered leg is either taken or skipped. */
  ghost predicate Books(p: Portfolio, s: Account, offered: set<nat>) {
    && s.open <= s.accepted <= offered
    && (forall k :: k in offered ==> k < |p.legs|)
    && s.equity == Weigh(Rets(p.legs), s.accepted - s.open, |p.legs|)
    && s.openRisk == Weigh(Risks(p.legs), s.open, |p.legs|)
    && s.taken == |s.accepted|
    && s.taken + s.skipped == |offered|
  }

  function OfferedNext(offered: set<nat>, e: Event): set<nat> {
    if e.opening then offered + {e.k} else offered
  }

  lemma {:induction false} BooksOffer(p: Portfolio, s: Account, offered: set<nat>, k: nat)
    requires Books(p, s, offered) && k < |p.legs| && k !in offered
    ensures Books(p, p.Offered(s, k), offered + {k})
  {
    hide Portfolio.Rejects;
    assert s.accepted + {k} - (s.open + {k}) == s.accepted - s.open;
    WeighAdd(Risks(p.legs), s.open, k, |p.legs|);
  }

  lemma {:induction false} BooksClose(p: Portfolio, s: Account, offered: set<nat>, k: nat)
    requires Books(p, s, offered) && k < |p.legs| && (k in s.accepted <==> k in s.open)
    ensures Books(p, p.Closed(s, k), offered)
  {
    if k in s.open {
      assert s.accepted - (s.open - {k}) == s.accepted - s.open + {k};
      WeighAdd(Rets(p.legs), s.accepted - s.open, k, |p.legs|);
      WeighRemove(Risks(p.legs), s.open, k, |p.legs|);
    }
  }

  lemma {:induction false} BooksStep(p: Portfolio, s: Account, offered: set<nat>, e: Event)
    requires Books(p, s, offered) && e.k < |p.legs|
    requires e.opening ==> e.k !in offered
    requires !e.opening ==> (e.k in s.accepted <==> e.k in s.open)
    ensures Books(p, p.Step(s, e), OfferedNext(offered, e))
  {
    hide Portfolio.Rejects, Portfolio.Low, Portfolio.Offered, Portfolio.Closed, Weigh, TradingDay, Max, Dip;
    var s1 := p.Rolled(s, e.ms);
    if e.opening {
      var s2 := s1.(days := s1.days + {TradingDay(e.ms, p.rules.resetOffsetMs)});
      BooksOffer(p, s2, offered, e.k);
    } else {
      BooksClose(p, s1, offered, e.k);
    }
  }

  // ----- the caps -----

  /** Concurrency and summed open risk never exceed their caps. */
  ghost predicate WithinCaps(p: Portfolio, s: Account) {
    s.open != {} ==> |s.open| <= p.caps.concurrent && s.openRisk <= p.caps.openRisk + EPS
  }

  lemma {:induction false} WithinCapsStep(p: Portfolio, s: Account, offered: set<nat>, e: Event)
    requires Sane(p.legs) && Books(p, s, offered) && WithinCaps(p, s) && e.k < |p.legs|
    requires e.opening ==> e.k !in offered
    requires !e.opening ==> (e.k in s.accepted <==> e.k in s.open)
    ensures WithinCaps(p, p.Step(s, e))
  {
    hide Portfolio.Low, TradingDay, Max, Dip, Weigh;
  }

  /** The instrument set is exactly the open legs', and no two open legs share one. */
  ghost predicate OnePerInstrument(p: Portfolio, open: set<nat>, instruments: set<string>)
  {
    && (forall k :: k in open ==> k < |p.legs| && p.legs[k].instrument in instruments)
    && (forall i :: i in instruments ==> exists k :: k in open && k < |p.legs| && p.legs[k].instrument == i)
    && (forall a, b | a in open && b in open && a < |p.legs| && b < |p.legs| ::
          p.legs[a].instrument == p.legs[b].instrument ==> a == b)
  }

  lemma {:induction false} OpenKeepsOne(p: Portfolio, open: set<nat>, instruments: set<string>, k: nat)
    requires k < |p.legs| && OnePerInstrument(p, open, instruments) && p.legs[k].instrument !in instruments
    ensures OnePerInstrument(p, open + {k}, instruments + {p.legs[k].instrument})
  {
    forall i | i in instruments + {p.legs[k].instrument}
      ensures exists m :: m in open + {k} && m < |p.legs| && p.legs[m].instrument == i
    {
      if i in instruments {
        var m :| m in open && m < |p.legs| && p.legs[m].instrument == i;
        assert m in open + {k};
      } else {
        assert k in open + {k};
      }
    }
  }

  lemma {:induction false} CloseKeepsOne(p: Portfolio, open: set<nat>, instruments: set<string>, k: nat)
    requires k in open && k < |p.legs| && OnePerInstrument(p, open, instruments)
    ensures OnePerInstrument(p, open - {k}, instruments - {p.legs[k].instrument})
  {
    forall i | i in instruments - {p.legs[k].instrument}
      ensures exists m :: m in open - {k} && m < |p.legs| && p.legs[m].instrument == i
    {
      var m :| m in open && m < |p.legs| && p.legs[m].instrument == i;
      assert m in open - {k};
    }
  }

  lemma {:induction false} OnePerInstrumentStep(p: Portfolio, s: Account, e: Event)
    requires p.caps.onePerInstrument && e.k < |p.legs|
    requires !e.opening ==> (e.k in s.accepted <==> e.k in s.open)
    requires OnePerInstrument(p, s.open, s.instruments)
    ensures OnePerInstrument(p, p.Step(s, e).open, p.Step(s, e).instruments)
  {
    hide Portfolio.Low, TradingDay, Max, Dip, OnePerInstrument;
    if e.opening {
      if p.legs[e.k].instrument !in s.instruments { OpenKeepsOne(p, s.open, s.instruments, e.k); }
    } else if e.k in s.open {
      CloseKeepsOne(p, s.open, s.instruments, e.k);
    }
  }

  // ----- the daily cap -----

  function EntryDay(p: Portfolio, k: nat): int
    requires k < |p.legs|
  {
    TradingDay(p.legs[k].trade.entryMs, p.rules.resetOffsetMs)
  }

  /** How many of the first `n` legs were accepted on firm day `d`. */
  function TakenOn(p: Portfolio, accepted: set<nat>, d: int, n: nat): nat
    requires n <= |p.legs|
  {
    if n == 0 then 0
    else TakenOn(p, accepted, d, n - 1) + if n - 1 in accepted && EntryDay(p, n - 1) == d then 1 else 0
  }

  lemma {:induction false} TakenOnAdd(p: Portfolio, accepted: set<nat>, k: nat, d: int, n: nat)
    requires k < |p.legs| && n <= |p.legs| && k !in accepted
    ensures TakenOn(p, accepted + {k}, d, n) ==
              TakenOn(p, accepted, d, n) + if k < n && EntryDay(p, k) == d then 1 else 0
  {
    if n > 0 { TakenOnAdd(p, accepted, k, d, n - 1); }
  }

  lemma {:induction false} TakenOnNone(p: Portfolio, accepted: set<nat>, d: int, n: nat)
    requires n <= |p.legs|
    requires forall k :: k in accepted && k < n ==> EntryDay(p, k) != d
    ensures TakenOn(p, accepted, d, n) == 0
  {
    if n > 0 { TakenOnNone(p, accepted, d, n - 1); }
  }

  /** On no firm day were more legs accepted than the cap allows. */
  ghost predicate DailyCap(p: Portfolio, s: Account) {
    && (forall k :: k in s.accepted ==> k < |p.legs| && s.day.Some? && EntryDay(p, k) <= s.day.value)
    && (s.day.Some? ==> s.today == TakenOn(p, s.accepted, s.day.value, |p.legs|))
    && (forall d :: TakenOn(p, s.accepted, d, |p.legs|) <= Cap(p))
  }

  function Cap(p: Portfolio): nat {
    if p.caps.perDay > 0 then p.caps.perDay else 0
  }

  lemma {:induction false} DailyCapStep(p: Portfolio, s: Account, e: Event)
    requires DailyCap(p, s) && e.k < |p.legs| && (e.opening ==> e == Entry(p, e.k) && e.k !in s.accepted)
    requires s.day.Some? ==> s.day.value <= TradingDay(e.ms, p.rules.resetOffsetMs)
    ensures DailyCap(p, p.Step(s, e))
    ensures p.Step(s, e).day == Some(TradingDay(e.ms, p.rules.resetOffsetMs))
  {
    hide Portfolio.Low, TradingDay, Max, Dip, Weigh, TakenOn;
    var d := TradingDay(e.ms, p.rules.resetOffsetMs);
    var s1 := p.Rolled(s, e.ms);
    if s.day != Some(d) {
      TakenOnNone(p, s.accepted, d, |p.legs|);
    }
    assert s1.today == TakenOn(p, s1.accepted, d, |p.legs|);
    if e.opening {
      forall d1
        ensures TakenOn(p, s.accepted + {e.k}, d1, |p.legs|) ==
                  TakenOn(p, s.accepted, d1, |p.legs|) + if EntryDay(p, e.k) == d1 then 1 else 0
      {
        TakenOnAdd(p, s.accepted, e.k, d1, |p.legs|);
      }
    }
  }

  // ----- the invariant of every run -----

  /** The legs whose OPEN lies among the first `j` events. */
  function OfferedBy(es: seq<Event>, j: nat): set<nat>
    requires j <= |es|
  {
    if j == 0 then {} else OfferedNext(OfferedBy(es, j - 1), es[j - 1])
  }

  ghost predicate Kept(p: Portfolio, s: Account, es: seq<Event>, j: nat)
    requires j <= |es|
  {
    && Positions(p, s, es, j)
    && Books(p, s, OfferedBy(es, j))
    && (forall k: nat :: k in OfferedBy(es, j) <==> k < |p.legs| && Seen(es, j, Entry(p, k)))
    && WithinCaps(p, s)
    && (p.caps.onePerInstrument ==> OnePerInstrument(p, s.open, s.instruments))
    && DailyCap(p, s)
    && s.day == (if j == 0 then None else Some(TradingDay(es[j - 1].ms, p.rules.resetOffsetMs)))
  }

  lemma {:induction false} DayAdvances(p: Portfolio, es: seq<Event>, j: nat)
    requires Sorted(p, es) && 0 < j < |es|
    ensures TradingDay(es[j - 1].ms, p.rules.resetOffsetMs) <= TradingDay(es[j].ms, p.rules.resetOffsetMs)
  {
    assert Before(es[j - 1], es[j], FreeFirst, EventIndex);
    assert es[j - 1].ms <= es[j].ms;
  }

  lemma {:induction false} OfferedStep(p: Portfolio, es: seq<Event>, j: nat)
    requires Sane(p.legs) && Sorted(p, es) && j < |es|
    requires forall k: nat :: k in OfferedBy(es, j) <==> k < |p.legs| && Seen(es, j, Entry(p, k))
    ensures forall k: nat :: k in OfferedBy(es, j + 1) <==> k < |p.legs| && Seen(es, j + 1, Entry(p, k))
  {
    hide Sane, Sorted, Seen;
    CursorFacts(p, es, j);
    forall k: nat | k < |p.legs|
      ensures Seen(es, j + 1, Entry(p, k)) <==> Seen(es, j, Entry(p, k)) || es[j] == Entry(p, k)
    {
      SeenStep(p, es, j, k);
    }
  }

  lemma {:induction false} InRangeOf(p: Portfolio, es: seq<Event>)
    requires Sorted(p, es)
    ensures p.InRange(es)
  {
  }

  /** What the event under the cursor finds: an OPEN meets a new leg, a CLOSE an accepted leg
      only while it is open, and the firm day never goes back. */
  lemma {:induction false} KeptAtCursor(p: Portfolio, s: Account, es: seq<Event>, j: nat)
    requires Sane(p.legs) && Sorted(p, es) && j < |es| && Kept(p, s, es, j)
    ensures es[j].k < |p.legs|
    ensures es[j].opening ==> es[j] == Entry(p, es[j].k) && es[j].k !in OfferedBy(es, j) && es[j].k !in s.accepted
    ensures !es[j].opening ==> (es[j].k in s.accepted <==> es[j].k in s.open)
    ensures s.day.Some? ==> s.day.value <= TradingDay(es[j].ms, p.rules.resetOffsetMs)
  {
    hide Sane, Sorted, Seen, WithinCaps, OnePerInstrument, DailyCap, TradingDay, OfferedBy, Weigh;
    CursorFacts(p, es, j);
    if j > 0 { DayAdvances(p, es, j); }
  }

  lemma {:induction false} KeptStep(p: Portfolio, s: Account, es: seq<Event>, j: nat)
    requires Sane(p.legs) && Sorted(p, es) && j < |es| && Kept(p, s, es, j)
    ensures es[j].k < |p.legs| && Kept(p, p.Step(s, es[j]), es, j + 1)
  {
    hide Sane, Sorted, Seen, Portfolio.Step, WithinCaps, OnePerInstrument, DailyCap, TradingDay, Positions, Books;
    KeptAtCursor(p, s, es, j);
    PositionsStep(p, s, es, j);
    OfferedStep(p, es, j);
    BooksStep(p, s, OfferedBy(es, j), es[j]);
    WithinCapsStep(p, s, OfferedBy(es, j), es[j]);
    if p.caps.onePerInstrument { OnePerInstrumentStep(p, s, es[j]); }
    DailyCapStep(p, s, es[j]);
  }

  lemma {:induction false} RunKeeps(p: Portfolio, es: seq<Event>, j: nat)
    requires Sane(p.legs) && Sorted(p, es) && p.InRange(es) && j <= |es|
    ensures Kept(p, p.After(es, j), es, j)
  {
    hide Sane, Sorted, Portfolio.Step, Portfolio.InRange;
    if j == 0 {
      KeptAtStart(p, es);
    } else {
      RunKeeps(p, es, j - 1);
      KeptStep(p, p.After(es, j - 1), es, j - 1);
      AtEvent(p, es, j - 1);
    }
  }

  lemma {:induction false} KeptAtStart(p: Portfolio, es: seq<Event>)
    ensures Kept(p, FRESH, es, 0)
  {
    var n := |p.legs|;
    WeighNone(Risks(p.legs), {}, n);
    WeighNone(Rets(p.legs), {}, n);
    var none: set<nat> := {};
    assert none - none == none;
    forall d ensures TakenOn(p, {}, d, n) == 0 {
      TakenOnNone(p, {}, d, n);
    }
  }

  // ----- main results -----

  /** After any number of events of any run: the books balance, the caps hold, and on no firm
      day were more legs taken than allowed. */
  lemma {:induction false} EveryStateWithinCaps(p: Portfolio, j: nat)
    requires Sane(p.legs) && j <= |Stream(p.legs)|
    ensures var s := p.After(Stream(p.legs), j);
            && s.open <= s.accepted
            && s.openRisk == Weigh(Risks(p.legs), s.open, |p.legs|)
            && s.equity == Weigh(Rets(p.legs), s.accepted - s.open, |p.legs|)
            && (s.open != {} ==> |s.open| <= p.caps.concurrent && s.openRisk <= p.caps.openRisk + EPS)
            && (p.caps.onePerInstrument ==> OnePerInstrument(p, s.open, s.instruments))
            && (forall d :: TakenOn(p, s.accepted, d, |p.legs|) <= Cap(p))
  {
    hide Sane, Portfolio.After, Stream, Seen, OfferedBy, TakenOn, Weigh, Portfolio.InRange;
    StreamFacts(p.legs);
    InRangeOf(p, Stream(p.legs));
    RunKeeps(p, Stream(p.legs), j);
  }

  lemma {:induction false} AllSeen(p: Portfolio, es: seq<Event>, k: nat)
    requires Sorted(p, es) && k < |p.legs|
    ensures Seen(es, |es|, Entry(p, k)) && Seen(es, |es|, Exit(p, k))
  {
    var o, c := Entry(p, k), Exit(p, k);
    assert o == EventOf(Trades(p.legs), k, true) && c == EventOf(Trades(p.legs), k, false);
    assert o in es && c in es;
    var i :| 0 <= i < |es| && es[i] == o;
    var m :| 0 <= m < |es| && es[m] == c;
  }

  /** A run that reaches the end has closed every leg it took, taken or skipped every leg of
      the phase, and its equity is the sum of the taken results. */
  lemma {:induction false} RunToEndAccounts(p: Portfolio, startMs: int)
    requires Sane(p.legs) && p.legs != [] && p.Final(startMs).outcome == Incomplete
    ensures var s := p.After(Stream(p.legs), |Stream(p.legs)|);
            var r := p.Final(startMs);
            && s.open == {}
            && r.taken == |s.accepted| && r.taken + r.skipped == |p.legs|
            && r.endReturn == Weigh(Rets(p.legs), s.accepted, |p.legs|)
  {
    hide Sane, Portfolio.After, Stream, Seen, Weigh, Portfolio.InRange, Portfolio.Verdict, Portfolio.Final,
      Portfolio.FirstEvent, WithinCaps, OnePerInstrument, DailyCap, Portfolio.Step, Portfolio.ResultAt;
    var es := Stream(p.legs);
    StreamFacts(p.legs);
    InRangeOf(p, es);
    FinalIsFirst(p, startMs);
    IncompleteIsTheEnd(p, es);
    AtEnd(p, es);
    RunKeeps(p, es, |es|);
    var s := p.After(es, |es|);
    forall k: nat | k < |p.legs| ensures Seen(es, |es|, Entry(p, k)) && Seen(es, |es|, Exit(p, k)) {
      AllSeen(p, es, k);
    }
    assert s.open == {};
    assert s.accepted - s.open == s.accepted;
    FullSet(OfferedBy(es, |es|), |p.legs|);
  }

  lemma {:induction false} IncompleteIsTheEnd(p: Portfolio, es: seq<Event>)
    requires es != [] && p.InRange(es)
    ensures var r := p.FirstEvent(es, 0);
            p.ResultAt(es, r).outcome == Incomplete ==> r == |es|
  {
    hide Portfolio.After, Portfolio.InRange, Portfolio.Step, Portfolio.FirstEvent, Weigh;
    var r := p.FirstEvent(es, 0);
    if r < |es| {
      p.EventDecides(es, 0);
      AtEvent(p, es, r);
      assert p.Verdict(p.After(es, r), es[r]).value != Incomplete;
    }
  }

  /** A passed phase is sound against every floating path: after each event up to the pass,
      whatever the open legs float at, as long as none is below its own worst excursion, equity
      stays above both drawdown floors. */
  lemma {:induction false} PassIsSound(p: Portfolio, startMs: int, j: nat, float: seq<real>)
    requires p.legs != [] && p.Final(startMs).outcome == Pass
    requires j <= p.FirstEvent(Stream(p.legs), 0) < |Stream(p.legs)|
    requires |float| == |p.legs|
    requires forall k :: k in p.After(Stream(p.legs), j + 1).open && k < |p.legs| ==> float[k] >= -p.legs[k].trade.mae
    ensures var s := p.After(Stream(p.legs), j + 1);
            var equity := s.equity + Weigh(float, s.open, |p.legs|);
            && equity > p.rules.MaxFloor(s.peak) + EPS
            && equity > s.sod - p.rules.dailyDd + EPS
  {
    hide Portfolio.After, Portfolio.InRange, Portfolio.Step, Portfolio.FirstEvent, Portfolio.Final, Stream, Weigh;
    var es := Stream(p.legs);
    FinalIsFirst(p, startMs);
    var r := p.FirstEvent(es, 0);
    p.EventDecides(es, 0);
    AtEvent(p, es, j);
    AtEvent(p, es, r);
    if j < r { p.EventPasses(es, 0, j); }
    var s := p.After(es, j + 1);
    assert p.rules.Breach(p.Low(s), s.peak, s.sod) == None;
    FloatingBound(float, Maes(p.legs), s.open, |p.legs|);
  }
}
