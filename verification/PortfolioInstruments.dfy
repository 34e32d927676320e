/** Without the one-position-per-instrument flag the set of open instruments can lose an
    instrument that another open leg still holds. */
module PortfolioInstruments {
  import opened Prelude
  import opened ChallengeRulesModel
  import opened ChallengeSim
  import opened PortfolioSim
  import opened PortfolioLaws

  /** The instrument set is exactly the open legs' instruments. */
  ghost predicate Agrees(p: Portfolio, s: Account) {
    forall i :: i in s.instruments <==> exists k :: k in s.open && k < |p.legs| && p.legs[k].instrument == i
  }

  /** The entry caps let two legs be open together. */
  predicate AdmitsTwo(caps: Caps) {
    caps.perDay >= 1 && caps.concurrent >= 2 && caps.openRisk + EPS >= 0.0
  }

  /** At some event its run gets to, the instrument set is wrong. */
  ghost predicate LosesInstrument(p: Portfolio, j: nat) {
    var es := Stream(p.legs);
    && Sane(p.legs) && p.InRange(es) && j <= p.FirstEvent(es, 0)
    && !Agrees(p, p.After(es, j))
  }

  // ----- at most one open leg -----

  lemma {:induction false} TakenOnSome(p: Portfolio, accepted: set<nat>, k: nat, n: nat)
    requires k in accepted && k < n <= |p.legs|
    ensures TakenOn(p, accepted, EntryDay(p, k), n) >= 1
  {
    if k < n - 1 { TakenOnSome(p, accepted, k, n - 1); }
  }

  lemma {:induction false} AtMostOneOpen(p: Portfolio, j: nat)
    requires Sane(p.legs) && j <= |Stream(p.legs)| && !AdmitsTwo(p.caps)
    ensures |p.After(Stream(p.legs), j).open| <= 1
  {
    hide Portfolio.After, Stream, TakenOn, Weigh, OnePerInstrument;
    var s := p.After(Stream(p.legs), j);
    EveryStateWithinCaps(p, j);
    AcceptedAreLegs(p, j);
    if s.open != {} {
      var k: nat :| k in s.open;
      WeighNonNegative(Risks(p.legs), s.open, |p.legs|);
      TakenOnSome(p, s.accepted, k, |p.legs|);
    }
  }

  lemma {:induction false} AcceptedAreLegs(p: Portfolio, j: nat)
    requires Sane(p.legs) && j <= |Stream(p.legs)|
    ensures var s := p.After(Stream(p.legs), j);
            (forall k :: k in s.accepted ==> k < |p.legs|) && s.open <= s.accepted
  {
    hide Sane, Portfolio.After, Stream, Seen, OfferedBy, TakenOn, Weigh, Portfolio.InRange, WithinCaps,
      OnePerInstrument, DailyCap;
    StreamFacts(p.legs);
    InRangeOf(p, Stream(p.legs));
    RunKeeps(p, Stream(p.legs), j);
  }

  // ----- one step -----

  lemma {:induction false} OpenAgrees(p: Portfolio, s: Account, k: nat)
    requires Agrees(p, s) && k < |p.legs|
    ensures Agrees(p, p.Offered(s, k))
  {
    hide Portfolio.Rejects;
    var t := p.Offered(s, k);
    if t.open != s.open || t.instruments != s.instruments {
      forall i ensures i in t.instruments <==> exists m :: m in t.open && m < |p.legs| && p.legs[m].instrument == i {
        if i in s.instruments {
          var m :| m in s.open && m < |p.legs| && p.legs[m].instrument == i;
          assert m in t.open;
        } else if i == p.legs[k].instrument {
          assert k in t.open;
        }
      }
    }
  }

  /** A close keeps the set right exactly when no other open leg shares the instrument. */
  lemma {:induction false} CloseAgrees(p: Portfolio, s: Account, k: nat)
    requires Agrees(p, s) && k < |p.legs| && k in s.open && k in s.accepted
    ensures Agrees(p, p.Closed(s, k)) <==>
              forall m :: m in s.open && m < |p.legs| && m != k ==> p.legs[m].instrument != p.legs[k].instrument
  {
    var t := p.Closed(s, k);
    if Agrees(p, t) {
      forall m | m in s.open && m < |p.legs| && m != k ensures p.legs[m].instrument != p.legs[k].instrument {
        assert m in t.open;
      }
    }
    if forall m :: m in s.open && m < |p.legs| && m != k ==> p.legs[m].instrument != p.legs[k].instrument {
      forall i ensures i in t.instruments <==> exists m :: m in t.open && m < |p.legs| && p.legs[m].instrument == i {
        if i in t.instruments {
          var m :| m in s.open && m < |p.legs| && p.legs[m].instrument == i;
          assert m in t.open;
        }
      }
    }
  }

  lemma {:induction false} OnlyOne(open: set<nat>, k: nat, m: nat)
    requires |open| <= 1 && k in open && m in open
    ensures k == m
  {
    if k != m {
      assert {k, m} <= open;
      Larger({k, m}, open);
    }
  }

  lemma {:induction false} Larger(a: set<nat>, b: set<nat>)
    requires a <= b
    ensures |a| <= |b|
  {
    if a != {} {
      var k: nat :| k in a;
      Larger(a - {k}, b - {k});
    }
  }

  lemma {:induction false} AgreesStep(p: Portfolio, s: Account, e: Event)
    requires Agrees(p, s) && |s.open| <= 1 && e.k < |p.legs|
    requires !e.opening ==> (e.k in s.accepted <==> e.k in s.open)
    ensures Agrees(p, p.Step(s, e))
  {
    hide Agrees, Portfolio.Low, Portfolio.Rejects, TradingDay, Portfolio.Offered, Portfolio.Closed;
    var s1 := p.Rolled(s, e.ms);
    SameSets(p, s, s1);
    if e.opening {
      var s2 := s1.(days := s1.days + {TradingDay(e.ms, p.rules.resetOffsetMs)});
      SameSets(p, s1, s2);
      OpenAgrees(p, s2, e.k);
    } else {
      CloseAlone(p, s1, e.k);
    }
    SameSets(p, p.Apply(s, e), p.Step(s, e));
  }

  lemma {:induction false} SameSets(p: Portfolio, s: Account, t: Account)
    requires t.open == s.open && t.instruments == s.instruments
    ensures Agrees(p, s) <==> Agrees(p, t)
  {
  }

  lemma {:induction false} CloseAlone(p: Portfolio, s: Account, k: nat)
    requires Agrees(p, s) && |s.open| <= 1 && k < |p.legs| && (k in s.accepted <==> k in s.open)
    ensures Agrees(p, p.Closed(s, k))
  {
    hide Agrees;
    if k in s.open {
      forall m | m in s.open ensures m == k { OnlyOne(s.open, k, m); }
      CloseAgrees(p, s, k);
    }
  }

  lemma {:induction false} AlwaysAgrees(p: Portfolio, j: nat)
    requires Sane(p.legs) && j <= |Stream(p.legs)| && !AdmitsTwo(p.caps)
    ensures Agrees(p, p.After(Stream(p.legs), j))
  {
    hide Sane, Portfolio.After, Portfolio.Step, Stream, Portfolio.InRange, Portfolio.Verdict, Kept, AdmitsTwo, Agrees;
    var es := Stream(p.legs);
    StreamFacts(p.legs);
    InRangeOf(p, es);
    if j == 0 {
      AtStart(p, es);
      FreshAgrees(p);
    } else {
      AlwaysAgrees(p, j - 1);
      AtMostOneOpen(p, j - 1);
      RunKeeps(p, es, j - 1);
      KeptAtCursor(p, p.After(es, j - 1), es, j - 1);
      AtEvent(p, es, j - 1);
      AgreesStep(p, p.After(es, j - 1), es[j - 1]);
    }
  }

  lemma {:induction false} FreshAgrees(p: Portfolio)
    ensures Agrees(p, FRESH)
  {
  }

  lemma {:induction false} FlagAgrees(p: Portfolio, j: nat)
    requires Sane(p.legs) && j <= |Stream(p.legs)| && p.caps.onePerInstrument
    ensures Agrees(p, p.After(Stream(p.legs), j))
  {
    hide Portfolio.After, Stream, TakenOn, Weigh, Cap;
    EveryStateWithinCaps(p, j);
  }

  // ----- two legs of one instrument -----

  /** Two free legs on one instrument, opened a day apart; the second closes first. */
  function Doubled(caps: Caps): Portfolio {
    Portfolio([Leg("A", TradeReturn(0, 86_400_002, 0.0, 0.0, 0), 0.0),
               Leg("A", TradeReturn(86_400_000, 86_400_001, 0.0, 0.0, 1), 0.0)],
              Rules(8.0, 5.0, 5.0, 10.0, false, 0, None, 0), caps, 8.0)
  }

  lemma {:induction false} DoubledStream(caps: Caps)
    ensures Stream(Doubled(caps).legs) ==
              [Event(0, true, 0), Event(86_400_000, true, 1), Event(86_400_001, false, 1), Event(86_400_002, false, 0)]
  {
    var ts := Trades(Doubled(caps).legs);
    var o0, c0 := Event(0, true, 0), Event(86_400_002, false, 0);
    var o1, c1 := Event(86_400_000, true, 1), Event(86_400_001, false, 1);
    assert Events(ts) == [o0, c0, o1, c1];
    assert [o1, c1][1..] == [c1] && [c1][1..] == [];
    assert [o0, c0, o1, c1][1..] == [c0, o1, c1] && [c0, o1, c1][1..] == [o1, c1];
    assert StableSort([c1], FreeFirst) == [c1];
    assert StableSort([o1, c1], FreeFirst) == [o1, c1];
    assert Insert(c0, [c1], FreeFirst) == [c1, c0] by { assert Insert(c0, [], FreeFirst) == [c0]; }
    assert Insert(c0, [o1, c1], FreeFirst) == [o1] + [c1, c0];
    assert StableSort([c0, o1, c1], FreeFirst) == [o1, c1, c0];
  }

  lemma {:induction false} DoubledLow(caps: Caps, s: Account)
    ensures Doubled(caps).Low(s) == s.equity
  {
    var w := Maes(Doubled(caps).legs);
    assert Weigh(w, s.open, 1) == 0.0;
    assert Weigh(w, s.open, 2) == 0.0;
  }

  const DOUBLED_1 := Account(0.0, 0.0, 0.0, Some(0), 0.0, {0}, 1, 1, 0, {0}, {"A"}, 0.0, {0})
  const DOUBLED_2 := Account(0.0, 0.0, 0.0, Some(1), 0.0, {0, 1}, 1, 2, 0, {0, 1}, {"A"}, 0.0, {0, 1})
  const DOUBLED_3 := Account(0.0, 0.0, 0.0, Some(1), 0.0, {0, 1}, 1, 2, 0, {0}, {}, 0.0, {0, 1})

  lemma {:induction false} DoubledOpenA(caps: Caps)
    requires AdmitsTwo(caps) && !caps.onePerInstrument
    ensures var (p, e) := (Doubled(caps), Event(0, true, 0));
            p.Step(FRESH, e) == DOUBLED_1 && p.Verdict(FRESH, e) == None
  {
    hide Weigh, Portfolio.Low;
    DoubledLow(caps, DOUBLED_1);
    assert Doubled(caps).Apply(FRESH, Event(0, true, 0)) == DOUBLED_1;
  }

  lemma {:induction false} DoubledOpenB(caps: Caps)
    requires AdmitsTwo(caps) && !caps.onePerInstrument
    ensures var (p, e) := (Doubled(caps), Event(86_400_000, true, 1));
            p.Step(DOUBLED_1, e) == DOUBLED_2 && p.Verdict(DOUBLED_1, e) == None
  {
    hide Weigh, Portfolio.Low;
    DoubledLow(caps, DOUBLED_2);
    assert {0} + {1} == {0, 1};
    assert Doubled(caps).Apply(DOUBLED_1, Event(86_400_000, true, 1)) == DOUBLED_2;
  }

  lemma {:induction false} DoubledCloseB(caps: Caps)
    ensures var (p, e) := (Doubled(caps), Event(86_400_001, false, 1));
            p.Step(DOUBLED_2, e) == DOUBLED_3 && p.Verdict(DOUBLED_2, e) == None
  {
    hide Weigh, Portfolio.Low;
    DoubledLow(caps, DOUBLED_3);
    assert {0, 1} - {1} == {0};
    assert Doubled(caps).Apply(DOUBLED_2, Event(86_400_001, false, 1)) == DOUBLED_3;
  }

  /** A run in which closing one leg drops the instrument the other still holds. */
  lemma {:induction false} DoubledLoses(caps: Caps)
    requires AdmitsTwo(caps) && !caps.onePerInstrument
    ensures var p := Doubled(caps);
            && LosesInstrument(p, 3)
            && p.After(Stream(p.legs), 3) == DOUBLED_3
  {
    hide Portfolio.Step, Portfolio.Verdict, Portfolio.ResultAt, Portfolio.FirstEvent, Portfolio.After, Stream,
      Portfolio.Report;
    var p := Doubled(caps);
    var es := Stream(p.legs);
    StreamFacts(p.legs);
    InRangeOf(p, es);
    DoubledStream(caps);
    DoubledOpenA(caps);
    DoubledOpenB(caps);
    DoubledCloseB(caps);
    AtStart(p, es);
    AtEvent(p, es, 0);
    AtEvent(p, es, 1);
    AtEvent(p, es, 2);
    assert 0 in DOUBLED_3.open && "A" !in DOUBLED_3.instruments;
  }

  /** Under given caps some legs leave the instrument set wrong after some event exactly when the
      flag is off and the caps let two legs be open together. */
  lemma {:induction false} InstrumentsBound(caps: Caps)
    ensures (exists p: Portfolio, j: nat :: p.caps == caps && LosesInstrument(p, j)) <==>
              !caps.onePerInstrument && AdmitsTwo(caps)
  {
    hide LosesInstrument, AdmitsTwo;
    if !caps.onePerInstrument && AdmitsTwo(caps) {
      DoubledLoses(caps);
    } else {
      forall p: Portfolio, j: nat | p.caps == caps ensures !LosesInstrument(p, j) {
        NeverLoses(p, j);
      }
    }
  }

  lemma {:induction false} NeverLoses(p: Portfolio, j: nat)
    requires p.caps.onePerInstrument || !AdmitsTwo(p.caps)
    ensures !LosesInstrument(p, j)
  {
    hide Sane, AdmitsTwo, Agrees, Portfolio.After, Stream, Portfolio.FirstEvent;
    if LosesInstrument(p, j) {
      if p.caps.onePerInstrument { FlagAgrees(p, j); } else { AlwaysAgrees(p, j); }
    }
  }
}
