/** Several strategies on one prop account: the shared-account event sweep with entry caps
    of app/cfd_research/portfolio_sim.py. */
module PortfolioSim {
  import opened Prelude
  import opened ChallengeRulesModel
  import opened ChallengeSim

  datatype Caps = Caps(perDay: int, concurrent: int, openRisk: real, onePerInstrument: bool)

  datatype Leg = Leg(instrument: string, trade: TradeReturn, risk: real)

  datatype PortfolioResult = PortfolioResult(
    outcome: Outcome, endReturn: real, tradingDays: int, taken: nat, skipped: nat, worstDd: real, endMs: int)

  /** Sum of the weights of the chosen indices below `n`. */
  function Weigh(w: seq<real>, chosen: set<nat>, n: nat): real
    requires n <= |w|
  {
    if n == 0 then 0.0 else Weigh(w, chosen, n - 1) + if n - 1 in chosen then w[n - 1] else 0.0
  }

  function Trades(legs: seq<Leg>): (ts: seq<TradeReturn>)
    ensures |ts| == |legs|
  {
    seq(|legs|, i requires 0 <= i < |legs| => legs[i].trade)
  }

  function Rets(legs: seq<Leg>): (w: seq<real>)
    ensures |w| == |legs|
  {
    seq(|legs|, i requires 0 <= i < |legs| => legs[i].trade.ret)
  }

  function Maes(legs: seq<Leg>): (w: seq<real>)
    ensures |w| == |legs|
  {
    seq(|legs|, i requires 0 <= i < |legs| => legs[i].trade.mae)
  }

  function Risks(legs: seq<Leg>): (w: seq<real>)
    ensures |w| == |legs|
  {
    seq(|legs|, i requires 0 <= i < |legs| => legs[i].risk)
  }

  /** A leg at the swept risk per trade. */
  function AtRisk(leg: Leg, scale: real): Leg {
    Leg(leg.instrument, Scaled(leg.trade, scale), leg.risk * scale)
  }

  /** The legs a phase starting at `startMs` sees. */
  function PhaseLegs(legs: seq<Leg>, startMs: int, scale: real, n: nat): (r: seq<Leg>)
    requires n <= |legs|
  {
    if n == 0 then []
    else
      var rest := PhaseLegs(legs, startMs, scale, n - 1);
      var leg := legs[n - 1];
      if leg.trade.entryMs >= startMs then rest + [AtRisk(leg, scale)] else rest
  }

  /** CLOSE before OPEN at the same instant: freed capacity is available again. */
  function FreeFirst(e: Event): real {
    (2 * e.ms + if e.opening then 1 else 0) as real
  }

  function Stream(legs: seq<Leg>): (es: seq<Event>)
    ensures forall e :: e in es ==> e.k < |legs|
  {
    StreamInRange(legs);
    StableSort(Events(Trades(legs)), FreeFirst)
  }

  lemma {:induction false} StreamInRange(legs: seq<Leg>)
    ensures forall e :: e in StableSort(Events(Trades(legs)), FreeFirst) ==> e.k < |legs|
  {
    hide Ordered, StableSort, Events, EventOf;
    SortedFacts(Trades(legs), FreeFirst);
  }

  lemma {:induction false} StreamFacts(legs: seq<Leg>)
    ensures Ordered(Stream(legs), FreeFirst, EventIndex)
    ensures forall e :: e in Stream(legs) <==> e.k < |legs| && e == EventOf(Trades(legs), e.k, e.opening)
  {
    hide Ordered, StableSort, Events, EventOf;
    SortedFacts(Trades(legs), FreeFirst);
  }

  datatype Account = Account(
    equity: real, peak: real, worst: real, day: Option<int>, sod: real, days: set<int>,
    today: int, taken: nat, skipped: nat,
    open: set<nat>, instruments: set<string>, openRisk: real, accepted: set<nat>)

  const FRESH := Account(0.0, 0.0, 0.0, None, 0.0, {}, 0, 0, 0, {}, {}, 0.0, {})

  datatype Portfolio = Portfolio(legs: seq<Leg>, rules: Rules, caps: Caps, target: real)
  {
    /** Every open leg at its worst excursion at once. */
    function Low(s: Account): real {
      s.equity - Weigh(Maes(legs), s.open, |legs|)
    }

    function Rolled(s: Account, ms: int): Account {
      var d := TradingDay(ms, rules.resetOffsetMs);
      if s.day == Some(d) then s else s.(day := Some(d), sod := s.equity, today := 0)
    }

    predicate Rejects(s: Account, leg: Leg) {
      || s.today >= caps.perDay
      || |s.open| >= caps.concurrent
      || (caps.onePerInstrument && leg.instrument in s.instruments)
      || s.openRisk + leg.risk > caps.openRisk + EPS
    }

    function Offered(s: Account, k: nat): Account
      requires k < |legs|
    {
      if Rejects(s, legs[k]) then s.(skipped := s.skipped + 1)
      else s.(open := s.open + {k}, instruments := s.instruments + {legs[k].instrument},
              openRisk := s.openRisk + legs[k].risk, today := s.today + 1, taken := s.taken + 1,
              accepted := s.accepted + {k})
    }

    function Closed(s: Account, k: nat): Account
      requires k < |legs|
    {
      if k !in s.accepted then s
      else
        var equity := s.equity + legs[k].trade.ret;
        s.(open := s.open - {k}, instruments := s.instruments - {legs[k].instrument},
           openRisk := s.openRisk - legs[k].risk, equity := equity, peak := Max(s.peak, equity))
    }

    function Apply(s: Account, e: Event): Account
      requires e.k < |legs|
    {
      var s1 := Rolled(s, e.ms);
      if e.opening then Offered(s1.(days := s1.days + {TradingDay(e.ms, rules.resetOffsetMs)}), e.k)
      else Closed(s1, e.k)
    }

    function Step(s: Account, e: Event): Account
      requires e.k < |legs|
    {
      var s1 := Apply(s, e);
      s1.(worst := Max(s1.worst, Dip(Low(s1))))
    }

    function Verdict(s: Account, e: Event): Option<Outcome>
      requires e.k < |legs|
    {
      var s1 := Step(s, e);
      var breach := rules.Breach(Low(s1), s1.peak, s1.sod);
      if rules.Overdue(e.ms, legs[0].trade.entryMs) then Some(Timeout)
      else if breach.Some? then breach
      else if !e.opening && s1.equity >= target - EPS && |s1.days| >= rules.minTradingDays then Some(Pass)
      else None
    }

    ghost predicate InRange(es: seq<Event>) {
      forall e :: e in es ==> e.k < |legs|
    }

    /** The account after the first `j` events, whatever they decided. */
    function After(es: seq<Event>, j: nat): Account
      requires j <= |es| && InRange(es)
    {
      if j == 0 then FRESH else Step(After(es, j - 1), es[j - 1])
    }

    function FirstEvent(es: seq<Event>, j: nat): (r: nat)
      requires j <= |es| && InRange(es)
      ensures j <= r <= |es|
      decreases |es| - j
    {
      if j == |es| || Verdict(After(es, j), es[j]).Some? then j else FirstEvent(es, j + 1)
    }

    function Report(outcome: Outcome, s: Account, endMs: int): PortfolioResult {
      PortfolioResult(outcome, s.equity, |s.days|, s.taken, s.skipped, s.worst, endMs)
    }

    /** A timeout is declared before the event touches the account, everything else after. */
    function ResultAt(es: seq<Event>, j: nat): PortfolioResult
      requires j <= |es| && InRange(es) && es != []
    {
      var s := After(es, j);
      if j == |es| then Report(Incomplete, s, es[|es| - 1].ms)
      else
        var v := Verdict(s, es[j]).GetOr(Incomplete);
        Report(v, if v == Timeout then s else Step(s, es[j]), es[j].ms)
    }

    function Final(startMs: int): PortfolioResult {
      if legs == [] then PortfolioResult(Incomplete, 0.0, 0, 0, 0, 0.0, startMs)
      else
        StreamFacts(legs);
        assert EventOf(Trades(legs), 0, true) in Stream(legs);
        ResultAt(Stream(legs), FirstEvent(Stream(legs), 0))
    }

    lemma {:induction false} EventDecides(es: seq<Event>, j: nat)
      requires j <= |es| && InRange(es) && FirstEvent(es, j) < |es|
      ensures var r := FirstEvent(es, j); Verdict(After(es, r), es[r]).Some?
      decreases |es| - j
    {
      hide Verdict, After, InRange;
      if FirstEvent(es, j) != j { EventDecides(es, j + 1); }
    }

    lemma {:induction false} EventPasses(es: seq<Event>, j: nat, i: nat)
      requires j <= i < |es| && InRange(es) && i < FirstEvent(es, j)
      ensures Verdict(After(es, i), es[i]).None?
      decreases |es| - j
    {
      hide Verdict, After, InRange;
      if i > j { EventPasses(es, j + 1, i); }
    }
  }

  lemma {:induction false} NoLegs(p: Portfolio, startMs: int)
    requires p.legs == []
    ensures p.Final(startMs) == PortfolioResult(Incomplete, 0.0, 0, 0, 0, 0.0, startMs)
  {
  }

  lemma {:induction false} AtStart(p: Portfolio, es: seq<Event>)
    requires p.InRange(es)
    ensures p.After(es, 0) == FRESH
  {
  }

  lemma {:induction false} FinalIsFirst(p: Portfolio, startMs: int)
    requires p.legs != []
    ensures var es := Stream(p.legs);
            && es != [] && p.InRange(es)
            && p.Final(startMs) == p.ResultAt(es, p.FirstEvent(es, 0))
  {
    StreamFacts(p.legs);
    assert EventOf(Trades(p.legs), 0, true) in Stream(p.legs);
  }

  /** How the run continues at one event, by the event's verdict. */
  lemma {:induction false} AtEvent(p: Portfolio, es: seq<Event>, j: nat)
    requires j < |es| && p.InRange(es)
    ensures es[j] in es && es[j].k < |p.legs|
    ensures p.After(es, j + 1) == p.Step(p.After(es, j), es[j])
    ensures var s := p.After(es, j);
            var v := p.Verdict(s, es[j]);
            && p.FirstEvent(es, j) == (if v.Some? then j else p.FirstEvent(es, j + 1))
            && p.ResultAt(es, j) ==
                 p.Report(v.GetOr(Incomplete), if v == Some(Timeout) then s else p.Step(s, es[j]), es[j].ms)
  {
  }

  lemma {:induction false} AtEnd(p: Portfolio, es: seq<Event>)
    requires es != [] && p.InRange(es)
    ensures p.FirstEvent(es, |es|) == |es|
    ensures p.ResultAt(es, |es|) == p.Report(Incomplete, p.After(es, |es|), es[|es| - 1].ms)
  {
  }

  method SelectLegs(legs: seq<Leg>, startMs: int, scale: real) returns (r: seq<Leg>)
    ensures r == PhaseLegs(legs, startMs, scale, |legs|)
  {
    r := [];
    for i := 0 to |legs|
      invariant r == PhaseLegs(legs, startMs, scale, i)
    {
      var leg := legs[i];
      if leg.trade.entryMs >= startMs {
        r := r + [AtRisk(leg, scale)];
      }
    }
  }

  /** Entry constraints: the leg is skipped, and so is its later close, if any is violated. */
  method OfferLeg(p: Portfolio, s0: Account, k: nat, day: int) returns (s: Account)
    requires k < |p.legs|
    ensures s == p.Offered(s0.(days := s0.days + {day}), k)
  {
    s := s0.(days := s0.days + {day});
    var leg := p.legs[k];
    var reject := || s.today >= p.caps.perDay || |s.open| >= p.caps.concurrent
                  || (p.caps.onePerInstrument && leg.instrument in s.instruments)
                  || s.openRisk + leg.risk > p.caps.openRisk + EPS;
    if reject {
      s := s.(skipped := s.skipped + 1);
    } else {
      s := s.(open := s.open + {k}, instruments := s.instruments + {leg.instrument});
      s := s.(openRisk := s.openRisk + leg.risk, today := s.today + 1, taken := s.taken + 1);
      s := s.(accepted := s.accepted + {k});
    }
  }

  method CloseLeg(p: Portfolio, s0: Account, k: nat) returns (s: Account)
    requires k < |p.legs|
    ensures s == p.Closed(s0, k)
  {
    s := s0;
    if k in s.accepted {
      var leg := p.legs[k];
      s := s.(open := s.open - {k}, instruments := s.instruments - {leg.instrument});
      s := s.(openRisk := s.openRisk - leg.risk, equity := s.equity + leg.trade.ret);
      s := s.(peak := Max(s.peak, s.equity));
    }
  }

  method ProcessEvent(p: Portfolio, s0: Account, e: Event) returns (s: Account, low: real)
    requires e.k < |p.legs|
    ensures s == p.Step(s0, e) && low == p.Low(s)
  {
    s := s0;
    var evDay := TradingDay(e.ms, p.rules.resetOffsetMs);
    if Some(evDay) != s.day {
      s := s.(day := Some(evDay), sod := s.equity, today := 0);
    }
    assert s == p.Rolled(s0, e.ms);
    if e.opening {
      s := OfferLeg(p, s, e.k, evDay);
    } else {
      s := CloseLeg(p, s, e.k);
    }
    low := s.equity - Weigh(Maes(p.legs), s.open, |p.legs|);
    s := s.(worst := Max(s.worst, Dip(low)));
  }

  method SimulatePortfolioPhase(legs: seq<Leg>, startMs: int, rules: Rules, caps: Caps, target: real, scale: real)
    returns (r: PortfolioResult)
    ensures r == Portfolio(PhaseLegs(legs, startMs, scale, |legs|), rules, caps, target).Final(startMs)
  {
    hide Ordered, StableSort, Events, EventOf, PhaseLegs, Portfolio.Final, Portfolio.ResultAt, Portfolio.FirstEvent,
      Portfolio.Step, Portfolio.After, Portfolio.InRange;
    var phaseLegs := SelectLegs(legs, startMs, scale);
    if phaseLegs == [] {
      NoLegs(Portfolio(phaseLegs, rules, caps, target), startMs);
      return PortfolioResult(Incomplete, 0.0, 0, 0, 0, 0.0, startMs);
    }
    var p := Portfolio(phaseLegs, rules, caps, target);
    var events := SortedEvents(Trades(phaseLegs), FreeFirst);
    FinalIsFirst(p, startMs);
    var s := FRESH;
    AtStart(p, events);
    var phaseStart := phaseLegs[0].trade.entryMs;
    for j := 0 to |events|
      invariant s == p.After(events, j)
      invariant p.FirstEvent(events, 0) == p.FirstEvent(events, j)
    {
      AtEvent(p, events, j);
      var e := events[j];
      if rules.Overdue(e.ms, phaseStart) {
        return p.Report(Timeout, s, e.ms);
      }
      var low;
      s, low := ProcessEvent(p, s, e);
      var breach := rules.Breach(low, s.peak, s.sod);
      if breach.Some? {
        return p.Report(breach.value, s, e.ms);
      }
      if !e.opening && s.equity >= target - EPS && |s.days| >= rules.minTradingDays {
        return p.Report(Pass, s, e.ms);
      }
    }
    AtEnd(p, events);
    return p.Report(Incomplete, s, events[|events| - 1].ms);
  }

  // ----- two phases -----

  datatype ChallengeResult = ChallengeResult(
    outcome: Outcome, phase1: PortfolioResult, phase2: Option<PortfolioResult>, totalTradingDays: int, startMs: int)

  function PhaseOutcome(legs: seq<Leg>, startMs: int, rules: Rules, caps: Caps, target: real, scale: real)
    : PortfolioResult
  {
    Portfolio(PhaseLegs(legs, startMs, scale, |legs|), rules, caps, target).Final(startMs)
  }

  /** Phase 2 is a fresh account over the legs entered strictly after phase 1 resolved. */
  method SimulatePortfolioChallenge(legs: seq<Leg>, startMs: int, rules: Rules, caps: Caps, scale: real)
    returns (r: ChallengeResult)
    ensures r.phase1 == PhaseOutcome(legs, startMs, rules, caps, rules.phase1Target, scale)
    ensures r.phase2.Some? <==> r.phase1.outcome == Pass && rules.phase2Target > 0.0
    ensures r.phase2.Some? ==>
              r.phase2.value == PhaseOutcome(legs, r.phase1.endMs + 1, rules, caps, rules.phase2Target, scale)
    ensures r.outcome == Pass <==> r.phase1.outcome == Pass && (r.phase2.Some? ==> r.phase2.value.outcome == Pass)
    ensures r.totalTradingDays == r.phase1.tradingDays + if r.phase2.Some? then r.phase2.value.tradingDays else 0
    ensures r.startMs == startMs
  {
    hide PhaseLegs, Portfolio.Final;
    var p1 := SimulatePortfolioPhase(legs, startMs, rules, caps, rules.phase1Target, scale);
    if p1.outcome != Pass || rules.phase2Target <= 0.0 {
      return ChallengeResult(p1.outcome, p1, None, p1.tradingDays, startMs);
    }
    var p2 := SimulatePortfolioPhase(legs, p1.endMs + 1, rules, caps, rules.phase2Target, scale);
    return ChallengeResult(p2.outcome, p1, Some(p2), p1.tradingDays + p2.tradingDays, startMs);
  }
}
