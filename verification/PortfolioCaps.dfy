/** How much the entry caps of the shared account protect legs held over midnight. */
module PortfolioCaps {
  import opened Prelude
  import opened ChallengeRulesModel
  import opened ChallengeSim
  import opened PortfolioSim
  import opened PortfolioLaws
  import opened PortfolioDays
  import opened PortfolioInstruments

  const DAY := 86_400_000

  /** A leg may be taken at all, and as many legs as may be open can sink by the daily limit. */
  predicate CanSink(caps: Caps, dailyDd: real, mae: real) {
    && caps.perDay >= 1 && caps.concurrent >= 1 && caps.openRisk + EPS >= 0.0
    && dailyDd > EPS && caps.concurrent as real * mae >= dailyDd - EPS
  }

  /** The caps, the daily limit and the largest excursion are as given. */
  ghost predicate Under(p: Portfolio, caps: Caps, dailyDd: real, mae: real) {
    p.caps == caps && p.rules.dailyDd == dailyDd && forall i :: 0 <= i < |p.legs| ==> p.legs[i].trade.mae <= mae
  }

  // ----- caps that protect -----

  /** Caps that admit no leg keep the account empty. */
  lemma {:induction false} NoneEverOpen(p: Portfolio, j: nat)
    requires Sane(p.legs) && j <= |Stream(p.legs)|
    requires p.caps.perDay < 1 || p.caps.concurrent < 1 || p.caps.openRisk + EPS < 0.0
    ensures p.After(Stream(p.legs), j).open == {}
  {
    hide Portfolio.After, Stream, TakenOn, Weigh, OnePerInstrument;
    var s := p.After(Stream(p.legs), j);
    EveryStateWithinCaps(p, j);
    AcceptedAreLegs(p, j);
    if s.open != {} {
      var k: nat :| k in s.open;
      WeighNonNegative(Risks(p.legs), s.open, |p.legs|);
      TakenOnSome(p, s.accepted, k, |p.legs|);
      assert false;
    }
  }

  lemma {:induction false} EmptyIsSound(p: Portfolio, j: nat, ms: int, float: seq<real>)
    requires Sane(p.legs) && p.legs != [] && p.Final(0).outcome == Pass
    requires p.caps.perDay < 1 || p.caps.concurrent < 1 || p.caps.openRisk + EPS < 0.0
    ensures !Sinks(p, j, ms, float)
  {
    hide Sane, Portfolio.Final, Stream, Portfolio.FirstEvent, Portfolio.After, Opening, FirmDay, AboveFloors,
      Admissible, Floating, Weigh;
    if Sinks(p, j, ms, float) {
      NoneEverOpen(p, j + 1);
      WeighNone(Maes(p.legs), p.After(Stream(p.legs), j + 1).open, |p.legs|);
      PassHasLimit(p, 0);
      PassIsSoundBetween(p, 0, j, ms, float);
    }
  }

  lemma {:induction false} CoveredIsSound(p: Portfolio, j: nat, ms: int, float: seq<real>, mae: real)
    requires Sane(p.legs) && p.legs != [] && p.Final(0).outcome == Pass
    requires forall i :: 0 <= i < |p.legs| ==> p.legs[i].trade.mae <= mae
    requires p.caps.concurrent as real * mae < p.rules.dailyDd - EPS
    ensures !Sinks(p, j, ms, float)
  {
    hide Sane, Portfolio.Final, Stream, Portfolio.FirstEvent, Portfolio.After, Opening, FirmDay, AboveFloors,
      Admissible, Floating;
    if Sinks(p, j, ms, float) {
      CapsCoverMidnight(p, 0, j, ms, float, mae);
    }
  }

  lemma {:induction false} CapsProtect(p: Portfolio, caps: Caps, dailyDd: real, mae: real)
    requires Under(p, caps, dailyDd, mae) && !CanSink(caps, dailyDd, mae)
    ensures !Unsound(p)
  {
    hide Sane, Portfolio.Final, Sinks;
    if Sane(p.legs) && p.legs != [] && p.Final(0).outcome == Pass {
      PassHasLimit(p, 0);
      forall j: nat, ms: int, float: seq<real> ensures !Sinks(p, j, ms, float) {
        if caps.perDay < 1 || caps.concurrent < 1 || caps.openRisk + EPS < 0.0 {
          EmptyIsSound(p, j, ms, float);
        } else {
          CoveredIsSound(p, j, ms, float, mae);
        }
      }
    }
  }

  // ----- as many legs as may be open, one a day -----

  function Tag(k: nat): string { seq(k, _ => 'x') }

  /** Leg 0 wins on day `n`, just before leg `n` is opened; the others come one a day and are all
      held over the midnight after. */
  function LoadedLeg(n: nat, unit: real, limit: real, k: nat): Leg {
    Leg(Tag(k),
        TradeReturn(if k < n then k * DAY else n * DAY + 1, if k == 0 then n * DAY else (n + 1) * DAY + k,
                    if k == 0 then limit else 1.0, if k == 0 then 0.0 else unit, k),
        0.0)
  }

  function Loaded(caps: Caps, n: nat, unit: real, limit: real): (p: Portfolio)
    ensures |p.legs| == n + 1 && forall k :: 0 <= k <= n ==> p.legs[k] == LoadedLeg(n, unit, limit, k)
  {
    Portfolio(seq(n + 1, k requires 0 <= k => LoadedLeg(n, unit, limit, k)),
              Rules(0.0, 0.0, limit, limit, false, 0, None, 0), caps, limit + 1.0)
  }

  /** The entry caps let `n` legs in, and `n` excursions make up the limit. */
  ghost predicate Fits(caps: Caps, n: nat, unit: real, limit: real) {
    && n >= 1 && caps.concurrent == n && caps.perDay >= 1 && caps.openRisk + EPS >= 0.0
    && unit > 0.0 && Units(n, unit) == limit - EPS
  }

  /** The `i`-th event of its stream. */
  function LoadedEvent(n: nat, i: nat): Event {
    if i < n then Event(i * DAY, true, i)
    else if i == n then Event(n * DAY, false, 0)
    else if i == n + 1 then Event(n * DAY + 1, true, n)
    else Event((n + 1) * DAY + (i - n - 1), false, i - n - 1)
  }

  function LoadedEvents(n: nat): (es: seq<Event>)
    ensures |es| == 2 * n + 2 && forall i :: 0 <= i < 2 * n + 2 ==> es[i] == LoadedEvent(n, i)
  {
    seq(2 * n + 2, i requires 0 <= i => LoadedEvent(n, i))
  }

  lemma {:induction false} SameOrdered<T>(a: seq<T>, b: seq<T>, key: T -> real, rank: T -> int)
    requires Ordered(a, key, rank) && Ordered(b, key, rank) && forall e :: e in a <==> e in b
    ensures a == b
  {
    NoMembers(a, b);
    if a != [] {
      assert a[0] in b && b != [];
      SmallestFirst(a, key, rank);
      SmallestFirst(b, key, rank);
      assert b[0] in a;
      SameOrdered(a[1..], b[1..], key, rank);
      assert a == [a[0]] + a[1..] && b == [b[0]] + b[1..];
    }
  }

  lemma {:induction false} NoMembers<T>(a: seq<T>, b: seq<T>)
    requires forall e :: e in a <==> e in b
    ensures a == [] <==> b == []
  {
    if a != [] { assert a[0] in b; }
    if b != [] { assert b[0] in a; }
  }

  lemma {:induction false} SmallestFirst<T>(s: seq<T>, key: T -> real, rank: T -> int)
    requires Ordered(s, key, rank) && s != []
    ensures Ordered(s[1..], key, rank)
    ensures forall e :: e in s[1..] <==> e in s && e != s[0]
    ensures forall e :: e in s && e != s[0] ==> Before(s[0], e, key, rank)
  {
    forall e | e in s[1..] ensures Before(s[0], e, key, rank) && e in s {
      var i :| 0 <= i < |s[1..]| && s[1..][i] == e;
      assert s[i + 1] == e;
    }
    forall e | e in s && e != s[0] ensures e in s[1..] {
      var i :| 0 <= i < |s| && s[i] == e;
      assert s[1..][i - 1] == e;
    }
  }

  lemma {:induction false} LoadedAscends(n: nat, i: nat, j: nat)
    requires n >= 1 && i < j < 2 * n + 2
    ensures LoadedEvent(n, i).ms < LoadedEvent(n, j).ms
  {
  }

  lemma {:induction false} LoadedMembers(caps: Caps, n: nat, unit: real, limit: real, e: Event)
    requires n >= 1
    ensures var ts := Trades(Loaded(caps, n, unit, limit).legs);
            e in LoadedEvents(n) <==> e.k <= n && e == EventOf(ts, e.k, e.opening)
  {
    var ts, es := Trades(Loaded(caps, n, unit, limit).legs), LoadedEvents(n);
    if e in es {
      var i :| 0 <= i < |es| && es[i] == e;
      assert ts[e.k] == LoadedLeg(n, unit, limit, e.k).trade;
    }
    if e.k <= n && e == EventOf(ts, e.k, e.opening) {
      assert ts[e.k] == LoadedLeg(n, unit, limit, e.k).trade;
      var i := if e.opening then if e.k < n then e.k else n + 1 else if e.k == 0 then n else n + 1 + e.k;
      assert es[i] == e;
    }
  }

  lemma {:induction false} LoadedStream(caps: Caps, n: nat, unit: real, limit: real)
    requires n >= 1
    ensures Stream(Loaded(caps, n, unit, limit).legs) == LoadedEvents(n)
  {
    hide Stream, LoadedEvent, EventOf, LoadedLeg;
    var p, es := Loaded(caps, n, unit, limit), LoadedEvents(n);
    StreamFacts(p.legs);
    forall i, j | 0 <= i < j < |es| ensures Before(es[i], es[j], FreeFirst, EventIndex) {
      LoadedAscends(n, i, j);
    }
    forall e ensures e in es <==> e in Stream(p.legs) {
      LoadedMembers(caps, n, unit, limit, e);
    }
    SameOrdered(Stream(p.legs), es, FreeFirst, EventIndex);
  }

  // ----- its run -----

  function Below(k: nat): (s: set<nat>)
    ensures |s| == k && forall i: nat :: i in s <==> i < k
  {
    if k == 0 then {} else Below(k - 1) + {k - 1}
  }

  /** Excursions of the loaded legs. */
  ghost predicate Even(w: seq<real>, unit: real) {
    forall i :: 0 <= i < |w| ==> w[i] == if i == 0 then 0.0 else unit
  }

  /** `k` units. */
  function Units(k: int, unit: real): real { k as real * unit }

  lemma {:induction false} UnitsAdd(k: int, m: int, unit: real)
    ensures Units(k + m, unit) == Units(k, unit) + Units(m, unit) && Units(1, unit) == unit && Units(0, unit) == 0.0
    ensures m > 0 && unit > 0.0 ==> Units(m, unit) > 0.0
  {
  }

  lemma {:induction false} BelowWeighs(w: seq<real>, unit: real, k: nat, m: nat)
    requires Even(w, unit) && k <= m <= |w|
    ensures Weigh(w, Below(k), m) == if k == 0 then 0.0 else Units(k - 1, unit)
  {
    hide Units, Weigh;
    if k == 0 {
      WeighNone(w, Below(0), m);
    } else {
      BelowWeighs(w, unit, k - 1, m);
      WeighAdd(w, Below(k - 1), k - 1, m);
      UnitsAdd(k - 2, 1, unit);
    }
  }

  lemma {:induction false} LoadedIsEven(caps: Caps, n: nat, unit: real, limit: real)
    ensures Even(Maes(Loaded(caps, n, unit, limit).legs), unit)
  {
  }

  /** The first `k` legs are open and nothing has been booked. */
  ghost predicate Opened(s: Account, k: nat) {
    && s.equity == s.peak == s.sod == s.openRisk == 0.0 && s.open == s.accepted == Below(k)
    && (forall i :: i in s.instruments ==> |i| < k) && (forall d :: s.day == Some(d) ==> d < k)
  }

  /** What the account can sink to with the first `k` legs open. */
  lemma {:induction false} LowBelow(p: Portfolio, caps: Caps, n: nat, unit: real, limit: real, s: Account, k: nat)
    requires p == Loaded(caps, n, unit, limit) && k <= n + 1 && s.open == Below(k)
    ensures p.Low(s) == s.equity - if k == 0 then 0.0 else Units(k - 1, unit)
  {
    hide Loaded, Weigh, Units, Below;
    LoadedIsEven(caps, n, unit, limit);
    BelowWeighs(Maes(p.legs), unit, k, n + 1);
  }

  /** The next leg is let in while fewer than `n` are open. */
  lemma {:induction false} OpenNextApplies(p: Portfolio, caps: Caps, n: nat, unit: real, limit: real, s: Account,
        k: nat)
    requires p == Loaded(caps, n, unit, limit) && Fits(caps, n, unit, limit) && k < n && Opened(s, k)
    ensures Opened(p.Apply(s, LoadedEvent(n, k)), k + 1)
  {
    hide Loaded, Units, Below;
    var e := LoadedEvent(n, k);
    assert p.legs[k] == LoadedLeg(n, unit, limit, k);
    assert TradingDay(e.ms, 0) == k;
    LoadedRules(caps, n, unit, limit);
    BelowNext(k);
  }

  lemma {:induction false} BelowNext(k: nat)
    ensures Below(k) + {k} == Below(k + 1)
  {
  }

  lemma {:induction false} OpenNext(p: Portfolio, caps: Caps, n: nat, unit: real, limit: real, s: Account, k: nat)
    requires p == Loaded(caps, n, unit, limit) && Fits(caps, n, unit, limit) && k < n && Opened(s, k)
    ensures var e := LoadedEvent(n, k);
            p.Verdict(s, e) == None && Opened(p.Step(s, e), k + 1)
  {
    hide Loaded, Units, Below, Portfolio.Apply, Portfolio.Low;
    var e := LoadedEvent(n, k);
    LoadedRules(caps, n, unit, limit);
    OpenNextApplies(p, caps, n, unit, limit, s, k);
    LowBelow(p, caps, n, unit, limit, p.Step(s, e), k + 1);
    LowBelow(p, caps, n, unit, limit, p.Apply(s, e), k + 1);
    UnitsAdd(k, n - k, unit);
  }

  lemma {:induction false} LoadedRules(caps: Caps, n: nat, unit: real, limit: real)
    ensures var p := Loaded(caps, n, unit, limit);
            && p.caps == caps && p.target == limit + 1.0 && p.rules == Rules(0.0, 0.0, limit, limit, false, 0, None, 0)
  {
  }

  /** Leg 0 has won the limit; the `k - 1` others are open. */
  ghost predicate Won(s: Account, n: nat, limit: real, k: nat) {
    && s.equity == s.peak == limit && s.sod == s.openRisk == 0.0 && s.day == Some(n as int)
    && 1 <= k && s.open == Below(k) - {0} && s.accepted == Below(k)
  }

  lemma {:induction false} LowWithoutFirst(p: Portfolio, caps: Caps, n: nat, unit: real, limit: real, s: Account,
        k: nat)
    requires p == Loaded(caps, n, unit, limit) && 1 <= k <= n + 1 && s.open == Below(k) - {0}
    ensures p.Low(s) == s.equity - Units(k - 1, unit)
  {
    hide Loaded, Weigh, Units, Below;
    LoadedIsEven(caps, n, unit, limit);
    BelowWeighs(Maes(p.legs), unit, k, n + 1);
    WeighRemove(Maes(p.legs), Below(k), 0, n + 1);
  }

  lemma {:induction false} WinApplies(p: Portfolio, caps: Caps, n: nat, unit: real, limit: real, s: Account)
    requires p == Loaded(caps, n, unit, limit) && Fits(caps, n, unit, limit) && limit >= 0.0 && Opened(s, n)
    ensures var t := p.Apply(s, LoadedEvent(n, n));
            Won(t, n, limit, n) && t.today == 0 && forall i :: i in t.instruments ==> |i| < n
  {
    hide Loaded, Units, Below;
    assert p.legs[0] == LoadedLeg(n, unit, limit, 0);
    assert TradingDay(LoadedEvent(n, n).ms, 0) == n;
    LoadedRules(caps, n, unit, limit);
    assert 0 in Below(n);
  }

  lemma {:induction false} WinNext(p: Portfolio, caps: Caps, n: nat, unit: real, limit: real, s: Account)
    requires p == Loaded(caps, n, unit, limit) && Fits(caps, n, unit, limit) && limit > EPS && Opened(s, n)
    ensures var e := LoadedEvent(n, n);
            var t := p.Step(s, e);
            && p.Verdict(s, e) == None && Won(t, n, limit, n)
            && t.today == 0 && forall i :: i in t.instruments ==> |i| < n
  {
    hide Loaded, Units, Below, Portfolio.Apply, Portfolio.Low;
    var e := LoadedEvent(n, n);
    LoadedRules(caps, n, unit, limit);
    WinApplies(p, caps, n, unit, limit, s);
    LowWithoutFirst(p, caps, n, unit, limit, p.Step(s, e), n);
    LowWithoutFirst(p, caps, n, unit, limit, p.Apply(s, e), n);
    UnitsAdd(n - 1, 1, unit);
  }

  lemma {:induction false} LastApplies(p: Portfolio, caps: Caps, n: nat, unit: real, limit: real, s: Account)
    requires p == Loaded(caps, n, unit, limit) && Fits(caps, n, unit, limit) && Won(s, n, limit, n)
    requires s.today == 0 && forall i :: i in s.instruments ==> |i| < n
    ensures Won(p.Apply(s, LoadedEvent(n, n + 1)), n, limit, n + 1)
  {
    hide Loaded, Units, Below;
    assert p.legs[n] == LoadedLeg(n, unit, limit, n);
    assert TradingDay(LoadedEvent(n, n + 1).ms, 0) == n;
    LoadedRules(caps, n, unit, limit);
    BelowNext(n);
    assert 0 in Below(n) && |Below(n) - {0}| == n - 1;
    assert Below(n) - {0} + {n} == Below(n + 1) - {0};
  }

  lemma {:induction false} LastNext(p: Portfolio, caps: Caps, n: nat, unit: real, limit: real, s: Account)
    requires p == Loaded(caps, n, unit, limit) && Fits(caps, n, unit, limit) && limit > EPS && Won(s, n, limit, n)
    requires s.today == 0 && forall i :: i in s.instruments ==> |i| < n
    ensures var e := LoadedEvent(n, n + 1);
            p.Verdict(s, e) == None && Won(p.Step(s, e), n, limit, n + 1)
  {
    hide Loaded, Units, Below, Portfolio.Apply, Portfolio.Low;
    var e := LoadedEvent(n, n + 1);
    LoadedRules(caps, n, unit, limit);
    LastApplies(p, caps, n, unit, limit, s);
    LowWithoutFirst(p, caps, n, unit, limit, p.Step(s, e), n + 1);
    LowWithoutFirst(p, caps, n, unit, limit, p.Apply(s, e), n + 1);
  }

  /** The first close after midnight passes. */
  lemma {:induction false} CloseApplies(p: Portfolio, caps: Caps, n: nat, unit: real, limit: real, s: Account)
    requires p == Loaded(caps, n, unit, limit) && Fits(caps, n, unit, limit) && Won(s, n, limit, n + 1)
    ensures var t := p.Apply(s, LoadedEvent(n, n + 2));
            t.equity == t.peak == limit + 1.0 && t.sod == limit && t.open == Below(n + 1) - {0} - {1}
  {
    hide Loaded, Units, Below;
    assert p.legs[1] == LoadedLeg(n, unit, limit, 1);
    assert TradingDay(LoadedEvent(n, n + 2).ms, 0) == n + 1;
    LoadedRules(caps, n, unit, limit);
    assert 1 in Below(n + 1);
  }

  lemma {:induction false} ClosePasses(p: Portfolio, caps: Caps, n: nat, unit: real, limit: real, s: Account)
    requires p == Loaded(caps, n, unit, limit) && Fits(caps, n, unit, limit) && limit > EPS && Won(s, n, limit, n + 1)
    ensures p.Verdict(s, LoadedEvent(n, n + 2)) == Some(Pass)
  {
    hide Loaded, Units, Below, Portfolio.Apply, Weigh, Even;
    var e := LoadedEvent(n, n + 2);
    var t := p.Apply(s, e);
    LoadedRules(caps, n, unit, limit);
    CloseApplies(p, caps, n, unit, limit, s);
    LowWithoutFirst(p, caps, n, unit, limit, s, n + 1);
    WeighRemove(Maes(p.legs), s.open, 1, n + 1);
    assert Maes(p.legs)[1] == unit by { LoadedIsEven(caps, n, unit, limit); SecondIsUnit(Maes(p.legs), unit); }
  }

  lemma {:induction false} SecondIsUnit(w: seq<real>, unit: real)
    requires Even(w, unit) && |w| > 1
    ensures w[1] == unit
  {
  }

  lemma {:induction false} OpensInTurn(p: Portfolio, caps: Caps, n: nat, unit: real, limit: real, k: nat)
    requires p == Loaded(caps, n, unit, limit) && Fits(caps, n, unit, limit) && k <= n
    ensures var es := LoadedEvents(n);
            && p.InRange(es) && Opened(p.After(es, k), k) && p.FirstEvent(es, 0) == p.FirstEvent(es, k)
  {
    hide Loaded, Fits, LoadedEvent, Portfolio.Step, Portfolio.Verdict, Portfolio.After, Portfolio.FirstEvent,
      Portfolio.ResultAt, Opened;
    var es := LoadedEvents(n);
    LoadedInRange(p, caps, n, unit, limit);
    if k == 0 {
      AtStart(p, es);
      FreshIsOpened();
    } else {
      OpensInTurn(p, caps, n, unit, limit, k - 1);
      AtEvent(p, es, k - 1);
      OpenNext(p, caps, n, unit, limit, p.After(es, k - 1), k - 1);
    }
  }

  lemma {:induction false} FreshIsOpened()
    ensures Opened(FRESH, 0)
  {
  }

  lemma {:induction false} LoadedInRange(p: Portfolio, caps: Caps, n: nat, unit: real, limit: real)
    requires p == Loaded(caps, n, unit, limit) && Fits(caps, n, unit, limit)
    ensures p.InRange(LoadedEvents(n)) && Sane(p.legs) && p.legs != []
  {
    forall k | 0 <= k <= n ensures p.legs[k] == LoadedLeg(n, unit, limit, k) {
    }
  }

  /** The phase passes at its first close after midnight, having carried all but the winner. */
  lemma {:induction false} LoadedRun(p: Portfolio, caps: Caps, n: nat, unit: real, limit: real)
    requires p == Loaded(caps, n, unit, limit) && Fits(caps, n, unit, limit) && limit > EPS
    ensures var es := Stream(p.legs);
            && es == LoadedEvents(n) && Sane(p.legs) && p.legs != [] && p.InRange(es)
            && p.FirstEvent(es, 0) == n + 2 && p.Final(0).outcome == Pass
            && Won(p.After(es, n + 2), n, limit, n + 1)
  {
    hide Loaded, LoadedEvent, Portfolio.Step, Portfolio.Verdict, Portfolio.After, Portfolio.FirstEvent,
      Portfolio.ResultAt, Portfolio.Final, Opened, Won, Stream, Units;
    var es := LoadedEvents(n);
    LoadedStream(caps, n, unit, limit);
    LoadedInRange(p, caps, n, unit, limit);
    OpensInTurn(p, caps, n, unit, limit, n);
    AtEvent(p, es, n);
    WinNext(p, caps, n, unit, limit, p.After(es, n));
    AtEvent(p, es, n + 1);
    LastNext(p, caps, n, unit, limit, p.After(es, n + 1));
    AtEvent(p, es, n + 2);
    ClosePasses(p, caps, n, unit, limit, p.After(es, n + 2));
    FinalIsFirst(p, 0);
  }

  /** At midnight the carried legs may float down to the new day's floor. */
  lemma {:induction false} LoadedSinks(p: Portfolio, caps: Caps, n: nat, unit: real, limit: real)
    requires p == Loaded(caps, n, unit, limit) && Fits(caps, n, unit, limit) && limit > EPS
    ensures Unsound(p)
  {
    hide Loaded, LoadedEvents, Portfolio.Step, Portfolio.After, Portfolio.FirstEvent, Portfolio.Final, Stream, Units,
      Weigh, Opening, Sane, TradingDay, Below;
    var es, j, ms := Stream(p.legs), n + 1, (n + 1) * DAY;
    LoadedRun(p, caps, n, unit, limit);
    StreamFacts(p.legs);
    var s := p.After(es, j + 1);
    LoadedMidnight(p, caps, n, unit, limit);
    OpeningAt(p, es, j, ms);
    var worst := Negated(Maes(p.legs));
    WeighNegated(Maes(p.legs), s.open, |p.legs|);
    LowWithoutFirst(p, caps, n, unit, limit, s, n + 1);
    LoadedRules(caps, n, unit, limit);
    assert Sinks(p, j, ms, worst);
  }

  lemma {:induction false} LoadedMidnight(p: Portfolio, caps: Caps, n: nat, unit: real, limit: real)
    requires p == Loaded(caps, n, unit, limit) && n >= 1
    ensures var es, ms := LoadedEvents(n), (n + 1) * DAY;
            Instant(es, n + 1, ms) && FirmDay(p, ms) == n + 1 && FirmDay(p, es[n + 1].ms) == n
  {
    hide Loaded;
    LoadedRules(caps, n, unit, limit);
  }

  /** The exact bound: some passed phase under these caps, with no excursion larger than `mae`,
      admits a floating path through a floor if and only if a leg may be taken and the concurrency
      cap times that excursion reaches the daily limit. */
  lemma {:induction false} CapsBound(caps: Caps, dailyDd: real, mae: real)
    ensures (exists p: Portfolio :: Under(p, caps, dailyDd, mae) && Unsound(p)) <==> CanSink(caps, dailyDd, mae)
  {
    hide Under, Unsound, Units;
    if CanSink(caps, dailyDd, mae) {
      var n: nat := caps.concurrent;
      var unit := (dailyDd - EPS) / n as real;
      Shares(dailyDd - EPS, n, mae);
      LoadedSinks(Loaded(caps, n, unit, dailyDd), caps, n, unit, dailyDd);
      LoadedUnder(caps, n, unit, dailyDd, mae);
    } else {
      forall p: Portfolio | Under(p, caps, dailyDd, mae) ensures !Unsound(p) {
        CapsProtect(p, caps, dailyDd, mae);
      }
    }
  }

  lemma {:induction false} Shares(limit: real, n: int, mae: real)
    requires n >= 1 && limit > 0.0 && n as real * mae >= limit
    ensures var unit := limit / n as real;
            0.0 < unit <= mae && Units(n, unit) == limit
  {
    var unit := limit / n as real;
    assert unit * n as real == limit;
    ScaleUp(unit, mae, n as real);
    ScaleUp(unit, 0.0, n as real);
  }

  lemma {:induction false} LoadedUnder(caps: Caps, n: nat, unit: real, limit: real, mae: real)
    requires 0.0 < unit <= mae
    ensures Under(Loaded(caps, n, unit, limit), caps, limit, mae)
  {
    LoadedRules(caps, n, unit, limit);
  }
}
