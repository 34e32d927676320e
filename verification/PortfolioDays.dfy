/** The shared account between events: which equity a firm day opens with, and whether legs held
    over midnight can break the new day's floor before its first event. */
module PortfolioDays {
  import opened Prelude
  import opened ChallengeRulesModel
  import opened ChallengeSim
  import opened PortfolioSim
  import opened PortfolioLaws

  function FirmDay(p: Portfolio, ms: int): int { TradingDay(ms, p.rules.resetOffsetMs) }

  // ----- the equity a firm day opens with -----

  /** The first event from the `i`-th on that does not lie before firm day `d`. */
  function DayStart(p: Portfolio, es: seq<Event>, d: int, i: nat): (r: nat)
    requires i <= |es|
    ensures i <= r <= |es|
    decreases |es| - i
  {
    if i == |es| || FirmDay(p, es[i].ms) >= d then i else DayStart(p, es, d, i + 1)
  }

  /** Realised equity when firm day `d` began. */
  function Opening(p: Portfolio, es: seq<Event>, d: int): real
    requires p.InRange(es)
  {
    p.After(es, DayStart(p, es, d, 0)).equity
  }

  lemma {:induction false} DayStartIs(p: Portfolio, es: seq<Event>, d: int, i: nat, m: nat)
    requires i <= m <= |es| && (forall k :: i <= k < m ==> FirmDay(p, es[k].ms) < d)
    requires m < |es| ==> FirmDay(p, es[m].ms) >= d
    ensures DayStart(p, es, d, i) == m
    decreases m - i
  {
    if i < m { DayStartIs(p, es, d, i + 1, m); }
  }

  lemma {:induction false} DaysAscend(p: Portfolio, es: seq<Event>, i: nat, j: nat)
    requires Sorted(p, es) && i <= j < |es|
    ensures FirmDay(p, es[i].ms) <= FirmDay(p, es[j].ms)
  {
    if i < j {
      assert Before(es[i], es[j], FreeFirst, EventIndex);
      assert es[i].ms <= es[j].ms;
    }
  }

  lemma {:induction false} StepRolls(p: Portfolio, s: Account, e: Event)
    requires e.k < |p.legs|
    ensures var t, d := p.Step(s, e), FirmDay(p, e.ms);
            t.day == Some(d) && t.sod == if s.day == Some(d) then s.sod else s.equity
  {
    hide Portfolio.Rejects, Portfolio.Low, TradingDay;
  }

  /** The account's baseline is the equity its firm day opened with. */
  lemma {:induction false} SodSince(p: Portfolio, es: seq<Event>, j: nat) returns (m: nat)
    requires Sorted(p, es) && p.InRange(es) && j < |es|
    ensures var s, d := p.After(es, j + 1), FirmDay(p, es[j].ms);
            && s.day == Some(d) && m <= j && s.sod == p.After(es, m).equity
            && FirmDay(p, es[m].ms) == d && forall k :: 0 <= k < m ==> FirmDay(p, es[k].ms) < d
  {
    hide Sorted, Portfolio.Step, Portfolio.Verdict, Portfolio.Report, Portfolio.ResultAt, Portfolio.FirstEvent,
      TradingDay;
    var d := FirmDay(p, es[j].ms);
    AtStart(p, es);
    AtEvent(p, es, j);
    StepRolls(p, p.After(es, j), es[j]);
    m := j;
    if j > 0 {
      var m0 := SodSince(p, es, j - 1);
      if FirmDay(p, es[j - 1].ms) == d {
        m := m0;
      } else {
        DaysAscend(p, es, j - 1, j);
        forall k | 0 <= k < j ensures FirmDay(p, es[k].ms) < d {
          DaysAscend(p, es, k, j - 1);
        }
      }
    }
  }

  /** An instant at or after the `j`-th event and not after the next. */
  predicate Instant(es: seq<Event>, j: nat, ms: int) {
    j + 1 < |es| && es[j].ms <= ms <= es[j + 1].ms
  }

  /** Until the next event, the equity a firm day opened with is the recorded baseline, and
      after midnight the equity of the account itself. */
  lemma {:induction false} OpeningAt(p: Portfolio, es: seq<Event>, j: nat, ms: int)
    requires Sorted(p, es) && p.InRange(es) && Instant(es, j, ms)
    ensures FirmDay(p, es[j].ms) <= FirmDay(p, ms)
    ensures var s := p.After(es, j + 1);
            Opening(p, es, FirmDay(p, ms)) == if FirmDay(p, ms) == FirmDay(p, es[j].ms) then s.sod else s.equity
  {
    hide Sorted, Portfolio.After, Portfolio.InRange;
    var d := FirmDay(p, ms);
    assert FirmDay(p, es[j].ms) <= d <= FirmDay(p, es[j + 1].ms);
    if d == FirmDay(p, es[j].ms) {
      var m := SodSince(p, es, j);
      DayStartIs(p, es, d, 0, m);
    } else {
      forall k | 0 <= k < j + 1 ensures FirmDay(p, es[k].ms) < d {
        DaysAscend(p, es, k, j);
      }
      DayStartIs(p, es, d, 0, j + 1);
    }
  }

  // ----- floating paths -----

  /** One floating result per leg, none of an open leg worse than its own worst excursion. */
  ghost predicate Admissible(p: Portfolio, s: Account, float: seq<real>) {
    |float| == |p.legs| && forall k :: k in s.open && k < |p.legs| ==> float[k] >= -p.legs[k].trade.mae
  }

  function Floating(p: Portfolio, s: Account, float: seq<real>): real
    requires |float| == |p.legs|
  {
    s.equity + Weigh(float, s.open, |p.legs|)
  }

  /** Above the drawdown floor and the floor of a day that opened with the given equity. */
  predicate AboveFloors(p: Portfolio, s: Account, equity: real, opening: real) {
    equity > p.rules.MaxFloor(s.peak) + EPS && equity > opening - p.rules.dailyDd + EPS
  }

  /** No leg is held over more than so many day boundaries. */
  ghost predicate HeldAtMost(p: Portfolio, nights: nat) {
    forall i :: 0 <= i < |p.legs| ==> FirmDay(p, p.legs[i].trade.exitMs) - FirmDay(p, p.legs[i].trade.entryMs) <= nights
  }

  /** Without overnight legs nothing is open between a midnight and the day's first event. */
  lemma {:induction false} NothingCarried(p: Portfolio, es: seq<Event>, j: nat, ms: int)
    requires Sane(p.legs) && Sorted(p, es) && p.InRange(es) && Instant(es, j, ms) && HeldAtMost(p, 0)
    requires FirmDay(p, es[j].ms) < FirmDay(p, ms)
    ensures p.After(es, j + 1).open == {}
  {
    hide Sane, Sorted, Portfolio.After, Portfolio.InRange, Books, WithinCaps, OnePerInstrument, DailyCap,
      Portfolio.Step, FirmDay, Seen, HeldAtMost, Entry, Exit;
    RunKeeps(p, es, j + 1);
    var s := p.After(es, j + 1);
    forall k: nat ensures k !in s.open {
      if k in s.open {
        ExitsToday(p, es, j, ms, k);
      }
    }
  }

  /** A leg opened by the `j`-th event and not held overnight closes before the next day. */
  lemma {:induction false} ExitsToday(p: Portfolio, es: seq<Event>, j: nat, ms: int, k: nat)
    requires Sorted(p, es) && Instant(es, j, ms) && HeldAtMost(p, 0) && k < |p.legs|
    requires FirmDay(p, es[j].ms) < FirmDay(p, ms) && Seen(es, j + 1, Entry(p, k))
    ensures Seen(es, j + 1, Exit(p, k))
  {
    hide Sorted, TradingDay;
    var i :| 0 <= i < j + 1 && es[i] == Entry(p, k);
    AllSeen(p, es, k);
    var q :| 0 <= q < |es| && es[q] == Exit(p, k);
    DaysAscend(p, es, i, j);
    if q > j { NextDay(p, es, j, ms, q); }
  }

  lemma {:induction false} NextDay(p: Portfolio, es: seq<Event>, j: nat, ms: int, q: nat)
    requires Sorted(p, es) && Instant(es, j, ms) && j < q < |es|
    ensures FirmDay(p, ms) <= FirmDay(p, es[q].ms)
  {
    DaysAscend(p, es, j + 1, q);
  }

  function Still(n: nat): (w: seq<real>)
    ensures |w| == n && forall k :: 0 <= k < n ==> w[k] == 0.0
  {
    seq(n, _ => 0.0)
  }

  lemma {:induction false} StillWeighs(s: set<nat>, n: nat, m: nat)
    requires n <= m
    ensures Weigh(Still(m), s, n) == 0.0
  {
    if n > 0 { StillWeighs(s, n - 1, m); }
  }

  lemma {:induction false} FirstEventBooksNothing(p: Portfolio, e: Event)
    requires e.k < |p.legs|
    ensures p.Step(FRESH, e).equity == 0.0 && p.Step(FRESH, e).sod == 0.0
  {
    hide Portfolio.Low, Portfolio.Rejects, TradingDay;
  }

  /** A run that clears its first event has a daily limit above the slack. */
  lemma {:induction false} PassHasLimit(p: Portfolio, startMs: int)
    requires Sane(p.legs) && p.legs != [] && p.Final(startMs).outcome == Pass
    ensures p.rules.dailyDd > EPS
  {
    hide Portfolio.FirstEvent, Portfolio.Final, Portfolio.ResultAt, Stream, Portfolio.Step, Portfolio.Verdict, Weigh;
    var es := Stream(p.legs);
    FinalIsFirst(p, startMs);
    PassStops(p, es, startMs);
    AtStart(p, es);
    AtEvent(p, es, 0);
    FirstEventBooksNothing(p, es[0]);
    StillWeighs(p.After(es, 1).open, |p.legs|, |p.legs|);
    PassIsSound(p, startMs, 0, Still(|p.legs|));
  }

  lemma {:induction false} PassStops(p: Portfolio, es: seq<Event>, startMs: int)
    requires es != [] && p.InRange(es) && p.ResultAt(es, p.FirstEvent(es, 0)).outcome == Pass
    ensures p.FirstEvent(es, 0) < |es|
  {
    hide Portfolio.After, Portfolio.Step, Portfolio.Verdict, Portfolio.FirstEvent;
  }

  // ----- a passed phase at every instant -----

  /** A passed phase is sound at an instant before its pass, between events too: whatever the
      open legs float at, equity stays above the drawdown floor and above the floor of the firm
      day of that instant, unless a new day began with legs that can sink by the whole limit. */
  lemma {:induction false} PassIsSoundBetween(p: Portfolio, startMs: int, j: nat, ms: int, float: seq<real>)
    requires Sane(p.legs) && p.legs != [] && p.Final(startMs).outcome == Pass
    requires j < p.FirstEvent(Stream(p.legs), 0) && Instant(Stream(p.legs), j, ms)
    requires Admissible(p, p.After(Stream(p.legs), j + 1), float)
    requires FirmDay(p, Stream(p.legs)[j].ms) < FirmDay(p, ms) ==>
               Weigh(Maes(p.legs), p.After(Stream(p.legs), j + 1).open, |p.legs|) < p.rules.dailyDd - EPS
    ensures var (es, s) := (Stream(p.legs), p.After(Stream(p.legs), j + 1));
            AboveFloors(p, s, Floating(p, s, float), Opening(p, es, FirmDay(p, ms)))
  {
    hide Sane, Portfolio.After, Portfolio.InRange, Portfolio.FirstEvent, Portfolio.Final, Portfolio.ResultAt, Stream,
      Weigh, Opening, TradingDay;
    var es := Stream(p.legs);
    StreamFacts(p.legs);
    InRangeOf(p, es);
    var s := p.After(es, j + 1);
    FinalIsFirst(p, startMs);
    PassStops(p, es, startMs);
    PassIsSound(p, startMs, j, float);
    OpeningAt(p, es, j, ms);
    FloatingBound(float, Maes(p.legs), s.open, |p.legs|);
  }

  function Negated(w: seq<real>): (r: seq<real>)
    ensures |r| == |w| && forall k :: 0 <= k < |w| ==> r[k] == -w[k]
  {
    seq(|w|, i requires 0 <= i < |w| => -w[i])
  }

  lemma {:induction false} WeighNegated(w: seq<real>, s: set<nat>, n: nat)
    requires n <= |w|
    ensures Weigh(Negated(w), s, n) == -Weigh(w, s, n)
  {
    if n > 0 { WeighNegated(w, s, n - 1); }
  }

  /** At an instant of a passed phase every admissible path is above the floors exactly when the
      instant lies on the day of the last event, or the excursions of what is open sum to less
      than the daily limit. */
  lemma {:induction false} HeldOverMidnight(p: Portfolio, startMs: int, j: nat, ms: int)
    requires Sane(p.legs) && p.legs != [] && p.Final(startMs).outcome == Pass
    requires j < p.FirstEvent(Stream(p.legs), 0) && Instant(Stream(p.legs), j, ms)
    ensures var (es, s) := (Stream(p.legs), p.After(Stream(p.legs), j + 1));
            (forall float: seq<real> | Admissible(p, s, float) ::
               AboveFloors(p, s, Floating(p, s, float), Opening(p, es, FirmDay(p, ms))))
            <==> FirmDay(p, es[j].ms) == FirmDay(p, ms) || Weigh(Maes(p.legs), s.open, |p.legs|) < p.rules.dailyDd - EPS
  {
    hide Sane, Portfolio.After, Portfolio.InRange, Portfolio.FirstEvent, Portfolio.Final, Stream, Weigh, Opening,
      TradingDay;
    var es := Stream(p.legs);
    StreamFacts(p.legs);
    InRangeOf(p, es);
    var s := p.After(es, j + 1);
    OpeningAt(p, es, j, ms);
    if FirmDay(p, es[j].ms) == FirmDay(p, ms) || Weigh(Maes(p.legs), s.open, |p.legs|) < p.rules.dailyDd - EPS {
      forall float: seq<real> | Admissible(p, s, float)
        ensures AboveFloors(p, s, Floating(p, s, float), Opening(p, es, FirmDay(p, ms)))
      {
        PassIsSoundBetween(p, startMs, j, ms, float);
      }
    } else {
      var worst := Negated(Maes(p.legs));
      WeighNegated(Maes(p.legs), s.open, |p.legs|);
      assert Admissible(p, s, worst);
    }
  }

  /** With no leg held overnight it holds at every instant. */
  lemma {:induction false} PassIsSoundAtEveryInstant(p: Portfolio, startMs: int, j: nat, ms: int, float: seq<real>)
    requires Sane(p.legs) && p.legs != [] && p.Final(startMs).outcome == Pass && HeldAtMost(p, 0)
    requires j < p.FirstEvent(Stream(p.legs), 0) && Instant(Stream(p.legs), j, ms)
    requires Admissible(p, p.After(Stream(p.legs), j + 1), float)
    ensures var (es, s) := (Stream(p.legs), p.After(Stream(p.legs), j + 1));
            AboveFloors(p, s, Floating(p, s, float), Opening(p, es, FirmDay(p, ms)))
  {
    hide Sane, Portfolio.After, Portfolio.InRange, Portfolio.FirstEvent, Portfolio.Final, Stream, Opening, FirmDay,
      AboveFloors, Admissible, HeldAtMost;
    var es := Stream(p.legs);
    StreamFacts(p.legs);
    InRangeOf(p, es);
    if FirmDay(p, es[j].ms) < FirmDay(p, ms) {
      NothingCarried(p, es, j, ms);
      WeighNone(Maes(p.legs), p.After(es, j + 1).open, |p.legs|);
      PassHasLimit(p, startMs);
    }
    PassIsSoundBetween(p, startMs, j, ms, float);
  }

  /** So it does, legs held overnight included, when the concurrency cap times the largest
      excursion stays below the daily limit. */
  lemma {:induction false} CapsCoverMidnight(p: Portfolio, startMs: int, j: nat, ms: int, float: seq<real>, mae: real)
    requires Sane(p.legs) && p.legs != [] && p.Final(startMs).outcome == Pass
    requires forall i :: 0 <= i < |p.legs| ==> p.legs[i].trade.mae <= mae
    requires p.caps.concurrent as real * mae < p.rules.dailyDd - EPS
    requires j < p.FirstEvent(Stream(p.legs), 0) && Instant(Stream(p.legs), j, ms)
    requires Admissible(p, p.After(Stream(p.legs), j + 1), float)
    ensures var (es, s) := (Stream(p.legs), p.After(Stream(p.legs), j + 1));
            AboveFloors(p, s, Floating(p, s, float), Opening(p, es, FirmDay(p, ms)))
  {
    hide Portfolio.After, Portfolio.InRange, Portfolio.FirstEvent, Portfolio.Final, Stream, Opening, FirmDay,
      AboveFloors, Admissible, Weigh, TakenOn, Cap, OnePerInstrument;
    StreamFacts(p.legs);
    InRangeOf(p, Stream(p.legs));
    var s := p.After(Stream(p.legs), j + 1);
    EveryStateWithinCaps(p, j + 1);
    if s.open == {} {
      WeighNone(Maes(p.legs), s.open, |p.legs|);
      PassHasLimit(p, startMs);
    } else {
      WeighAtMost(Maes(p.legs), s.open, |p.legs|, mae);
      var k: nat :| k in s.open;
      assert |s.open| > 0;
      MoreWeighsMore(|s.open|, p.caps.concurrent, mae) by { assert p.legs[0].trade.mae >= 0.0; }
    }
    PassIsSoundBetween(p, startMs, j, ms, float);
  }

  lemma {:induction false} MoreWeighsMore(a: int, b: int, mae: real)
    requires a <= b && mae >= 0.0
    ensures a as real * mae <= b as real * mae
  {
    assert (b - a) as real * mae >= 0.0;
  }

  lemma {:induction false} WeighAtMost(w: seq<real>, s: set<nat>, n: nat, most: real)
    requires n <= |w| && most >= 0.0 && forall k :: 0 <= k < n ==> w[k] <= most
    ensures Weigh(w, s, n) <= |s| as real * most
    decreases n
  {
    if n == 0 {
      assert |s| as real * most >= 0.0;
    } else if n - 1 in s {
      var rest := s - {n - 1};
      WeighRemove(w, s, n - 1, n - 1);
      WeighAtMost(w, rest, n - 1, most);
      assert |s| == |rest| + 1;
      assert |s| as real * most == |rest| as real * most + most;
    } else {
      WeighAtMost(w, s, n - 1, most);
    }
  }

  // ----- one night is enough -----

  /** A passed phase that at some instant admits a floating path at or below a floor. */
  ghost predicate Unsound(p: Portfolio) {
    && Sane(p.legs) && p.legs != [] && p.Final(0).outcome == Pass
    && exists j: nat, ms: int, float: seq<real> :: Sinks(p, j, ms, float)
  }

  ghost predicate Sinks(p: Portfolio, j: nat, ms: int, float: seq<real>) {
    var es := Stream(p.legs);
    && p.InRange(es) && j < p.FirstEvent(es, 0) && Instant(es, j, ms)
    && var s := p.After(es, j + 1);
       Admissible(p, s, float) && !AboveFloors(p, s, Floating(p, s, float), Opening(p, es, FirmDay(p, ms)))
  }

  /** Six percent booked on the first day, then a leg with a 5.5 percent excursion held over
      midnight under a 5 percent daily limit. */
  function Carried(): Portfolio {
    Portfolio([Leg("A", TradeReturn(0, 1, 6.0, 0.0, 0), 1.0), Leg("B", TradeReturn(2, 86_400_001, 3.0, 5.5, 0), 1.0)],
              Rules(8.0, 5.0, 5.0, 10.0, false, 0, None, 0), Caps(3, 3, 3.0, true), 8.0)
  }

  lemma {:induction false} CarriedStream()
    ensures Stream(Carried().legs) ==
              [Event(0, true, 0), Event(1, false, 0), Event(2, true, 1), Event(86_400_001, false, 1)]
  {
    var ts := Trades(Carried().legs);
    assert Events(ts) == [EventOf(ts, 0, true), EventOf(ts, 0, false), EventOf(ts, 1, true), EventOf(ts, 1, false)];
    StableSortOfSorted(Events(ts), FreeFirst);
  }

  lemma {:induction false} CarriedLow(s: Account)
    ensures Carried().Low(s) == s.equity - if 1 in s.open then 5.5 else 0.0
  {
    var w := Maes(Carried().legs);
    assert Weigh(w, s.open, 2) == Weigh(w, s.open, 1) + if 1 in s.open then w[1] else 0.0;
    assert Weigh(w, s.open, 1) == Weigh(w, s.open, 0) + if 0 in s.open then w[0] else 0.0;
  }

  const CARRIED_1 := Account(0.0, 0.0, 0.0, Some(0), 0.0, {0}, 1, 1, 0, {0}, {"A"}, 1.0, {0})
  const CARRIED_2 := Account(6.0, 6.0, 0.0, Some(0), 0.0, {0}, 1, 1, 0, {}, {}, 0.0, {0})
  const CARRIED_3 := Account(6.0, 6.0, 0.0, Some(0), 0.0, {0}, 2, 2, 0, {1}, {"B"}, 1.0, {0, 1})

  lemma {:induction false} CarriedOpenA()
    ensures var (p, e) := (Carried(), Event(0, true, 0));
            p.Step(FRESH, e) == CARRIED_1 && p.Verdict(FRESH, e) == None
  {
    hide Weigh, Portfolio.Low;
    CarriedLow(CARRIED_1.(worst := 0.0));
    assert Carried().Apply(FRESH, Event(0, true, 0)) == CARRIED_1;
  }

  lemma {:induction false} CarriedCloseA()
    ensures var (p, e) := (Carried(), Event(1, false, 0));
            p.Step(CARRIED_1, e) == CARRIED_2 && p.Verdict(CARRIED_1, e) == None
  {
    hide Weigh, Portfolio.Low;
    CarriedLow(CARRIED_2);
    assert Carried().Apply(CARRIED_1, Event(1, false, 0)) == CARRIED_2;
  }

  lemma {:induction false} CarriedOpenB()
    ensures var (p, e) := (Carried(), Event(2, true, 1));
            p.Step(CARRIED_2, e) == CARRIED_3 && p.Verdict(CARRIED_2, e) == None
  {
    hide Weigh, Portfolio.Low;
    CarriedLow(CARRIED_3);
    assert Carried().Apply(CARRIED_2, Event(2, true, 1)) == CARRIED_3;
  }

  lemma {:induction false} CarriedCloseB()
    ensures Carried().Verdict(CARRIED_3, Event(86_400_001, false, 1)) == Some(Pass)
  {
    hide Weigh, Portfolio.Low;
    var s := Carried().Apply(CARRIED_3, Event(86_400_001, false, 1));
    CarriedLow(s);
    CarriedLow(s.(worst := Max(s.worst, Dip(Carried().Low(s)))));
  }

  lemma {:induction false} CarriedRun()
    ensures var p := Carried();
            var es := Stream(p.legs);
            && p.Final(0).outcome == Pass && p.InRange(es) && p.FirstEvent(es, 0) == 3 && |es| == 4
            && es[2] == Event(2, true, 1) && es[3] == Event(86_400_001, false, 1)
            && p.After(es, 3) == CARRIED_3
  {
    hide Portfolio.Step, Portfolio.Verdict, Portfolio.Final, Portfolio.ResultAt, Portfolio.FirstEvent, Portfolio.After,
      Weigh, Stream, Trades, StableSort;
    var p := Carried();
    var es := Stream(p.legs);
    CarriedStream();
    CarriedOpenA();
    CarriedCloseA();
    CarriedOpenB();
    CarriedCloseB();
    AtStart(p, es);
    AtEvent(p, es, 0);
    AtEvent(p, es, 1);
    AtEvent(p, es, 2);
    AtEvent(p, es, 3);
    FinalIsFirst(p, 0);
  }

  /** At midnight the carried leg may float 5.5 percent under water: half a percent of equity is
      left where the new day's floor is one percent. */
  lemma {:induction false} PassCarriedOverMidnight()
    ensures var p := Carried();
            && Unsound(p) && HeldAtMost(p, 1)
            && Sinks(p, 2, 86_400_000, [0.0, -5.5])
            && Floating(p, p.After(Stream(p.legs), 3), [0.0, -5.5]) == 0.5
            && Opening(p, Stream(p.legs), FirmDay(p, 86_400_000)) - p.rules.dailyDd == 1.0
  {
    hide Portfolio.Step, Portfolio.Final, Portfolio.FirstEvent, Portfolio.After, Stream, Opening, Weigh;
    var p := Carried();
    var es := Stream(p.legs);
    CarriedRun();
    StreamFacts(p.legs);
    OpeningAt(p, es, 2, 86_400_000);
    CarriedFloat(p.After(es, 3));
    assert Sinks(p, 2, 86_400_000, [0.0, -5.5]);
  }

  lemma {:induction false} CarriedFloat(s: Account)
    requires s.open == {1}
    ensures Weigh([0.0, -5.5], s.open, 2) == -5.5
  {
    assert Weigh([0.0, -5.5], s.open, 1) == 0.0;
  }

  /** A passed phase is sound at every instant exactly as long as no leg is held overnight: one
      day boundary is enough to float below the new day's floor. */
  lemma {:induction false} MidnightBound(nights: nat)
    ensures (exists p: Portfolio :: HeldAtMost(p, nights) && Unsound(p)) <==> nights >= 1
  {
    hide Sinks, Sane, Portfolio.Final, Stream, Portfolio.FirstEvent, Portfolio.After;
    if nights >= 1 {
      PassCarriedOverMidnight();
      assert HeldAtMost(Carried(), nights);
    } else {
      forall p: Portfolio | HeldAtMost(p, nights) ensures !Unsound(p) {
        if Unsound(p) {
          var j: nat, ms: int, float: seq<real> :| Sinks(p, j, ms, float);
          NeverSinks(p, j, ms, float);
        }
      }
    }
  }

  lemma {:induction false} NeverSinks(p: Portfolio, j: nat, ms: int, float: seq<real>)
    requires Sane(p.legs) && p.legs != [] && p.Final(0).outcome == Pass && HeldAtMost(p, 0)
    ensures !Sinks(p, j, ms, float)
  {
    hide Sane, Portfolio.Final, Stream, Portfolio.FirstEvent, Portfolio.After, HeldAtMost, Opening, FirmDay,
      AboveFloors, Admissible, Floating;
    if Sinks(p, j, ms, float) {
      PassIsSoundAtEveryInstant(p, 0, j, ms, float);
    }
  }
}
