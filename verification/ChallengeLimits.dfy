/** Where the two phase simulators part: the exact bounds on the required trading days and on the
    nights a trade may be held. */
module ChallengeLimits {
  import opened Prelude
  import opened ChallengeRulesModel
  import opened ChallengeSim
  import opened ChallengeLaws
  import opened ChallengeRefinement

  // ----- required trading days -----

  /** `m + 1` trades opened on successive days and all closed on the next one. The first
      reaches the target, the second loses far more than the drawdown limit. */
  function Staggered(m: nat): Phase {
    Phase(seq(m + 1, k requires 0 <= k < m + 1 =>
            TradeReturn(k * 86_400_000, (m + 1) * 86_400_000 + k,
                        if k == 0 then 8.0 else if k == 1 then -30.0 else 0.0, 0.0, k)),
          Rules(8.0, 5.0, 5.0, 10.0, false, m, None, 0), 8.0)
  }

  lemma {:induction false} StaggeredShape(m: nat)
    ensures ExitOrdered(Staggered(m).ts) && DipsNonNegative(Staggered(m).ts)
  {
  }

  lemma {:induction false} StaggeredScan(m: nat)
    requires m >= 2
    ensures Staggered(m).Sequential(0).outcome == FailMaxDd
  {
    var p := Staggered(m);
    p.Start();
    p.Unfold(0);
    p.Unfold(1);
    p.Unfold(2);
    assert p.Days(1) == {0};
    assert p.Verdict(0) == None;
    assert p.Verdict(1) == None;
    assert p.Verdict(2) == Some(FailMaxDd);
    assert p.FirstVerdict(2) == 2 && p.FirstVerdict(1) == 2 && p.FirstVerdict(0) == 2;
  }

  /** Nothing booked and nothing at risk. */
  ghost predicate Quiet(s: Sweep) {
    s.realized == 0.0 && s.peak == 0.0 && s.sod == 0.0 && forall k :: k in s.open ==> s.open[k] == 0.0
  }

  lemma {:induction false} TotalZero(m: map<nat, real>, n: nat)
    requires forall k :: k in m ==> m[k] == 0.0
    ensures Total(m, n) == 0.0
  {
    if n > 0 { TotalZero(m, n - 1); }
  }

  lemma {:induction false} QuietEvent(m: nat, s: Sweep, e: Event)
    requires Quiet(s) && e.k <= m
    ensures var p := Staggered(m);
            var s1 := Enter(s, e, p.ts[e.k], |p.ts|, 0);
            && Quiet(s1) && s1.Low(|p.ts|) == 0.0 && s.days <= s1.days
  {
    var p := Staggered(m);
    var s1 := Rolled(s, e.ms, 0);
    var s2 := if e.opening then Opened(s1, p.ts[e.k], e.k) else s1;
    assert p.ts[e.k].mae == 0.0;
    TotalZero(s2.open, |p.ts|);
  }

  lemma {:induction false} DaysCounted(days: set<int>, n: nat)
    requires forall k :: 0 <= k < n ==> k in days
    ensures |days| >= n
  {
    if n > 0 { DaysCounted(days - {n - 1}, n - 1); }
  }

  /** The CLOSE of the first trade comes after every OPEN and before every other CLOSE. */
  lemma {:induction false} FirstClose(m: nat, es: seq<Event>) returns (j: nat)
    requires SortedSweep(Staggered(m), es)
    ensures j < |es| && es[j] == EventOf(Staggered(m).ts, 0, false)
    ensures forall i :: 0 <= i < j ==> es[i].opening
    ensures forall k :: 0 <= k <= m ==> Seen(es, j, EventOf(Staggered(m).ts, k, true))
  {
    var ts := Staggered(m).ts;
    var c := EventOf(ts, 0, false);
    assert c in es;
    j :| 0 <= j < |es| && es[j] == c;
    forall i | 0 <= i < j ensures es[i].opening {
      var e := es[i];
      assert e in es && e == EventOf(ts, e.k, e.opening) && Before(e, c, SweepKey, EventIndex);
    }
    forall k | 0 <= k <= m ensures Seen(es, j, EventOf(ts, k, true)) {
      var o := EventOf(ts, k, true);
      assert o in es;
      SeenIsBefore(es, j, o, SweepKey);
    }
  }

  lemma {:induction false} QuietUntil(m: nat, es: seq<Event>, j: nat)
    requires SortedSweep(Staggered(m), es) && InRange(Staggered(m), es) && j <= |es|
    requires forall i :: 0 <= i < j ==> es[i].opening
    ensures Quiet(After(Staggered(m), es, j))
    ensures FirstEvent(Staggered(m), es, 0) == FirstEvent(Staggered(m), es, j)
  {
    if j > 0 {
      QuietUntil(m, es, j - 1);
      assert es[j - 1] in es;
      QuietEvent(m, After(Staggered(m), es, j - 1), es[j - 1]);
    }
  }

  lemma {:induction false} StaggeredSweep(m: nat)
    requires m >= 2
    ensures Concurrent(Staggered(m), 0).outcome == Pass
  {
    var p := Staggered(m);
    SweepOrderFacts(p.ts);
    var es := SweepOrder(p.ts);
    var j := FirstClose(m, es);
    QuietUntil(m, es, j);
    StaggeredShape(m);
    LedgerHolds(p, es, j);
    StaggeredPass(m, es, j);
    PassStops(p, es, j, 0);
  }

  lemma {:induction false} StaggeredPass(m: nat, es: seq<Event>, j: nat)
    requires m >= 2 && InRange(Staggered(m), es) && j < |es| && es[j] == EventOf(Staggered(m).ts, 0, false)
    requires Quiet(After(Staggered(m), es, j)) && Tracks(Staggered(m).ts, After(Staggered(m), es, j), es, j)
    requires forall k :: 0 <= k <= m ==> Seen(es, j, EventOf(Staggered(m).ts, k, true))
    ensures EventVerdict(Staggered(m), After(Staggered(m), es, j), es[j]) == Some(Pass)
    ensures FirstEvent(Staggered(m), es, j) == j
  {
    var p := Staggered(m);
    var s := After(p, es, j);
    forall k | 0 <= k < m + 1 ensures k in s.days {
      assert p.ts[k].day == k;
    }
    QuietEvent(m, s, es[j]);
    DaysCounted(Enter(s, es[j], p.ts[0], |p.ts|, 0).days, m + 1);
  }

  /** On some stream the concurrent simulation passes a phase the scan fails on the maximum
      drawdown: an overstatement of safety. */
  ghost predicate Overstates(p: Phase) {
    && ExitOrdered(p.ts) && DipsNonNegative(p.ts)
    && Concurrent(p, 0).outcome == Pass
    && p.Sequential(0).outcome == FailMaxDd
  }

  /** The sweep counts a trading day when a trade opens, the scan when it is reached in exit
      order, so with two or more required days it can pass first; with at most one never. */
  lemma {:induction false} TradingDaysBound(m: nat)
    ensures (exists p: Phase :: p.rules.minTradingDays == m && Overstates(p)) <==> m >= 2
  {
    if m >= 2 {
      StaggeredShape(m);
      StaggeredScan(m);
      StaggeredSweep(m);
      assert Overstates(Staggered(m));
    } else {
      forall p: Phase | p.rules.minTradingDays == m ensures !Overstates(p) {
        if Overstates(p) {
          ConcurrentDominates(p, 0);
        }
      }
    }
  }

  // ----- trades held overnight -----

  /** Two trades that never overlap, the first held overnight: the scan measures the second
      day from the equity booked by the first trade, the sweep from before it was booked. */
  function Overnight(): Phase {
    Phase([TradeReturn(0, 86_400_001, 6.0, 0.0, 0), TradeReturn(86_400_002, 86_400_003, 10.0, 5.5, 1)],
          Rules(8.0, 5.0, 5.0, 10.0, false, 0, None, 0), 8.0)
  }

  lemma {:induction false} OvernightScan()
    ensures Overnight().Sequential(0).outcome == FailDailyDd
  {
    var p := Overnight();
    p.Unfold(0);
    assert p.Equity(0) == 0.0 && p.Peak(0) == 0.0;
    assert p.Equity(1) == 6.0 && p.Peak(1) == 6.0;
    assert p.Low(0) == 0.0 && p.Low(1) == 0.5;
    assert p.Sod(0) == 0.0 && p.Sod(1) == 6.0;
    assert p.Verdict(0) == None;
    assert p.Verdict(1) == Some(FailDailyDd);
    assert p.FirstVerdict(1) == 1;
  }

  lemma {:induction false} OvernightOrder()
    ensures var p := Overnight();
            && SweepOrder(p.ts) == [Event(0, true, 0), Event(86_400_001, false, 0),
                                    Event(86_400_002, true, 1), Event(86_400_003, false, 1)]
            && InRange(p, SweepOrder(p.ts))
  {
    SeparatedOrder(Overnight().ts);
    SweepOrderFacts(Overnight().ts);
  }

  const NIGHT_1 := Sweep(0.0, 0.0, 0.0, Some(0), 0.0, {0}, map[0 := 0.0], 0, -1)
  const NIGHT_2 := Sweep(6.0, 6.0, 0.0, Some(1), 0.0, {0}, map[], 1, 0)
  const NIGHT_3 := Sweep(6.0, 6.0, 0.0, Some(1), 0.0, {0, 1}, map[1 := 5.5], 1, 0)

  lemma {:induction false} NightLow(s: Sweep)
    ensures s.open == map[0 := 0.0] || s.open == map[] ==> s.Low(2) == s.realized
    ensures s.open == map[1 := 5.5] ==> s.Low(2) == s.realized - 5.5
  {
    TotalOfOne(0, 0.0, 2);
    TotalOfOne(1, 5.5, 2);
    TotalOfNone(2);
  }

  lemma {:induction false} OvernightOpenA()
    ensures var (p, e) := (Overnight(), Event(0, true, 0));
            Step(p, FLAT, e) == NIGHT_1 && EventVerdict(p, FLAT, e) == None
  {
    hide Sweep.Low;
    var s := Opened(Rolled(FLAT, 0, 0), Overnight().ts[0], 0);
    assert s.open == map[0 := 0.0];
    NightLow(s);
    NightLow(NIGHT_1);
    assert Enter(FLAT, Event(0, true, 0), Overnight().ts[0], 2, 0) == NIGHT_1;
  }

  lemma {:induction false} OvernightCloseA()
    ensures var (p, e) := (Overnight(), Event(86_400_001, false, 0));
            Step(p, NIGHT_1, e) == NIGHT_2 && EventVerdict(p, NIGHT_1, e) == None
  {
    hide Sweep.Low;
    var s := Rolled(NIGHT_1, 86_400_001, 0);
    NightLow(s);
    assert Enter(NIGHT_1, Event(86_400_001, false, 0), Overnight().ts[0], 2, 0) == s;
    assert s.open - {0} == map[];
    assert Book(s, Overnight().ts[0], 0) == NIGHT_2;
  }

  lemma {:induction false} OvernightOpenB()
    ensures var (p, e) := (Overnight(), Event(86_400_002, true, 1));
            Step(p, NIGHT_2, e) == NIGHT_3 && EventVerdict(p, NIGHT_2, e) == None
  {
    hide Sweep.Low;
    var s := Opened(Rolled(NIGHT_2, 86_400_002, 0), Overnight().ts[1], 1);
    assert s.open == map[1 := 5.5];
    NightLow(s);
    NightLow(NIGHT_3);
    assert Enter(NIGHT_2, Event(86_400_002, true, 1), Overnight().ts[1], 2, 0) == NIGHT_3;
  }

  lemma {:induction false} OvernightCloseB()
    ensures EventVerdict(Overnight(), NIGHT_3, Event(86_400_003, false, 1)) == Some(Pass)
  {
    hide Sweep.Low;
    NightLow(NIGHT_3);
    assert Enter(NIGHT_3, Event(86_400_003, false, 1), Overnight().ts[1], 2, 0) == NIGHT_3;
  }

  lemma {:induction false} OvernightSweep()
    ensures Concurrent(Overnight(), 0).outcome == Pass
  {
    hide Step, EventVerdict, After, SweepOrder, InRange, FirstEvent, SweepResult;
    var p := Overnight();
    var es := SweepOrder(p.ts);
    OvernightOrder();
    OvernightOpenA();
    OvernightCloseA();
    OvernightOpenB();
    OvernightCloseB();
    StepsTo(p, es, 0);
    StepsTo(p, es, 1);
    StepsTo(p, es, 2);
    FirstEventHere(p, es, 0, FLAT, es[0]);
    FirstEventHere(p, es, 1, NIGHT_1, es[1]);
    FirstEventHere(p, es, 2, NIGHT_2, es[2]);
    FirstEventHere(p, es, 3, NIGHT_3, es[3]);
    PassStops(p, es, 3, 0);
  }

  lemma {:induction false} StepsTo(p: Phase, es: seq<Event>, j: nat)
    requires j < |es| && InRange(p, es)
    ensures After(p, es, 0) == FLAT && es[j].k < |p.ts|
    ensures After(p, es, j + 1) == Step(p, After(p, es, j), es[j])
  {
  }

  lemma {:induction false} PassStops(p: Phase, es: seq<Event>, j: nat, start: nat)
    requires j < |es| && InRange(p, es) && EventVerdict(p, After(p, es, j), es[j]) == Some(Pass)
    ensures SweepResult(p, es, j, start).outcome == Pass
  {
  }

  /** Every trade is filed under the day it opens and closes at most `nights` days later. */
  ghost predicate HeldAtMost(p: Phase, nights: nat) {
    forall i :: 0 <= i < |p.ts| ==>
      FirmDay(p, p.ts[i].entryMs) == p.ts[i].day && FirmDay(p, p.ts[i].exitMs) - p.ts[i].day <= nights
  }

  /** On some stream the concurrent simulation passes a phase the scan fails on the daily limit. */
  ghost predicate MissesDaily(p: Phase) {
    && ExitOrdered(p.ts) && DipsNonNegative(p.ts) && p.rules.minTradingDays <= 1
    && Concurrent(p, 0).outcome == Pass
    && p.Sequential(0).outcome == FailDailyDd
  }

  lemma {:induction false} HeldIntraday(p: Phase)
    requires ExitOrdered(p.ts) && HeldAtMost(p, 0)
    ensures SameDay(p)
  {
    forall i | 0 <= i < |p.ts| ensures FirmDay(p, p.ts[i].entryMs) == p.ts[i].day == FirmDay(p, p.ts[i].exitMs) {
      assert p.ts[i].entryMs <= p.ts[i].exitMs;
    }
  }

  /** The sweep is conservative about the daily limit, however the trades overlap, exactly as
      long as none is held over a day boundary: one night is enough to miss a breach. */
  lemma {:induction false} OvernightBound(nights: nat)
    ensures (exists p: Phase :: HeldAtMost(p, nights) && MissesDaily(p)) <==> nights >= 1
  {
    hide Concurrent, Phase.Sequential, HeldAtMost, ExitOrdered, DipsNonNegative, SameDay;
    if nights >= 1 {
      OvernightShape(nights);
      OvernightScan();
      OvernightSweep();
      assert MissesDaily(Overnight());
    } else {
      forall p: Phase | HeldAtMost(p, nights) ensures !MissesDaily(p) {
        if MissesDaily(p) {
          HeldIntraday(p);
          ConcurrentDominates(p, 0);
        }
      }
    }
  }

  lemma {:induction false} OvernightShape(nights: nat)
    requires nights >= 1
    ensures ExitOrdered(Overnight().ts) && DipsNonNegative(Overnight().ts) && HeldAtMost(Overnight(), nights)
  {
  }
}
