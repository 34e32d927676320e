/** Two-phase challenges, the overlap test that picks the simulator, and the Monte-Carlo tally
    of app/cfd_research/challenge_sim.py. */
module ChallengeRun {
  import opened Prelude
  import opened ChallengeRulesModel
  import opened ChallengeSim
  import opened ChallengeLaws
  import opened ChallengeRefinement
  import opened ChallengeLimits

  function EntryKey(t: TradeReturn): real { t.entryMs as real }

  /** Some trade, in entry order, opens before an earlier one has closed. */
  ghost predicate Overlapping(ordered: seq<TradeReturn>) {
    exists i, j :: 0 <= i < j < |ordered| && ordered[j].entryMs < ordered[i].exitMs
  }

  /** The running maximum of the exits suffices. Times are whole, so the source's tolerance of
      a millionth of a millisecond changes nothing. */
  method HasOverlap(returns_: seq<TradeReturn>) returns (overlap: bool)
    ensures overlap <==> Overlapping(StableSort(returns_, EntryKey))
  {
    var ordered := StableSort(returns_, EntryKey);
    if ordered == [] {
      return false;
    }
    var latest := 0;
    for j := 0 to |ordered|
      invariant latest < |ordered| && (j > 0 ==> latest < j)
      invariant forall i :: 0 <= i < j ==> ordered[i].exitMs <= ordered[latest].exitMs
      invariant forall i, k :: 0 <= i < k < j ==> ordered[k].entryMs >= ordered[i].exitMs
    {
      if j > 0 && ordered[j].entryMs < ordered[latest].exitMs {
        return true;
      }
      if j == 0 || ordered[j].exitMs > ordered[latest].exitMs {
        latest := j;
      }
    }
    return false;
  }

  datatype ChallengeResult = ChallengeResult(
    outcome: Outcome, phase1: PhaseResult, phase2: Option<PhaseResult>, totalTradingDays: int)

  /** One phase under either simulator. */
  function PhaseOf(stream: seq<TradeReturn>, start: nat, rules: Rules, target: real, scale: real, concurrent: bool)
    : PhaseResult
  {
    var p := Phase(Rescale(stream, start, scale), rules, target);
    if concurrent then Concurrent(p, start) else p.Sequential(start)
  }

  /** Phase 2 runs from where phase 1 resumed, if phase 1 passed and there is a second target. */
  function ChallengeOf(stream: seq<TradeReturn>, start: nat, rules: Rules, scale: real, concurrent: bool)
    : ChallengeResult
  {
    var p1 := PhaseOf(stream, start, rules, rules.phase1Target, scale, concurrent);
    if p1.outcome != Pass || rules.phase2Target <= 0.0 then ChallengeResult(p1.outcome, p1, None, p1.tradingDays)
    else
      ResumesForward(Phase(Rescale(stream, start, scale), rules, rules.phase1Target), start, concurrent);
      var p2 := PhaseOf(stream, p1.nextIndex, rules, rules.phase2Target, scale, concurrent);
      ChallengeResult(p2.outcome, p1, Some(p2), p1.tradingDays + p2.tradingDays)
  }

  method SimulateChallenge(stream: seq<TradeReturn>, start: nat, rules: Rules, scale: real, concurrent: bool)
    returns (r: ChallengeResult)
    ensures r == ChallengeOf(stream, start, rules, scale, concurrent)
    ensures r.phase1 == PhaseOf(stream, start, rules, rules.phase1Target, scale, concurrent)
    ensures r.phase2.Some? <==> r.phase1.outcome == Pass && rules.phase2Target > 0.0
    ensures r.phase2.Some? ==>
              r.phase1.nextIndex >= 0
              && r.phase2.value == PhaseOf(stream, r.phase1.nextIndex, rules, rules.phase2Target, scale, concurrent)
    ensures r.outcome == Pass <==> r.phase1.outcome == Pass && (r.phase2.Some? ==> r.phase2.value.outcome == Pass)
    ensures r.totalTradingDays == r.phase1.tradingDays + if r.phase2.Some? then r.phase2.value.tradingDays else 0
  {
    hide Concurrent, Phase.SequentialAt, Rescale;
    var p1 := RunPhase(stream, start, rules, rules.phase1Target, scale, concurrent);
    if p1.outcome != Pass || rules.phase2Target <= 0.0 {
      return ChallengeResult(p1.outcome, p1, None, p1.tradingDays);
    }
    ResumesForward(Phase(Rescale(stream, start, scale), rules, rules.phase1Target), start, concurrent);
    var p2 := RunPhase(stream, p1.nextIndex, rules, rules.phase2Target, scale, concurrent);
    return ChallengeResult(p2.outcome, p1, Some(p2), p1.tradingDays + p2.tradingDays);
  }

  method RunPhase(stream: seq<TradeReturn>, start: nat, rules: Rules, target: real, scale: real, concurrent: bool)
    returns (r: PhaseResult)
    ensures r == PhaseOf(stream, start, rules, target, scale, concurrent)
  {
    hide Concurrent, Phase.SequentialAt, Rescale;
    if concurrent {
      r := SimulatePhaseConcurrent(stream, start, rules, target, scale);
    } else {
      r := SimulatePhase(stream, start, rules, target, scale);
    }
  }

  /** Both simulators resume at or after the trade they started from. */
  lemma {:induction false} ResumesForward(p: Phase, start: nat, concurrent: bool)
    ensures (if concurrent then Concurrent(p, start) else p.Sequential(start)).nextIndex >= start
  {
    hide EventVerdict, Enter, SweepOrder, Phase.Verdict;
    if p.ts != [] && concurrent {
      SweepOrderFacts(p.ts);
      BookedIndex(p, SweepOrder(p.ts), FirstEvent(p, SweepOrder(p.ts), 0), start);
    }
  }

  lemma {:induction false} BookedIndex(p: Phase, es: seq<Event>, j: nat, start: nat)
    requires j <= |es| && InRange(p, es)
    ensures SweepResult(p, es, j, start).nextIndex >= start
  {
    hide EventVerdict, After;
    LastBookedAtLeast(p, es, j);
  }

  lemma {:induction false} LastBookedAtLeast(p: Phase, es: seq<Event>, j: nat)
    requires j <= |es| && InRange(p, es)
    ensures After(p, es, j).lastBooked >= -1
  {
    hide Sweep.Low, TradingDay, Dip, Max;
    if j > 0 { LastBookedAtLeast(p, es, j - 1); }
  }

  // ----- does the choice of simulator matter? -----

  /** The stream is intraday for a phase starting anywhere in it. */
  ghost predicate IntradayFrom(stream: seq<TradeReturn>, rules: Rules, scale: real) {
    forall k: nat :: Intraday(Phase(Rescale(stream, k, scale), rules, 0.0))
  }

  lemma {:induction false} PhasesAgree(stream: seq<TradeReturn>, k: nat, rules: Rules, target: real, scale: real)
    requires Separated(stream) && IntradayFrom(stream, rules, scale)
    ensures PhaseOf(stream, k, rules, target, scale, true) == Resumed(PhaseOf(stream, k, rules, target, scale, false))
  {
    hide Concurrent, Phase.Sequential;
    var p := Phase(Rescale(stream, k, scale), rules, target);
    assert Intraday(Phase(p.ts, rules, 0.0));
    SeparatedFrom(stream, k, scale);
    SweepRefinesScan(p, k);
  }

  lemma {:induction false} SeparatedFrom(stream: seq<TradeReturn>, k: nat, scale: real)
    requires Separated(stream)
    ensures Separated(Rescale(stream, k, scale))
  {
    var ts := Rescale(stream, k, scale);
    forall i | 0 <= i < |ts| ensures ts[i] == Scaled(stream[k + i], scale) {
      assert ts[k + i - k] == Scaled(stream[k + i], scale);
    }
  }

  /** On separated intraday trades the choice of simulator does not change a challenge, up to
      where a failed phase would resume. */
  lemma {:induction false} SimulatorChoiceIsFree(stream: seq<TradeReturn>, start: nat, rules: Rules, scale: real)
    requires Separated(stream) && IntradayFrom(stream, rules, scale)
    ensures var c := ChallengeOf(stream, start, rules, scale, true);
            var s := ChallengeOf(stream, start, rules, scale, false);
            && c.outcome == s.outcome && c.totalTradingDays == s.totalTradingDays
            && c.phase1 == Resumed(s.phase1) && (c.phase2.Some? <==> s.phase2.Some?)
            && (c.phase2.Some? ==> c.phase2.value == Resumed(s.phase2.value))
  {
    hide Concurrent, Phase.Sequential, Rescale, Separated, IntradayFrom, PhaseOf;
    PhasesAgree(stream, start, rules, rules.phase1Target, scale);
    var p1 := PhaseOf(stream, start, rules, rules.phase1Target, scale, false);
    if p1.outcome == Pass {
      ForwardPhase(stream, start, rules, scale);
      PhasesAgree(stream, p1.nextIndex, rules, rules.phase2Target, scale);
    }
  }

  lemma {:induction false} ForwardPhase(stream: seq<TradeReturn>, start: nat, rules: Rules, scale: real)
    ensures PhaseOf(stream, start, rules, rules.phase1Target, scale, false).nextIndex >= start
  {
    hide Rescale, Phase.Sequential;
    ResumesForward(Phase(Rescale(stream, start, scale), rules, rules.phase1Target), start, false);
  }

  /** What the overlap test buys: without overlap, trades held for some time never open before
      an earlier one has closed. */
  lemma {:induction false} NoOverlapSeparates(stream: seq<TradeReturn>, a: nat, b: nat)
    requires !Overlapping(StableSort(stream, EntryKey)) && ExitOrdered(stream)
    requires a < b < |stream| && forall i :: 0 <= i < |stream| ==> stream[i].entryMs < stream[i].exitMs
    ensures stream[a].exitMs <= stream[b].entryMs
  {
    var ordered := StableSort(stream, EntryKey);
    SortSorts(stream, EntryKey);
    var i, j := PlacesAfter(stream, ordered, a, b);
  }

  /** What it does not buy: the two simulators may still disagree on a stream without overlap,
      when a trade is held overnight; the scan it selects is then the stricter one. */
  lemma {:induction false} NoOverlapIsNotEnough()
    ensures var p := Overnight();
            && !Overlapping(StableSort(p.ts, EntryKey))
            && p.Sequential(0).outcome == FailDailyDd && Concurrent(p, 0).outcome == Pass
  {
    hide Concurrent, Phase.Sequential;
    OvernightScan();
    OvernightSweep();
    StableSortOfSorted(Overnight().ts, EntryKey);
  }

  // ----- the tally -----

  class MonteCarlo {
    var runs: nat
    var phase1Passed: nat
    var passed: nat
    var failedMax: nat
    var failedDaily: nat
    var timeouts: nat
    var incompletes: nat
    var worstDds: seq<real>
    var daysToPass: seq<int>

    constructor ()
      ensures Valid() && runs == 0
    {
      runs, phase1Passed, passed, failedMax, failedDaily, timeouts, incompletes := 0, 0, 0, 0, 0, 0, 0;
      worstDds, daysToPass := [], [];
    }

    /** Every run is counted under exactly one outcome; a passed challenge passed phase 1. */
    ghost predicate Valid()
      reads this
    {
      && runs == passed + failedMax + failedDaily + timeouts + incompletes
      && runs == |worstDds| && passed == |daysToPass| && passed <= phase1Passed <= runs
    }

    method Tally(c: ChallengeResult)
      requires Valid() && (c.outcome == Pass ==> c.phase1.outcome == Pass)
      modifies this
      ensures Valid() && runs == old(runs) + 1
      ensures phase1Passed == old(phase1Passed) + if c.phase1.outcome == Pass then 1 else 0
      ensures passed == old(passed) + if c.outcome == Pass then 1 else 0
      ensures failedMax == old(failedMax) + if c.outcome == FailMaxDd then 1 else 0
      ensures failedDaily == old(failedDaily) + if c.outcome == FailDailyDd then 1 else 0
      ensures timeouts == old(timeouts) + if c.outcome == Timeout then 1 else 0
      ensures worstDds == old(worstDds) +
                          [if c.phase2.Some? then Max(c.phase1.worstDd, c.phase2.value.worstDd) else c.phase1.worstDd]
    {
      runs := runs + 1;
      if c.phase1.outcome == Pass {
        phase1Passed := phase1Passed + 1;
      }
      var worst := c.phase1.worstDd;
      if c.phase2.Some? {
        worst := Max(worst, c.phase2.value.worstDd);
      }
      worstDds := worstDds + [worst];
      CountOutcome(c.outcome, c.totalTradingDays);
    }

    /** One more challenge under its outcome. */
    method CountOutcome(outcome: Outcome, days: int)
      modifies this`passed, this`failedMax, this`failedDaily, this`timeouts, this`incompletes, this`daysToPass
      ensures passed == old(passed) + if outcome == Pass then 1 else 0
      ensures failedMax == old(failedMax) + if outcome == FailMaxDd then 1 else 0
      ensures failedDaily == old(failedDaily) + if outcome == FailDailyDd then 1 else 0
      ensures timeouts == old(timeouts) + if outcome == Timeout then 1 else 0
      ensures incompletes == old(incompletes) + if outcome == Incomplete then 1 else 0
      ensures daysToPass == old(daysToPass) + if outcome == Pass then [days] else []
    {
      if outcome == Pass {
        passed := passed + 1;
        daysToPass := daysToPass + [days];
      } else if outcome == FailMaxDd {
        failedMax := failedMax + 1;
      } else if outcome == FailDailyDd {
        failedDaily := failedDaily + 1;
      } else if outcome == Timeout {
        timeouts := timeouts + 1;
      } else {
        incompletes := incompletes + 1;
      }
    }
  }
}
