/** On one-at-a-time intraday trades the event sweep and the scan are the same simulation. */
module ChallengeRefinement {
  import opened Prelude
  import opened ChallengeRulesModel
  import opened ChallengeSim

  // ----- on separated same-day trades the sweep refines the scan -----

  /** One trade at a time: each exits strictly before any later one enters. */
  ghost predicate Separated(ts: seq<TradeReturn>) {
    && (forall i, j :: 0 <= i < j < |ts| ==> ts[i].exitMs < ts[j].entryMs)
    && (forall i :: 0 <= i < |ts| ==> ts[i].entryMs <= ts[i].exitMs)
  }

  /** Every trade opens and closes on the firm day it is filed under, and none outlives a
      calendar limit it was opened within. */
  ghost predicate Intraday(p: Phase) {
    forall i :: 0 <= i < |p.ts| ==>
      && TradingDay(p.ts[i].entryMs, p.rules.resetOffsetMs) == p.ts[i].day
      && TradingDay(p.ts[i].exitMs, p.rules.resetOffsetMs) == p.ts[i].day
      && (p.rules.Overdue(p.ts[i].exitMs, p.ts[0].entryMs) ==> p.rules.Overdue(p.ts[i].entryMs, p.ts[0].entryMs))
  }

  lemma {:induction false} SeparatedOrder(ts: seq<TradeReturn>)
    requires Separated(ts)
    ensures SweepOrder(ts) == Events(ts)
  {
    var es := Events(ts);
    forall i, j | 0 <= i < j < |es| ensures SweepKey(es[i]) <= SweepKey(es[j]) {
      if i / 2 < j / 2 {
        assert ts[i / 2].exitMs < ts[j / 2].entryMs;
      }
    }
    StableSortOfSorted(es, SweepKey);
  }

  lemma {:induction false} TotalOfOne(k: nat, v: real, n: nat)
    ensures Total(map[k := v], n) == if k < n then v else 0.0
  {
    if n > 0 { TotalOfOne(k, v, n - 1); }
  }

  lemma {:induction false} TotalOfNone(n: nat)
    ensures Total(map[], n) == 0.0
  {
    if n > 0 { TotalOfNone(n - 1); }
  }

  /** The account between trades: flat, and otherwise where the scan is. */
  function Between(p: Phase, k: nat): Sweep
    requires k <= |p.ts|
  {
    Sweep(p.Equity(k), p.Peak(k), p.Worst(k), if k == 0 then None else Some(p.ts[k - 1].day),
          if k == 0 then 0.0 else p.Sod(k - 1), p.Days(k), map[], k, k - 1)
  }

  /** The account while trade `k` alone is open. */
  function Inside(p: Phase, k: nat): Sweep
    requires k < |p.ts|
  {
    Sweep(p.Equity(k), p.Peak(k), p.Worst(k + 1), Some(p.ts[k].day), p.Sod(k), p.Days(k + 1),
          map[k := p.ts[k].mae], k, k - 1)
  }

  lemma {:induction false} OpenStep(p: Phase, k: nat)
    requires Intraday(p) && k < |p.ts|
    ensures Enter(Between(p, k), EventOf(p.ts, k, true), p.ts[k], |p.ts|, p.rules.resetOffsetMs) == Inside(p, k)
    ensures Inside(p, k).Low(|p.ts|) == p.Low(k)
  {
    TotalOfOne(k, p.ts[k].mae, |p.ts|);
    p.Unfold(k);
    var s1 := Rolled(Between(p, k), p.ts[k].entryMs, p.rules.resetOffsetMs);
    assert s1.sod == p.Sod(k) && s1.day == Some(p.ts[k].day);
    var s2 := Opened(s1, p.ts[k], k);
    assert s2.open == map[k := p.ts[k].mae];
    assert s2.Low(|p.ts|) == p.Low(k);
  }

  lemma {:induction false} CloseStep(p: Phase, k: nat)
    requires Intraday(p) && k < |p.ts|
    ensures Enter(Inside(p, k), EventOf(p.ts, k, false), p.ts[k], |p.ts|, p.rules.resetOffsetMs) == Inside(p, k)
    ensures Book(Inside(p, k), p.ts[k], k) == Between(p, k + 1)
  {
    TotalOfOne(k, p.ts[k].mae, |p.ts|);
    p.Unfold(k);
    assert Rolled(Inside(p, k), p.ts[k].exitMs, p.rules.resetOffsetMs) == Inside(p, k);
    assert Inside(p, k).Low(|p.ts|) == p.Low(k);
    assert map[k := p.ts[k].mae] - {k} == map[];
  }

  /** What the two events of trade `k` decide is what the scan decides at trade `k`. */
  lemma {:induction false} VerdictsMatch(p: Phase, k: nat)
    requires Intraday(p) && k < |p.ts|
    ensures var o := EventVerdict(p, Between(p, k), EventOf(p.ts, k, true));
            var c := EventVerdict(p, Inside(p, k), EventOf(p.ts, k, false));
            p.Verdict(k) == if o.Some? then o else c
    ensures EventVerdict(p, Between(p, k), EventOf(p.ts, k, true)) != Some(Pass)
    ensures EventVerdict(p, Between(p, k), EventOf(p.ts, k, true)).None? ==>
              EventVerdict(p, Inside(p, k), EventOf(p.ts, k, false)) in {None, Some(Pass)}
  {
    OpenStep(p, k);
    CloseStep(p, k);
    p.Unfold(k);
  }

  /** A breach reports the index of the trade that breached, not the one after it. */
  function Resumed(q: PhaseResult): PhaseResult {
    if q.outcome in {FailMaxDd, FailDailyDd} then q.(nextIndex := q.nextIndex - 1) else q
  }

  lemma {:induction false} EventsAt(ts: seq<TradeReturn>, k: nat)
    requires k < |ts|
    ensures Events(ts)[2 * k] == EventOf(ts, k, true) && Events(ts)[2 * k + 1] == EventOf(ts, k, false)
  {
    assert 2 * k / 2 == k && (2 * k + 1) / 2 == k && 2 * k % 2 == 0 && (2 * k + 1) % 2 == 1;
  }

  lemma {:induction false} TradeEvents(p: Phase, es: seq<Event>, k: nat, j: nat)
    requires Intraday(p) && k < |p.ts| && j == 2 * k
    requires es == Events(p.ts) && InRange(p, es) && After(p, es, j) == Between(p, k)
    ensures es[j] == EventOf(p.ts, k, true) && es[j + 1] == EventOf(p.ts, k, false)
    ensures After(p, es, j + 1) == Inside(p, k)
    ensures After(p, es, j + 2) == Between(p, k + 1)
  {
    hide Intraday, Enter, Book, Between, Inside, Events;
    OpenStep(p, k);
    CloseStep(p, k);
    EventsAt(p.ts, k);
    assert After(p, es, j + 1) == Step(p, Between(p, k), es[j]);
    assert After(p, es, j + 2) == Step(p, Inside(p, k), es[j + 1]);
  }

  lemma {:induction false} StopAtOpen(p: Phase, es: seq<Event>, k: nat, j: nat, start: nat)
    requires Intraday(p) && k < |p.ts| && j < |es| && InRange(p, es)
    requires After(p, es, j) == Between(p, k) && es[j] == EventOf(p.ts, k, true)
    requires EventVerdict(p, Between(p, k), es[j]).Some?
    ensures SweepResult(p, es, j, start) == Resumed(p.SequentialAt(k, start))
  {
    VerdictsMatch(p, k);
    OpenStep(p, k);
  }

  lemma {:induction false} StopAtClose(p: Phase, es: seq<Event>, k: nat, j: nat, start: nat)
    requires Intraday(p) && k < |p.ts| && j < |es| && InRange(p, es)
    requires After(p, es, j) == Inside(p, k) && es[j] == EventOf(p.ts, k, false)
    requires EventVerdict(p, Between(p, k), EventOf(p.ts, k, true)).None?
    requires EventVerdict(p, Inside(p, k), es[j]).Some?
    ensures SweepResult(p, es, j, start) == Resumed(p.SequentialAt(k, start))
  {
    VerdictsMatch(p, k);
    CloseStep(p, k);
  }

  lemma {:induction false} StopAtEnd(p: Phase, es: seq<Event>, start: nat)
    requires InRange(p, es) && After(p, es, |es|) == Between(p, |p.ts|)
    ensures FirstEvent(p, es, |es|) == |es| && p.FirstVerdict(|p.ts|) == |p.ts|
    ensures SweepResult(p, es, |es|, start) == Resumed(p.SequentialAt(|p.ts|, start))
  {
  }

  lemma {:induction false} FirstEventHere(p: Phase, es: seq<Event>, j: nat, s: Sweep, e: Event)
    requires j < |es| && InRange(p, es) && After(p, es, j) == s && es[j] == e
    ensures e in es
    ensures FirstEvent(p, es, j) == if EventVerdict(p, s, e).Some? then j else FirstEvent(p, es, j + 1)
  {
  }

  /** Trade `k` stops both simulators with the same result, or neither. */
  lemma {:induction false} TradeTogether(p: Phase, es: seq<Event>, k: nat, j: nat, start: nat)
    requires Intraday(p) && k < |p.ts| && j == 2 * k
    requires es == Events(p.ts) && InRange(p, es) && After(p, es, j) == Between(p, k)
    ensures After(p, es, j + 2) == Between(p, k + 1)
    ensures if p.Verdict(k).Some?
            then
              && p.FirstVerdict(k) == k
              && SweepResult(p, es, FirstEvent(p, es, j), start) == Resumed(p.SequentialAt(k, start))
            else p.FirstVerdict(k) == p.FirstVerdict(k + 1) && FirstEvent(p, es, j) == FirstEvent(p, es, j + 2)
  {
    hide Intraday, InRange, EventVerdict, After, SweepResult, Between, Inside, Events, Resumed;
    TradeEvents(p, es, k, j);
    FirstEventHere(p, es, j, Between(p, k), es[j]);
    FirstEventHere(p, es, j + 1, Inside(p, k), es[j + 1]);
    VerdictsMatch(p, k);
    if EventVerdict(p, Between(p, k), es[j]).Some? {
      StopAtOpen(p, es, k, j, start);
    } else if EventVerdict(p, Inside(p, k), es[j + 1]).Some? {
      StopAtClose(p, es, k, j + 1, start);
    }
  }

  lemma {:induction false} SweepFollowsScan(p: Phase, es: seq<Event>, k: nat, j: nat, start: nat)
    requires Intraday(p) && k <= |p.ts| && j == 2 * k
    requires es == Events(p.ts) && InRange(p, es) && After(p, es, j) == Between(p, k)
    ensures SweepResult(p, es, FirstEvent(p, es, j), start) == Resumed(p.SequentialAt(p.FirstVerdict(k), start))
    decreases |p.ts| - k
  {
    hide *;
    if k == |p.ts| {
      StopAtEnd(p, es, start);
      return;
    }
    TradeTogether(p, es, k, j, start);
    if p.Verdict(k).Some? {
      return;
    }
    SweepFollowsScan(p, es, k + 1, j + 2, start);
  }

  /** Both simulators return the same result, up to where a breach says to resume. */
  lemma {:induction false} SweepRefinesScan(p: Phase, start: nat)
    requires Separated(p.ts) && Intraday(p)
    ensures Concurrent(p, start) == Resumed(p.Sequential(start))
  {
    SweepOrderFacts(p.ts);
    SeparatedOrder(p.ts);
    if p.ts != [] {
      SweepFollowsScan(p, Events(p.ts), 0, 0, start);
    }
  }
}
