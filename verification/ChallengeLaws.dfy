/** What the two phase simulators promise about each other and about a cleared drawdown. */
module ChallengeLaws {
  import opened Prelude
  import opened ChallengeRulesModel
  import opened ChallengeSim

  ghost predicate ExitOrdered(ts: seq<TradeReturn>) {
    && (forall i, j :: 0 <= i < j < |ts| ==> ts[i].exitMs <= ts[j].exitMs)
    && (forall i :: 0 <= i < |ts| ==> ts[i].entryMs <= ts[i].exitMs)
  }

  ghost predicate DipsNonNegative(ts: seq<TradeReturn>) {
    forall i :: 0 <= i < |ts| ==> ts[i].mae >= 0.0
  }

  // ----- the sweep's ledger: closes are booked in index order -----

  /** Which trades are booked, open and counted after the first `j` events. */
  ghost predicate Tracks(ts: seq<TradeReturn>, s: Sweep, es: seq<Event>, j: nat)
    requires j <= |es|
  {
    && s.booked <= |ts|
    && (forall k :: 0 <= k < |ts| ==> (Seen(es, j, EventOf(ts, k, false)) <==> k < s.booked))
    && (forall k :: k in s.open ==> k < |ts| && s.open[k] == ts[k].mae)
    && (forall k :: 0 <= k < |ts| ==> (k in s.open <==> s.booked <= k && Seen(es, j, EventOf(ts, k, true))))
    && (forall k :: 0 <= k < |ts| && Seen(es, j, EventOf(ts, k, true)) ==> ts[k].day in s.days)
  }

  /** The account told by the closed forms of the scan. */
  ghost predicate Agrees(p: Phase, s: Sweep)
    requires s.booked <= |p.ts|
  {
    && s.realized == p.Equity(s.booked)
    && s.peak == p.Peak(s.booked)
    && s.lastBooked == s.booked - 1
    && s.worst >= p.Worst(s.booked)
  }

  ghost predicate Ledger(p: Phase, s: Sweep, es: seq<Event>, j: nat)
    requires j <= |es|
  {
    Tracks(p.ts, s, es, j) && Agrees(p, s)
  }

  ghost predicate SortedSweep(p: Phase, es: seq<Event>) {
    && Ordered(es, SweepKey, EventIndex)
    && forall e :: e in es <==> e.k < |p.ts| && e == EventOf(p.ts, e.k, e.opening)
  }

  /** The CLOSE under the cursor belongs to the first unbooked trade, and it is open. */
  lemma {:induction false} CloseIsNext(p: Phase, s: Sweep, es: seq<Event>, j: nat)
    requires ExitOrdered(p.ts) && SortedSweep(p, es)
    requires j < |es| && Tracks(p.ts, s, es, j) && !es[j].opening
    ensures es[j] in es && es[j].k == s.booked < |p.ts| && s.booked in s.open
  {
    var e := es[j];
    var k := e.k;
    assert e in es && e == EventOf(p.ts, k, false);
    SeenIsBefore(es, j, e, SweepKey);
    assert k >= s.booked;
    if k > s.booked {
      var c := EventOf(p.ts, s.booked, false);
      assert c in es && SweepKey(c) <= SweepKey(e);
      SeenIsBefore(es, j, c, SweepKey);
      assert false;
    }
    var o := EventOf(p.ts, k, true);
    assert o in es;
    SeenIsBefore(es, j, o, SweepKey);
  }

  lemma {:induction false} TotalAtLeast(m: map<nat, real>, n: nat, k: nat)
    requires forall i :: i in m ==> m[i] >= 0.0
    requires k in m && k < n
    ensures Total(m, n) >= m[k]
  {
    TotalNonNegative(m, n - 1);
    if k < n - 1 { TotalAtLeast(m, n - 1, k); }
  }

  lemma {:induction false} TotalNonNegative(m: map<nat, real>, n: nat)
    requires forall i :: i in m ==> m[i] >= 0.0
    ensures Total(m, n) >= 0.0
  {
    if n > 0 { TotalNonNegative(m, n - 1); }
  }

  /** While the first unbooked trade is open, the stacked dip is at least its own. */
  lemma {:induction false} StackedDip(p: Phase, s: Sweep)
    requires DipsNonNegative(p.ts) && s.booked < |p.ts| && s.booked in s.open
    requires forall k :: k in s.open ==> k < |p.ts| && s.open[k] == p.ts[k].mae
    requires s.realized == p.Equity(s.booked)
    ensures s.Low(|p.ts|) <= p.Low(s.booked)
  {
    TotalAtLeast(s.open, |p.ts|, s.booked);
  }

  /** Past the cursor exactly the event under it has been added. */
  lemma {:induction false} SeenAfter(p: Phase, es: seq<Event>, j: nat)
    requires SortedSweep(p, es) && j < |es|
    ensures es[j] in es && es[j].k < |p.ts| && es[j] == EventOf(p.ts, es[j].k, es[j].opening)
    ensures forall k, opening :: 0 <= k < |p.ts| ==>
              (Seen(es, j + 1, EventOf(p.ts, k, opening)) <==>
                 Seen(es, j, EventOf(p.ts, k, opening)) || (k == es[j].k && opening == es[j].opening))
  {
    var e := es[j];
    assert e in es;
    forall k, opening | 0 <= k < |p.ts|
      ensures Seen(es, j + 1, EventOf(p.ts, k, opening)) <==>
                Seen(es, j, EventOf(p.ts, k, opening)) || (k == e.k && opening == e.opening)
    {
      SeenNext(es, j, EventOf(p.ts, k, opening));
    }
  }

  /** An OPEN under the cursor belongs to a trade that is neither booked nor open. */
  lemma {:induction false} OpenIsNew(p: Phase, s: Sweep, es: seq<Event>, j: nat)
    requires ExitOrdered(p.ts) && SortedSweep(p, es)
    requires j < |es| && Tracks(p.ts, s, es, j) && es[j].opening
    ensures es[j].k >= s.booked
  {
    var e := es[j];
    assert e in es && e == EventOf(p.ts, e.k, true);
    var c := EventOf(p.ts, e.k, false);
    assert c in es;
    SeenIsBefore(es, j, c, SweepKey);
  }

  lemma {:induction false} TracksOpen(p: Phase, s: Sweep, es: seq<Event>, j: nat)
    requires ExitOrdered(p.ts) && SortedSweep(p, es)
    requires j < |es| && Tracks(p.ts, s, es, j) && es[j].opening
    ensures es[j] in es && Tracks(p.ts, Step(p, s, es[j]), es, j + 1)
  {
    hide ExitOrdered, SortedSweep, Seen, EventOf, Sweep.Low, Step;
    SeenAfter(p, es, j);
    OpenIsNew(p, s, es, j);
    OpenFields(p, s, es[j]);
  }

  lemma {:induction false} OpenFields(p: Phase, s: Sweep, e: Event)
    requires e.k < |p.ts| && e.opening
    ensures var t := Step(p, s, e);
            t.open == s.open[e.k := p.ts[e.k].mae] && t.booked == s.booked && t.days == s.days + {p.ts[e.k].day}
  {
  }

  lemma {:induction false} CloseFields(p: Phase, s: Sweep, e: Event)
    requires e.k < |p.ts| && !e.opening
    ensures var t := Step(p, s, e); t.open == s.open - {e.k} && t.booked == s.booked + 1 && t.days == s.days
  {
  }

  lemma {:induction false} TracksClose(p: Phase, s: Sweep, es: seq<Event>, j: nat)
    requires SortedSweep(p, es)
    requires j < |es| && Tracks(p.ts, s, es, j) && !es[j].opening
    requires es[j] in es && es[j].k == s.booked < |p.ts|
    ensures Tracks(p.ts, Step(p, s, es[j]), es, j + 1)
  {
    hide SortedSweep, Seen, EventOf, Sweep.Low, Step;
    SeenAfter(p, es, j);
    CloseFields(p, s, es[j]);
  }

  lemma {:induction false} AgreesClose(p: Phase, s: Sweep, e: Event)
    requires DipsNonNegative(p.ts) && s.booked < |p.ts| && s.booked in s.open && Agrees(p, s)
    requires forall k :: k in s.open ==> k < |p.ts| && s.open[k] == p.ts[k].mae
    requires e.k == s.booked && !e.opening
    ensures Agrees(p, Step(p, s, e))
  {
    StackedDip(p, s);
    p.Unfold(s.booked);
  }

  lemma {:induction false} LedgerHolds(p: Phase, es: seq<Event>, j: nat)
    requires ExitOrdered(p.ts) && DipsNonNegative(p.ts) && SortedSweep(p, es) && InRange(p, es)
    requires j <= |es|
    ensures Ledger(p, After(p, es, j), es, j)
  {
    hide Ledger, SortedSweep, ExitOrdered, DipsNonNegative, InRange, Step;
    if j == 0 {
      LedgerStart(p, es);
    } else {
      LedgerHolds(p, es, j - 1);
      LedgerStep(p, After(p, es, j - 1), es, j - 1);
    }
  }

  lemma {:induction false} LedgerStart(p: Phase, es: seq<Event>)
    ensures Ledger(p, FLAT, es, 0)
  {
    forall e ensures !Seen(es, 0, e) { }
  }

  lemma {:induction false} LedgerStep(p: Phase, s: Sweep, es: seq<Event>, j: nat)
    requires ExitOrdered(p.ts) && DipsNonNegative(p.ts) && SortedSweep(p, es)
    requires j < |es| && Ledger(p, s, es, j)
    ensures es[j] in es && Ledger(p, Step(p, s, es[j]), es, j + 1)
  {
    if es[j].opening {
      TracksOpen(p, s, es, j);
      assert Agrees(p, Step(p, s, es[j]));
    } else {
      CloseIsNext(p, s, es, j);
      TracksClose(p, s, es, j);
      AgreesClose(p, s, es[j]);
    }
  }

  // ----- daily baselines of trades that end on the day they are filed under -----

  function FirmDay(p: Phase, ms: int): int { TradingDay(ms, p.rules.resetOffsetMs) }

  /** Every trade opens and closes on the firm day it is filed under. */
  ghost predicate SameDay(p: Phase) {
    forall i :: 0 <= i < |p.ts| ==> FirmDay(p, p.ts[i].entryMs) == p.ts[i].day == FirmDay(p, p.ts[i].exitMs)
  }

  /** The first `b` trades were filed before day `d`, all others on it or later, and the
      baseline is what the first `b` trades booked. */
  ghost predicate OpensDay(p: Phase, sod: real, b: nat, d: int) {
    && b <= |p.ts| && sod == p.Equity(b)
    && (forall i :: 0 <= i < b ==> p.ts[i].day < d)
    && (forall i :: b <= i < |p.ts| ==> p.ts[i].day >= d)
  }

  /** The day under the cursor opened with what the trades filed before it booked. */
  ghost predicate Based(p: Phase, s: Sweep) {
    s.day.Some? ==> exists b: nat :: b <= s.booked && OpensDay(p, s.sod, b, s.day.value)
  }

  lemma {:induction false} DaysAscend(p: Phase, es: seq<Event>, i: nat, j: nat)
    requires Ordered(es, SweepKey, EventIndex) && i < j < |es|
    ensures FirmDay(p, es[i].ms) <= FirmDay(p, es[j].ms)
  {
    assert Before(es[i], es[j], SweepKey, EventIndex);
    assert es[i].ms <= es[j].ms;
  }

  /** The day of the last event handled is the day of the account. */
  ghost predicate OnDay(p: Phase, s: Sweep, es: seq<Event>, j: nat)
    requires j <= |es|
  {
    s.day == if j == 0 then None else Some(FirmDay(p, es[j - 1].ms))
  }

  /** A booked trade closed no later than the last event, an unbooked one closes no earlier
      than the next. */
  lemma {:induction false} DaysAround(p: Phase, s: Sweep, es: seq<Event>, j: nat, i: nat)
    requires SameDay(p) && SortedSweep(p, es) && j < |es| && Tracks(p.ts, s, es, j) && i < |p.ts|
    ensures i < s.booked ==> j > 0 && p.ts[i].day <= FirmDay(p, es[j - 1].ms)
    ensures i >= s.booked ==> p.ts[i].day >= FirmDay(p, es[j].ms)
  {
    hide TradingDay, Tracks, SortedSweep, ExitOrdered;
    OrderedSweep(p, es);
    var q := CloseAt(p, s, es, j, i);
    if q < j - 1 { DaysAscend(p, es, q, j - 1); }
    if q > j { DaysAscend(p, es, j, q); }
  }

  /** Where a trade's CLOSE is: before the cursor exactly if the trade is booked. */
  lemma {:induction false} CloseAt(p: Phase, s: Sweep, es: seq<Event>, j: nat, i: nat) returns (q: nat)
    requires SortedSweep(p, es) && j < |es| && Tracks(p.ts, s, es, j) && i < |p.ts|
    ensures q < |es| && es[q].ms == p.ts[i].exitMs && (q < j <==> i < s.booked)
  {
    hide Ordered;
    var c := EventOf(p.ts, i, false);
    if i < s.booked {
      assert Seen(es, j, c);
      q :| 0 <= q < j && es[q] == c;
    } else {
      assert c in es && !Seen(es, j, c);
      q :| 0 <= q < |es| && es[q] == c;
    }
  }

  /** After the rollover of an event the baseline is what the trades of earlier days booked. */
  lemma {:induction false} RolledIsBased(p: Phase, s: Sweep, es: seq<Event>, j: nat)
    requires SameDay(p) && SortedSweep(p, es) && j < |es| && Ledger(p, s, es, j) && OnDay(p, s, es, j) && Based(p, s)
    ensures var t := Rolled(s, es[j].ms, p.rules.resetOffsetMs);
            t.booked == s.booked && t.day == Some(FirmDay(p, es[j].ms)) && Based(p, t)
  {
    hide SameDay, SortedSweep, Tracks, TradingDay, OpensDay;
    var d := FirmDay(p, es[j].ms);
    if s.day != Some(d) {
      if j > 0 { DaysAscend(p, es, j - 1, j) by { OrderedSweep(p, es); } }
      BookedBefore(p, s, es, j);
      assert OpensDay(p, s.realized, s.booked, d);
    }
  }

  lemma {:induction false} OrderedSweep(p: Phase, es: seq<Event>)
    requires SortedSweep(p, es)
    ensures Ordered(es, SweepKey, EventIndex)
  {
  }

  lemma {:induction false} BookedBefore(p: Phase, s: Sweep, es: seq<Event>, j: nat)
    requires SameDay(p) && SortedSweep(p, es) && j < |es| && Ledger(p, s, es, j) && OnDay(p, s, es, j)
    requires s.day != Some(FirmDay(p, es[j].ms))
    ensures OpensDay(p, s.realized, s.booked, FirmDay(p, es[j].ms))
  {
    hide SameDay, TradingDay;
    var d := FirmDay(p, es[j].ms);
    if j > 0 { DaysAscend(p, es, j - 1, j); }
    forall i | 0 <= i < |p.ts| ensures if i < s.booked then p.ts[i].day < d else p.ts[i].day >= d {
      DaysAround(p, s, es, j, i);
    }
  }

  lemma {:induction false} BasedStep(p: Phase, s: Sweep, es: seq<Event>, j: nat)
    requires SameDay(p) && SortedSweep(p, es) && j < |es| && Ledger(p, s, es, j) && OnDay(p, s, es, j) && Based(p, s)
    ensures es[j].k < |p.ts| && OnDay(p, Step(p, s, es[j]), es, j + 1) && Based(p, Step(p, s, es[j]))
  {
    hide SameDay, SortedSweep, Tracks, TradingDay, OpensDay, Sweep.Low, Agrees;
    RolledIsBased(p, s, es, j);
    SeenAfter(p, es, j);
    var u, t := Rolled(s, es[j].ms, p.rules.resetOffsetMs), Step(p, s, es[j]);
    assert t.day == u.day && t.sod == u.sod && t.booked >= u.booked;
    var b: nat :| b <= u.booked && OpensDay(p, u.sod, b, u.day.value);
    assert OpensDay(p, t.sod, b, t.day.value);
  }

  /** At every event of a same-day stream the daily baseline is what the trades filed on
      earlier days booked. */
  lemma {:induction false} BasedHolds(p: Phase, es: seq<Event>, j: nat)
    requires ExitOrdered(p.ts) && DipsNonNegative(p.ts) && SortedSweep(p, es) && InRange(p, es) && SameDay(p)
    requires j <= |es|
    ensures OnDay(p, After(p, es, j), es, j) && Based(p, After(p, es, j))
  {
    hide Ledger, SortedSweep, ExitOrdered, DipsNonNegative, InRange, Step, SameDay, Based;
    if j == 0 {
      assert Based(p, FLAT) by { NothingBased(p); }
    } else {
      BasedHolds(p, es, j - 1);
      LedgerHolds(p, es, j - 1);
      BasedStep(p, After(p, es, j - 1), es, j - 1);
    }
  }

  lemma {:induction false} NothingBased(p: Phase)
    ensures Based(p, FLAT)
  {
  }

  /** The scan's baseline of a trade is what the trades of earlier days booked. */
  lemma {:induction false} SodOpensDay(p: Phase, b: nat, k: nat, d: int, sod: real)
    requires OpensDay(p, sod, b, d) && b <= k < |p.ts|
    requires forall i :: b <= i <= k ==> p.ts[i].day == d
    ensures p.Sod(k) == sod
  {
    p.Unfold(k);
    if k > b { SodOpensDay(p, b, k - 1, d, sod); } else if k > 0 { assert p.ts[k - 1].day < d; } else { p.Start(); }
  }

  /** On a same-day stream the sweep closes a trade under the scan's own daily baseline. */
  lemma {:induction false} CloseBaseline(p: Phase, s: Sweep, es: seq<Event>, j: nat)
    requires ExitOrdered(p.ts) && SameDay(p) && SortedSweep(p, es)
    requires j < |es| && Ledger(p, s, es, j) && OnDay(p, s, es, j) && Based(p, s) && !es[j].opening
    ensures es[j] in es && es[j].k == s.booked < |p.ts|
    ensures Rolled(s, es[j].ms, p.rules.resetOffsetMs).sod == p.Sod(s.booked)
  {
    hide TradingDay;
    CloseIsNext(p, s, es, j);
    RolledIsBased(p, s, es, j);
    var k, u := s.booked, Rolled(s, es[j].ms, p.rules.resetOffsetMs);
    assert es[j] == EventOf(p.ts, k, false);
    var d := FirmDay(p, es[j].ms);
    assert p.ts[k].day == d;
    var b: nat :| b <= u.booked && OpensDay(p, u.sod, b, d);
    forall i | b <= i <= k ensures p.ts[i].day == d {
      ExitDaysAscend(p, i, k);
    }
    SodOpensDay(p, b, k, d, u.sod);
  }

  lemma {:induction false} ExitDaysAscend(p: Phase, i: nat, k: nat)
    requires ExitOrdered(p.ts) && SameDay(p) && i <= k < |p.ts|
    ensures p.ts[i].day <= p.ts[k].day
  {
    assert p.ts[i].exitMs <= p.ts[k].exitMs;
  }

  // ----- the event sweep dominates the scan -----

  /** The trade under a CLOSE: open, entered no later than it closes, and on a day both
      simulations count. */
  lemma {:induction false} CloseFacts(p: Phase, s: Sweep, es: seq<Event>, j: nat)
    requires ExitOrdered(p.ts) && DipsNonNegative(p.ts) && SortedSweep(p, es)
    requires j < |es| && Ledger(p, s, es, j) && !es[j].opening
    ensures es[j] in es && s.booked < |p.ts| && es[j] == Event(p.ts[s.booked].exitMs, false, s.booked)
    ensures p.ts[s.booked].entryMs <= p.ts[s.booked].exitMs
    ensures s.Low(|p.ts|) <= p.Low(s.booked) && Agrees(p, s)
    ensures p.ts[s.booked].day in s.days && |s.days| >= 1
  {
    CloseIsNext(p, s, es, j);
    StackedDip(p, s);
    assert es[j] == EventOf(p.ts, s.booked, false);
  }

  /** What the scan may still decide where the sweep let a trade through: nothing on a same-day
      stream, else only the daily limit. */
  ghost predicate Excused(p: Phase, verdict: Option<Outcome>, scan: Option<Outcome>) {
    scan == verdict || (scan == Some(FailDailyDd) && !SameDay(p))
  }

  /** A CLOSE that does not stop the sweep, or passes it, leaves the scan no other stop at that
      trade than the daily limit, and none at all when every trade ends on its filed day. */
  lemma {:induction false} CloseVerdict(p: Phase, s: Sweep, es: seq<Event>, j: nat)
    requires ExitOrdered(p.ts) && DipsNonNegative(p.ts) && SortedSweep(p, es) && p.rules.minTradingDays <= 1
    requires j < |es| && Ledger(p, s, es, j) && !es[j].opening
    requires SameDay(p) ==> OnDay(p, s, es, j) && Based(p, s)
    ensures es[j] in es && es[j].k == s.booked < |p.ts|
    ensures EventVerdict(p, s, es[j]) in {None, Some(Pass)} ==>
              Excused(p, EventVerdict(p, s, es[j]), p.Verdict(s.booked))
  {
    hide ExitOrdered, DipsNonNegative, SortedSweep, Ledger, SameDay, OnDay, Based;
    CloseFacts(p, s, es, j);
    if SameDay(p) { CloseBaseline(p, s, es, j); }
    var k := s.booked;
    p.Unfold(k);
    NotOverdue(p.rules, p.ts[k].entryMs, p.ts[k].exitMs, p.ts[0].entryMs);
    assert p.ts[k].day in p.Days(k + 1) && |p.Days(k + 1)| >= 1;
  }

  lemma {:induction false} NotOverdue(rules: Rules, early: int, late: int, startMs: int)
    requires early <= late
    ensures rules.Overdue(early, startMs) ==> rules.Overdue(late, startMs)
  {
  }

  /** Every trade booked before the cursor was passed by the sweep, hence by the scan. */
  lemma {:induction false} BookedVerdict(p: Phase, es: seq<Event>, j: nat, i: nat)
    requires ExitOrdered(p.ts) && DipsNonNegative(p.ts) && p.rules.minTradingDays <= 1
    requires SortedSweep(p, es) && InRange(p, es)
    requires j <= FirstEvent(p, es, 0) && i < After(p, es, j).booked
    ensures i < |p.ts| && Excused(p, None, p.Verdict(i))
  {
    hide SameDay, OnDay, Based;
    LedgerHolds(p, es, j);
    var c := EventOf(p.ts, i, false);
    assert Seen(es, j, c);
    var q :| 0 <= q < j && es[q] == c;
    LedgerHolds(p, es, q);
    EventPasses(p, es, 0, q);
    if SameDay(p) { BasedHolds(p, es, q); }
    CloseVerdict(p, After(p, es, q), es, q);
  }

  /** With at most one required trading day the concurrent simulation never passes where
      the sequential one breaches the maximum drawdown, times out or falls short: its PASS
      is the scan's PASS, at the same trade and with at least the same worst dip. The scan's
      daily limit can differ only if some trade ends on another day than it is filed under,
      however the trades overlap. */
  lemma {:induction false} ConcurrentDominates(p: Phase, start: nat)
    requires ExitOrdered(p.ts) && DipsNonNegative(p.ts) && p.rules.minTradingDays <= 1
    requires Concurrent(p, start).outcome == Pass
    ensures var c, q := Concurrent(p, start), p.Sequential(start);
            || (q.outcome == FailDailyDd && !SameDay(p))
            || (&& q.outcome == Pass
                && q.endReturn == c.endReturn && q.tradesUsed == c.tradesUsed && q.nextIndex == c.nextIndex
                && q.worstDd <= c.worstDd)
  {
    hide ExitOrdered, DipsNonNegative, SweepResult, EventVerdict, After, Step, FirstEvent, Ordered, StableSort, SameDay;
    SweepOrderFacts(p.ts);
    var es := SweepOrder(p.ts);
    var j := FirstEvent(p, es, 0);
    PassIsVerdict(p, es, j, start);
    var k := After(p, es, j).booked;
    PassAgrees(p, es, j, start);
    forall i | 0 <= i < k ensures Excused(p, None, p.Verdict(i)) {
      BookedVerdict(p, es, j, i);
    }
    ScanAtPass(p, k, start);
  }

  lemma {:induction false} ScanAtPass(p: Phase, k: nat, start: nat)
    requires k < |p.ts| && Excused(p, Some(Pass), p.Verdict(k))
    requires forall i :: 0 <= i < k ==> Excused(p, None, p.Verdict(i))
    ensures var q := p.Sequential(start);
            || (q.outcome == FailDailyDd && !SameDay(p))
            || q == PhaseResult(Pass, p.Equity(k + 1), |p.Days(k + 1)|, k + 1, p.Worst(k + 1), start + k + 1)
  {
    hide SameDay;
    FirstBelow(p, 0, k);
    p.TradeDecides(0);
    var i := p.FirstVerdict(0);
    assert i < k ==> p.Verdict(i) == Some(FailDailyDd);
  }

  lemma {:induction false} PassAgrees(p: Phase, es: seq<Event>, j: nat, start: nat)
    requires ExitOrdered(p.ts) && DipsNonNegative(p.ts) && p.rules.minTradingDays <= 1
    requires SortedSweep(p, es) && InRange(p, es)
    requires j < |es| && EventVerdict(p, After(p, es, j), es[j]) == Some(Pass)
    ensures var s := After(p, es, j);
            var s2 := Step(p, s, es[j]);
            var k := s.booked;
            && k < |p.ts| && Excused(p, Some(Pass), p.Verdict(k))
            && s2.worst >= p.Worst(k + 1)
            && SweepResult(p, es, j, start) ==
                 PhaseResult(Pass, p.Equity(k + 1), |s2.days|, k + 1, s2.worst, start + k + 1)
  {
    hide SortedSweep, ExitOrdered, DipsNonNegative, InRange, After, Tracks, SameDay, OnDay, Based;
    var s := After(p, es, j);
    LedgerHolds(p, es, j);
    if SameDay(p) { BasedHolds(p, es, j); }
    CloseVerdict(p, s, es, j);
    LedgerStep(p, s, es, j);
    assert Step(p, s, es[j]).booked == s.booked + 1;
  }

  lemma {:induction false} PassIsVerdict(p: Phase, es: seq<Event>, j: nat, start: nat)
    requires j <= |es| && InRange(p, es) && SweepResult(p, es, j, start).outcome == Pass
    ensures j < |es| && EventVerdict(p, After(p, es, j), es[j]) == Some(Pass)
  {
  }

  lemma {:induction false} FirstBelow(p: Phase, i: nat, k: nat)
    requires i <= k < |p.ts| && p.Verdict(k).Some?
    ensures p.FirstVerdict(i) <= k
    decreases k - i
  {
    if p.Verdict(i).None? { FirstBelow(p, i + 1, k); }
  }

  // ----- a cleared dip covers the loss that is booked next -----

  /** A trade never loses more than the dip modelled for it (see ExitModels). */
  ghost predicate Covered(ts: seq<TradeReturn>) {
    forall i :: 0 <= i < |ts| ==> ts[i].ret >= -ts[i].mae
  }

  /** The scan never books equity to a floor its check on the same trade cleared. */
  lemma {:induction false} ScanBooksAboveFloors(p: Phase, i: nat)
    requires Covered(p.ts) && i < |p.ts| && p.Verdict(i) in {None, Some(Pass)}
    ensures p.Equity(i + 1) > p.rules.MaxFloor(p.Peak(i)) + EPS
    ensures p.Equity(i + 1) > p.Sod(i) - p.rules.dailyDd + EPS
  {
    p.Unfold(i);
  }

  /** Over a whole scan that passes or runs out of trades, the booked equity never touches
      a static floor, and ends above it. */
  lemma {:induction false} ScanStaysAboveStaticFloor(p: Phase, start: nat, i: nat)
    requires Covered(p.ts) && !p.rules.trailing && p.rules.maxDd > 0.0
    requires p.ts != [] && p.Sequential(start).outcome in {Pass, Incomplete}
    requires i <= p.Sequential(start).tradesUsed
    ensures i <= |p.ts| && p.Equity(i) > -p.rules.maxDd
  {
    hide Covered, Phase.Equity, Phase.Sod, Phase.Low, Phase.Worst, Phase.Days;
    var last := p.FirstVerdict(0);
    if last < |p.ts| { p.TradeDecides(0); }
    p.Start();
    if i > 0 {
      if i - 1 < last { p.TradePasses(0, i - 1); }
      ScanBooksAboveFloors(p, i - 1);
    }
  }

  /** Nor does the sweep, whatever else is open when the trade closes. */
  lemma {:induction false} SweepBooksAboveFloors(p: Phase, s: Sweep, es: seq<Event>, j: nat)
    requires Covered(p.ts) && ExitOrdered(p.ts) && DipsNonNegative(p.ts) && SortedSweep(p, es)
    requires j < |es| && Ledger(p, s, es, j) && !es[j].opening
    requires es[j] in es && EventVerdict(p, s, es[j]) in {None, Some(Pass)}
    ensures var t := Step(p, s, es[j]);
            && t.realized > p.rules.MaxFloor(s.peak) + EPS
            && t.realized > t.sod - p.rules.dailyDd + EPS
  {
    CloseIsNext(p, s, es, j);
    StackedDip(p, s);
    var s1 := Enter(s, es[j], p.ts[es[j].k], |p.ts|, p.rules.resetOffsetMs);
    assert s1.Low(|p.ts|) == s.Low(|p.ts|) <= s.realized - p.ts[s.booked].mae;
    assert p.rules.Breach(s1.Low(|p.ts|), s1.peak, s1.sod).None?;
  }
}
