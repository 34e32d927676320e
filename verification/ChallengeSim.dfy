/** The prop-challenge phase simulators of app/cfd_research/challenge_sim.py: the
    one-trade-at-a-time scan and the OPEN/CLOSE event sweep. Amounts are percentages of
    the starting balance, times whole milliseconds. */
module ChallengeRulesModel {
  import opened Prelude

  datatype Outcome = Pass | FailDailyDd | FailMaxDd | Timeout | Incomplete

  const EPS: real := 0.000000001

  datatype Rules = Rules(
    phase1Target: real, phase2Target: real, dailyDd: real, maxDd: real, trailing: bool,
    minTradingDays: int, maxCalendarDays: Option<int>, resetOffsetMs: int)
  {
    /** Static: floor below the initial balance; trailing: below the peak. */
    function MaxFloor(peak: real): real {
      if trailing then peak - maxDd else -maxDd
    }

    function Breach(low: real, peak: real, sod: real): Option<Outcome> {
      if low <= MaxFloor(peak) + EPS then Some(FailMaxDd)
      else if low <= (sod - dailyDd) + EPS then Some(FailDailyDd)
      else None
    }

    predicate Overdue(ms: int, startMs: int) {
      maxCalendarDays.Some? && (ms - startMs) as real / 86_400_000.0 > maxCalendarDays.value as real
    }
  }

  /** Firm-local calendar day of a timestamp. */
  function TradingDay(ms: int, resetOffsetMs: int): int {
    (ms + resetOffsetMs) / 86_400_000
  }

  /** How far an equity lies below the initial balance. */
  function Dip(low: real): real {
    if low < 0.0 then -low else 0.0
  }

  datatype Event = Event(ms: int, opening: bool, k: nat)

  function EventIndex(e: Event): int { e.k }

  // ----- how far a sweep has come -----

  ghost predicate Seen(es: seq<Event>, j: nat, e: Event)
    requires j <= |es|
  {
    exists i :: 0 <= i < j && es[i] == e
  }

  lemma {:induction false} SeenNext(es: seq<Event>, j: nat, e: Event)
    requires j < |es|
    ensures Seen(es, j + 1, e) <==> Seen(es, j, e) || es[j] == e
  {
    if Seen(es, j, e) {
      var i :| 0 <= i < j && es[i] == e;
      assert es[i] == e && i < j + 1;
    }
  }

  /** In a strict order an event is unseen exactly while it is at or after the cursor. */
  lemma {:induction false} SeenIsBefore(es: seq<Event>, j: nat, e: Event, key: Event -> real)
    requires j < |es| && e in es && Ordered(es, key, EventIndex)
    ensures !Seen(es, j, e) ==> e == es[j] || Before(es[j], e, key, EventIndex)
    ensures Seen(es, j, e) ==> Before(e, es[j], key, EventIndex)
  {
    var i :| 0 <= i < |es| && es[i] == e;
    if Seen(es, j, e) {
      var m :| 0 <= m < j && es[m] == e;
      assert Before(es[m], es[j], key, EventIndex);
    } else if i > j {
      assert Before(es[j], es[i], key, EventIndex);
    }
  }
}

module ChallengeSim {
  import opened Prelude
  import opened ChallengeRulesModel

  datatype TradeReturn = TradeReturn(entryMs: int, exitMs: int, ret: real, mae: real, day: int)

  datatype PhaseResult = PhaseResult(
    outcome: Outcome, endReturn: real, tradingDays: int, tradesUsed: int, worstDd: real, nextIndex: int)

  /** A trade's return and adverse excursion at another risk per trade. */
  function Scaled(t: TradeReturn, scale: real): TradeReturn {
    t.(ret := t.ret * scale, mae := t.mae * scale)
  }

  /** The stream from a start index on, with every trade at the given risk scale. */
  function Rescale(stream: seq<TradeReturn>, start: nat, scale: real): (ts: seq<TradeReturn>)
    ensures |ts| == if start < |stream| then |stream| - start else 0
    ensures forall i :: start <= i < |stream| ==> ts[i - start] == Scaled(stream[i], scale)
  {
    var n := if start < |stream| then |stream| - start else 0;
    seq(n, i requires 0 <= i < n => Scaled(stream[start + i], scale))
  }

  /** One phase: its rescaled trades, the rules and the target. */
  datatype Phase = Phase(ts: seq<TradeReturn>, rules: Rules, target: real) {

    // ----- the account after `i` booked trades, in closed form -----

    function Equity(i: nat): real
      requires i <= |ts|
    {
      if i == 0 then 0.0 else Equity(i - 1) + ts[i - 1].ret
    }

    function Peak(i: nat): real
      requires i <= |ts|
    {
      if i == 0 then 0.0 else Max(Peak(i - 1), Equity(i))
    }

    /** Worst equity while trade `i` alone is open. */
    function Low(i: nat): real
      requires i < |ts|
    {
      Equity(i) - ts[i].mae
    }

    function Worst(i: nat): real
      requires i <= |ts|
    {
      if i == 0 then 0.0 else Max(Worst(i - 1), Dip(Low(i - 1)))
    }

    function Days(i: nat): set<int>
      requires i <= |ts|
    {
      if i == 0 then {} else Days(i - 1) + {ts[i - 1].day}
    }

    /** Daily baseline of trade `i`: the equity when its run of same-day trades began. */
    function Sod(i: nat): real
      requires i < |ts|
    {
      if i == 0 then 0.0 else if ts[i].day == ts[i - 1].day then Sod(i - 1) else Equity(i)
    }

    // ----- the sequential scan -----

    /** What trade `i` decides, if anything, when the scan reaches it. */
    function Verdict(i: nat): Option<Outcome>
      requires i < |ts|
    {
      if rules.Overdue(ts[i].entryMs, ts[0].entryMs) then Some(Timeout)
      else if rules.Breach(Low(i), Peak(i), Sod(i)).Some? then rules.Breach(Low(i), Peak(i), Sod(i))
      else if Equity(i + 1) >= target - EPS && |Days(i + 1)| >= rules.minTradingDays then Some(Pass)
      else None
    }

    /** The first deciding trade from `i` on, or the end. */
    function FirstVerdict(i: nat): (r: nat)
      requires i <= |ts|
      ensures i <= r <= |ts|
      decreases |ts| - i
    {
      if i == |ts| || Verdict(i).Some? then i else FirstVerdict(i + 1)
    }

    lemma {:induction false} Start()
      ensures Equity(0) == 0.0 && Peak(0) == 0.0 && Worst(0) == 0.0 && Days(0) == {}
    {
    }

    /** One step of the closed forms. */
    lemma {:induction false} Unfold(i: nat)
      requires i < |ts|
      ensures Sod(i) == if i == 0 then 0.0 else if ts[i].day == ts[i - 1].day then Sod(i - 1) else Equity(i)
      ensures Equity(i + 1) == Equity(i) + ts[i].ret && Low(i) == Equity(i) - ts[i].mae
      ensures Peak(i + 1) == Max(Peak(i), Equity(i + 1)) && Worst(i + 1) == Max(Worst(i), Dip(Low(i)))
      ensures Days(i + 1) == Days(i) + {ts[i].day}
    {
    }

    lemma {:induction false} TradeDecides(i: nat)
      requires i <= |ts| && FirstVerdict(i) < |ts|
      ensures Verdict(FirstVerdict(i)).Some?
      decreases |ts| - i
    {
      if FirstVerdict(i) != i { TradeDecides(i + 1); }
    }

    lemma {:induction false} TradePasses(i: nat, j: nat)
      requires i <= j < |ts| && j < FirstVerdict(i)
      ensures Verdict(j).None?
      decreases |ts| - i
    {
      if j > i { TradePasses(i + 1, j); }
    }

    function Sequential(start: nat): PhaseResult {
      if ts == [] then PhaseResult(Incomplete, 0.0, 0, 0, 0.0, start)
      else SequentialAt(FirstVerdict(0), start)
    }

    function SequentialAt(i: nat, start: nat): PhaseResult
      requires i <= |ts|
    {
      if i == |ts| then PhaseResult(Incomplete, Equity(i), |Days(i)|, i, Worst(i), start + i)
      else if Verdict(i) == Some(Timeout) then PhaseResult(Timeout, Equity(i), |Days(i)|, i, Worst(i), start + i)
      else if Verdict(i) == Some(Pass) then
        PhaseResult(Pass, Equity(i + 1), |Days(i + 1)|, i + 1, Worst(i + 1), start + i + 1)
      else
        PhaseResult(Verdict(i).GetOr(Incomplete), Low(i), |Days(i + 1)|, i + 1, Worst(i + 1), start + i + 1)
    }
  }

  method SimulatePhase(stream: seq<TradeReturn>, start: nat, rules: Rules, target: real, scale: real)
    returns (r: PhaseResult)
    ensures r == Phase(Rescale(stream, start, scale), rules, target).Sequential(start)
  {
    hide Phase.Equity, Phase.Peak, Phase.Worst, Phase.Days, Phase.Low, Phase.Sod, Rescale;
    var equity, peak, worstDd := 0.0, 0.0, 0.0;
    var day: Option<int> := None;
    var sodEquity := 0.0;
    var tradingDays: set<int> := {};
    var n := |stream|;
    if start >= n {
      return PhaseResult(Incomplete, 0.0, 0, 0, 0.0, start);
    }
    var p := Phase(Rescale(stream, start, scale), rules, target);
    p.Start();
    var startMs := p.ts[0].entryMs;
    ghost var r0 := p.Sequential(start);
    assert r0 == p.SequentialAt(p.FirstVerdict(0), start);
    var i := start;
    ghost var j: nat := 0;
    while i < n
      invariant i == start + j <= n
      invariant equity == p.Equity(j) && peak == p.Peak(j) && worstDd == p.Worst(j)
      invariant tradingDays == p.Days(j)
      invariant day == if j == 0 then None else Some(p.ts[j - 1].day)
      invariant j > 0 ==> sodEquity == p.Sod(j - 1)
      invariant p.FirstVerdict(0) == p.FirstVerdict(j)
    {
      var tr := p.ts[i - start];
      p.Unfold(j);
      ghost var verdict := p.Verdict(j);
      assert verdict.Some? ==> r0 == p.SequentialAt(j, start);
      assert verdict.None? ==> p.FirstVerdict(j) == p.FirstVerdict(j + 1);
      if rules.Overdue(tr.entryMs, startMs) {
        assert verdict == Some(Timeout);
        return PhaseResult(Timeout, equity, |tradingDays|, i - start, worstDd, i);
      }
      if day != Some(tr.day) {
        day := Some(tr.day);
        sodEquity := equity;
      }
      assert sodEquity == p.Sod(j);
      tradingDays := tradingDays + {tr.day};
      var low := equity - tr.mae;
      worstDd := Max(worstDd, Dip(low));
      var breach := rules.Breach(low, peak, sodEquity);
      assert breach == p.rules.Breach(p.Low(j), p.Peak(j), p.Sod(j));
      if breach.Some? {
        assert verdict == breach;
        return PhaseResult(breach.value, low, |tradingDays|, i - start + 1, worstDd, i + 1);
      }
      equity := equity + tr.ret;
      peak := Max(peak, equity);
      if equity >= target - EPS && |tradingDays| >= rules.minTradingDays {
        assert verdict == Some(Pass);
        return PhaseResult(Pass, equity, |tradingDays|, i - start + 1, worstDd, i + 1);
      }
      assert verdict == None;
      i := i + 1;
      j := j + 1;
    }
    return PhaseResult(Incomplete, equity, |tradingDays|, n - start, worstDd, n);
  }

  // ----- the event sweep -----

  function EventOf(ts: seq<TradeReturn>, k: nat, opening: bool): Event
    requires k < |ts|
  {
    Event(if opening then ts[k].entryMs else ts[k].exitMs, opening, k)
  }

  function Events(ts: seq<TradeReturn>): (es: seq<Event>)
    ensures |es| == 2 * |ts|
  {
    seq(2 * |ts|, i requires 0 <= i < 2 * |ts| => EventOf(ts, i / 2, i % 2 == 0))
  }

  /** Order by time, OPEN before CLOSE at the same instant. */
  function SweepKey(e: Event): real {
    (2 * e.ms + if e.opening then 0 else 1) as real
  }

  function SweepOrder(ts: seq<TradeReturn>): seq<Event> {
    StableSort(Events(ts), SweepKey)
  }

  datatype Sweep = Sweep(
    realized: real, peak: real, worst: real, day: Option<int>, sod: real, days: set<int>,
    open: map<nat, real>, booked: nat, lastBooked: int)
  {
    /** All open trades at their worst at once. */
    function Low(n: nat): real {
      realized - Total(open, n)
    }
  }

  /** Sum of the values of a map whose keys lie below `n`. */
  function Total(m: map<nat, real>, n: nat): real {
    if n == 0 then 0.0 else Total(m, n - 1) + if n - 1 in m then m[n - 1] else 0.0
  }

  const FLAT := Sweep(0.0, 0.0, 0.0, None, 0.0, {}, map[], 0, -1)

  /** A new firm-local day, by event time, resets the daily baseline. */
  function Rolled(s: Sweep, ms: int, resetOffsetMs: int): Sweep {
    var d := TradingDay(ms, resetOffsetMs);
    if s.day == Some(d) then s else s.(day := Some(d), sod := s.realized)
  }

  function Opened(s: Sweep, t: TradeReturn, k: nat): Sweep {
    s.(days := s.days + {t.day}, open := s.open[k := t.mae])
  }

  function Dipped(s: Sweep, n: nat): Sweep {
    s.(worst := Max(s.worst, Dip(s.Low(n))))
  }

  /** Day rollover, the opening of a trade and the new worst dip. */
  function Enter(s: Sweep, e: Event, t: TradeReturn, n: nat, resetOffsetMs: int): Sweep {
    var s1 := Rolled(s, e.ms, resetOffsetMs);
    Dipped(if e.opening then Opened(s1, t, e.k) else s1, n)
  }

  function Book(s: Sweep, t: TradeReturn, k: nat): Sweep {
    var realized := s.realized + t.ret;
    s.(realized := realized, peak := Max(s.peak, realized), open := s.open - {k}, booked := s.booked + 1,
       lastBooked := if k > s.lastBooked then k else s.lastBooked)
  }

  function Step(p: Phase, s: Sweep, e: Event): Sweep
    requires e.k < |p.ts|
  {
    var s1 := Enter(s, e, p.ts[e.k], |p.ts|, p.rules.resetOffsetMs);
    if e.opening then s1 else Book(s1, p.ts[e.k], e.k)
  }

  ghost predicate InRange(p: Phase, es: seq<Event>) {
    forall e :: e in es ==> e.k < |p.ts|
  }

  /** The account after the first `j` events, whatever they decided. */
  function After(p: Phase, es: seq<Event>, j: nat): Sweep
    requires j <= |es| && InRange(p, es)
  {
    if j == 0 then FLAT else Step(p, After(p, es, j - 1), es[j - 1])
  }

  function EventVerdict(p: Phase, s: Sweep, e: Event): Option<Outcome>
    requires e.k < |p.ts|
  {
    var s1 := Enter(s, e, p.ts[e.k], |p.ts|, p.rules.resetOffsetMs);
    var breach := p.rules.Breach(s1.Low(|p.ts|), s1.peak, s1.sod);
    if p.rules.Overdue(e.ms, p.ts[0].entryMs) then Some(Timeout)
    else if breach.Some? then breach
    else if !e.opening && Book(s1, p.ts[e.k], e.k).realized >= p.target - EPS
            && |s1.days| >= p.rules.minTradingDays then Some(Pass)
    else None
  }

  function FirstEvent(p: Phase, es: seq<Event>, j: nat): (r: nat)
    requires j <= |es| && InRange(p, es)
    ensures j <= r <= |es|
    decreases |es| - j
  {
    if j == |es| || EventVerdict(p, After(p, es, j), es[j]).Some? then j else FirstEvent(p, es, j + 1)
  }

  lemma {:induction false} EventDecides(p: Phase, es: seq<Event>, j: nat)
    requires j <= |es| && InRange(p, es) && FirstEvent(p, es, j) < |es|
    ensures var r := FirstEvent(p, es, j); EventVerdict(p, After(p, es, r), es[r]).Some?
    decreases |es| - j
  {
    hide EventVerdict, After, InRange;
    if FirstEvent(p, es, j) != j { EventDecides(p, es, j + 1); }
  }

  lemma {:induction false} EventPasses(p: Phase, es: seq<Event>, j: nat, i: nat)
    requires j <= i < |es| && InRange(p, es) && i < FirstEvent(p, es, j)
    ensures EventVerdict(p, After(p, es, i), es[i]).None?
    decreases |es| - j
  {
    hide EventVerdict, After, InRange;
    if i > j { EventPasses(p, es, j + 1, i); }
  }

  function SweepResult(p: Phase, es: seq<Event>, j: nat, start: nat): PhaseResult
    requires j <= |es| && InRange(p, es)
  {
    var s := After(p, es, j);
    if j == |es| then PhaseResult(Incomplete, s.realized, |s.days|, s.booked, s.worst, start + |p.ts|)
    else
      var v := EventVerdict(p, s, es[j]);
      var s1 := Enter(s, es[j], p.ts[es[j].k], |p.ts|, p.rules.resetOffsetMs);
      if v == Some(Timeout) then PhaseResult(Timeout, s.realized, |s.days|, s.booked, s.worst, start + s.lastBooked + 1)
      else if v == Some(Pass) then
        var s2 := Book(s1, p.ts[es[j].k], es[j].k);
        PhaseResult(Pass, s2.realized, |s2.days|, s2.booked, s2.worst, start + s2.lastBooked + 1)
      else
        PhaseResult(v.GetOr(Incomplete), s1.Low(|p.ts|), |s1.days|, s1.booked + 1, s1.worst, start + s1.lastBooked + 1)
  }

  function Concurrent(p: Phase, start: nat): PhaseResult {
    if p.ts == [] then PhaseResult(Incomplete, 0.0, 0, 0, 0.0, start)
    else
      SweepOrderFacts(p.ts);
      var es := SweepOrder(p.ts);
      SweepResult(p, es, FirstEvent(p, es, 0), start)
  }

  /** However the events are ordered, as long as the key tells OPEN from CLOSE, the sorted
      stream is exactly one OPEN and one CLOSE per trade, in strict order of (key, trade). */
  lemma {:induction false} SortedFacts(ts: seq<TradeReturn>, key: Event -> real)
    requires forall a, b :: key(a) == key(b) ==> a.opening == b.opening
    ensures Ordered(StableSort(Events(ts), key), key, EventIndex)
    ensures forall e :: e in StableSort(Events(ts), key) <==> e.k < |ts| && e == EventOf(ts, e.k, e.opening)
  {
    hide Ordered, RankedTies, StableSort, Events, EventOf;
    EventsRanked(ts, key);
    StableSortOrders(Events(ts), key, EventIndex);
    forall e ensures e in StableSort(Events(ts), key) <==> e.k < |ts| && e == EventOf(ts, e.k, e.opening) {
      assert e in StableSort(Events(ts), key) <==> e in multiset(Events(ts));
      EventsMembers(ts, e);
    }
  }

  lemma {:induction false} EventsRanked(ts: seq<TradeReturn>, key: Event -> real)
    requires forall a, b :: key(a) == key(b) ==> a.opening == b.opening
    ensures RankedTies(Events(ts), key, EventIndex)
  {
    var es := Events(ts);
    forall i, j | 0 <= i < j < |es| && key(es[i]) == key(es[j]) ensures es[i].k < es[j].k {
      assert es[i] == EventOf(ts, i / 2, i % 2 == 0) && es[j] == EventOf(ts, j / 2, j % 2 == 0);
      assert es[i].opening == es[j].opening;
    }
  }

  lemma {:induction false} EventsMembers(ts: seq<TradeReturn>, e: Event)
    ensures e in Events(ts) <==> e.k < |ts| && e == EventOf(ts, e.k, e.opening)
  {
    if e.k < |ts| && e == EventOf(ts, e.k, e.opening) {
      var i := 2 * e.k + if e.opening then 0 else 1;
      assert Events(ts)[i] == EventOf(ts, i / 2, i % 2 == 0);
    }
  }

  lemma {:induction false} SweepOrderFacts(ts: seq<TradeReturn>)
    ensures Ordered(SweepOrder(ts), SweepKey, EventIndex)
    ensures forall e :: e in SweepOrder(ts) <==> e.k < |ts| && e == EventOf(ts, e.k, e.opening)
  {
    SortedFacts(ts, SweepKey);
  }

  method SortedEvents(trades: seq<TradeReturn>, key: Event -> real) returns (events: seq<Event>)
    ensures events == StableSort(Events(trades), key)
  {
    events := [];
    for k := 0 to |trades|
      invariant |events| == 2 * k
      invariant forall i :: 0 <= i < 2 * k ==> events[i] == EventOf(trades, i / 2, i % 2 == 0)
    {
      events := events + [Event(trades[k].entryMs, true, k)] + [Event(trades[k].exitMs, false, k)];
    }
    assert events == Events(trades);
    events := StableSort(events, key);
  }

  /** The first half of an event: baseline, open set, stacked worst case. */
  method EnterEvent(s0: Sweep, e: Event, t: TradeReturn, n: nat, resetOffsetMs: int) returns (s: Sweep, low: real)
    ensures s == Enter(s0, e, t, n, resetOffsetMs) && low == s.Low(n)
  {
    s := s0;
    var evDay := TradingDay(e.ms, resetOffsetMs);
    if s.day != Some(evDay) {
      s := s.(day := Some(evDay), sod := s.realized);
    }
    if e.opening {
      s := s.(days := s.days + {t.day}, open := s.open[e.k := t.mae]);
    }
    low := s.realized - Total(s.open, n);
    s := s.(worst := Max(s.worst, Dip(low)));
  }

  /** Booking the realised result of a closed trade. */
  method BookClose(s0: Sweep, t: TradeReturn, k: nat) returns (s: Sweep)
    ensures s == Book(s0, t, k)
  {
    var realized := s0.realized + t.ret;
    s := s0.(realized := realized, peak := Max(s0.peak, realized));
    s := s.(open := s.open - {k}, booked := s.booked + 1);
    if k > s.lastBooked {
      s := s.(lastBooked := k);
    }
  }

  method SimulatePhaseConcurrent(stream: seq<TradeReturn>, start: nat, rules: Rules, target: real, scale: real)
    returns (r: PhaseResult)
    ensures r == Concurrent(Phase(Rescale(stream, start, scale), rules, target), start)
  {
    hide Ordered, StableSort, Events, EventOf, Rescale, Enter, Step, After, InRange, FirstEvent, SweepResult,
      Concurrent;
    var n := |stream|;
    if start >= n {
      NothingToSweep(stream, start, rules, target, scale);
      return PhaseResult(Incomplete, 0.0, 0, 0, 0.0, start);
    }
    var p := Phase(Rescale(stream, start, scale), rules, target);
    var trades := p.ts;
    RescaledLength(stream, start, scale);
    var startMs := trades[0].entryMs;
    var events := SortedEvents(trades, SweepKey);
    SweepStarts(p, start);
    var s := FLAT;
    for j := 0 to |events|
      invariant s == After(p, events, j)
      invariant FirstEvent(p, events, 0) == FirstEvent(p, events, j)
    {
      SweepAt(p, events, j, start);
      var e := events[j];
      var tr := trades[e.k];
      if rules.Overdue(e.ms, startMs) {
        return PhaseResult(Timeout, s.realized, |s.days|, s.booked, s.worst, start + s.lastBooked + 1);
      }
      var low;
      s, low := EnterEvent(s, e, tr, |trades|, rules.resetOffsetMs);
      var breach := rules.Breach(low, s.peak, s.sod);
      if breach.Some? {
        return PhaseResult(breach.value, low, |s.days|, s.booked + 1, s.worst, start + s.lastBooked + 1);
      }
      if !e.opening {
        s := BookClose(s, tr, e.k);
        if s.realized >= target - EPS && |s.days| >= rules.minTradingDays {
          return PhaseResult(Pass, s.realized, |s.days|, s.booked, s.worst, start + s.lastBooked + 1);
        }
      }
    }
    SweepEnd(p, events, start);
    return PhaseResult(Incomplete, s.realized, |s.days|, s.booked, s.worst, n);
  }

  lemma {:induction false} RescaledLength(stream: seq<TradeReturn>, start: nat, scale: real)
    requires start < |stream|
    ensures |Rescale(stream, start, scale)| == |stream| - start
  {
  }

  lemma {:induction false} NothingToSweep(stream: seq<TradeReturn>, start: nat, rules: Rules, target: real, scale: real)
    requires start >= |stream|
    ensures Concurrent(Phase(Rescale(stream, start, scale), rules, target), start) ==
              PhaseResult(Incomplete, 0.0, 0, 0, 0.0, start)
  {
  }

  lemma {:induction false} SweepStarts(p: Phase, start: nat)
    requires p.ts != []
    ensures var es := SweepOrder(p.ts);
            && InRange(p, es) && After(p, es, 0) == FLAT
            && Concurrent(p, start) == SweepResult(p, es, FirstEvent(p, es, 0), start)
            && es == StableSort(Events(p.ts), SweepKey)
  {
    SweepOrderFacts(p.ts);
  }

  /** How the sweep continues at one event. */
  lemma {:induction false} SweepAt(p: Phase, es: seq<Event>, j: nat, start: nat)
    requires j < |es| && InRange(p, es)
    ensures es[j].k < |p.ts| && After(p, es, j + 1) == Step(p, After(p, es, j), es[j])
    ensures var s := After(p, es, j);
            var s1 := Enter(s, es[j], p.ts[es[j].k], |p.ts|, p.rules.resetOffsetMs);
            var s2 := if es[j].opening then s1 else Book(s1, p.ts[es[j].k], es[j].k);
            var breach := p.rules.Breach(s1.Low(|p.ts|), s1.peak, s1.sod);
            var overdue := p.rules.Overdue(es[j].ms, p.ts[0].entryMs);
            var passes := !es[j].opening && s2.realized >= p.target - EPS && |s2.days| >= p.rules.minTradingDays;
            && Step(p, s, es[j]) == s2
            && (overdue || breach.Some? || passes <==> FirstEvent(p, es, j) == j)
            && (!(overdue || breach.Some? || passes) ==> FirstEvent(p, es, j) == FirstEvent(p, es, j + 1))
            && var r := SweepResult(p, es, j, start);
            && (overdue ==>
                  r == PhaseResult(Timeout, s.realized, |s.days|, s.booked, s.worst, start + s.lastBooked + 1))
            && (!overdue && breach.Some? ==>
                  r == PhaseResult(breach.value, s1.Low(|p.ts|), |s1.days|, s1.booked + 1, s1.worst,
                      start + s1.lastBooked + 1))
            && (!overdue && breach.None? && passes ==>
                  r == PhaseResult(Pass, s2.realized, |s2.days|, s2.booked, s2.worst, start + s2.lastBooked + 1))
  {
    hide Enter, Sweep.Low, Rules.Overdue;
  }

  lemma {:induction false} SweepEnd(p: Phase, es: seq<Event>, start: nat)
    requires InRange(p, es)
    ensures FirstEvent(p, es, |es|) == |es|
    ensures var s := After(p, es, |es|);
            SweepResult(p, es, |es|, start) ==
              PhaseResult(Incomplete, s.realized, |s.days|, s.booked, s.worst, start + |p.ts|)
  {
  }
}
