/** The trade buffer of app/execution/trade_recorder.py: appends and the two locked halves of a
    flush, with the database write in between outside the lock. */
module TradeBuffer {

  datatype Trade = Trade(variant: string, instrument: string, entryMs: int, payload: int)

  datatype DedupKey = DedupKey(variant: string, instrument: string, minute: int)

  /** One-minute buckets, truncated toward zero. */
  function Minute(ms: int): int { if ms >= 0 then ms / 60_000 else -(-ms / 60_000) }

  function KeyOf(t: Trade): DedupKey { DedupKey(t.variant, t.instrument, Minute(t.entryMs)) }

  /** A flush between its two locked sections: what it copied, and whether that was written. */
  datatype Flight = Flight(snapshot: seq<Trade>, written: bool)

  /** `accepted` and `written` are the histories of what was buffered and what the database
      holds; `today` is what was accepted since the last daily reset. */
  datatype Recorder = Recorder(
    buffer: seq<Trade>, seen: set<DedupKey>, flights: map<nat, Flight>,
    accepted: seq<Trade>, written: seq<Trade>, today: seq<Trade>)

  const IDLE := Recorder([], {}, map[], [], [], [])

  function Record(r: Recorder, t: Trade): Recorder {
    if KeyOf(t) in r.seen then r
    else r.(seen := r.seen + {KeyOf(t)}, buffer := r.buffer + [t], accepted := r.accepted + [t], today := r.today + [t])
  }

  /** First locked half: copy the buffer; nothing to do if it is empty. */
  function Snapshot(r: Recorder, thread: nat): Recorder {
    if r.buffer == [] then r else r.(flights := r.flights[thread := Flight(r.buffer, false)])
  }

  /** The write, all or nothing; a failed one ends the flush and keeps the buffer. */
  function Write(r: Recorder, thread: nat, ok: bool): Recorder
    requires thread in r.flights
  {
    if ok then
      r.(written := r.written + r.flights[thread].snapshot,
         flights := r.flights[thread := r.flights[thread].(written := true)])
    else r.(flights := r.flights - {thread})
  }

  function From<T>(s: seq<T>, n: nat): seq<T> { if n <= |s| then s[n..] else [] }

  /** Second locked half: drop as many trades as were written. */
  function Trim(r: Recorder, thread: nat): Recorder
    requires thread in r.flights
  {
    r.(buffer := From(r.buffer, |r.flights[thread].snapshot|), flights := r.flights - {thread})
  }

  datatype Event =
    | Recorded(trade: Trade)
    | FlushBegins(thread: nat)
    | WriteEnds(thread: nat, ok: bool)
    | FlushTrims(thread: nat)
    | DailyReset

  /** A thread only continues the flush it is in. */
  predicate Enabled(r: Recorder, e: Event) {
    match e
    case FlushBegins(thread) => thread !in r.flights
    case WriteEnds(thread, _) => thread in r.flights && !r.flights[thread].written
    case FlushTrims(thread) => thread in r.flights && r.flights[thread].written
    case _ => true
  }

  function Step(r: Recorder, e: Event): Recorder
    requires Enabled(r, e)
  {
    match e
    case Recorded(t) => Record(r, t)
    case FlushBegins(thread) => Snapshot(r, thread)
    case WriteEnds(thread, ok) => Write(r, thread, ok)
    case FlushTrims(thread) => Trim(r, thread)
    case DailyReset => r.(seen := {}, today := [])
  }

  /** One enabled step, starting a flush only while fewer than `m` are in flight. */
  ghost predicate Follows(q: Recorder, e: Event, r: Recorder, m: nat) {
    Enabled(q, e) && r == Step(q, e) && (e.FlushBegins? ==> |q.flights| < m)
  }

  /** The states of a run with at most `m` flushes at once. */
  ghost predicate Trace(es: seq<Event>, rs: seq<Recorder>, m: nat) {
    && |rs| == |es| + 1 && rs[0] == IDLE
    && forall i :: 0 <= i < |es| ==> Follows(rs[i], es[i], rs[i + 1], m)
  }

  /** At rest with an accepted trade that is neither written nor buffered. */
  ghost predicate LosesATrade(r: Recorder) {
    r.flights == map[] && exists t :: t in r.accepted && t !in r.written && t !in r.buffer
  }

  /** At rest with a trade written more often than it was accepted. */
  ghost predicate DoublesATrade(r: Recorder) {
    r.flights == map[] && exists t :: t in r.written && multiset(r.written)[t] > multiset(r.accepted)[t]
  }

  /** The recorder itself. The store's answer to a batch is a parameter of the trim. */
  class TradeRecorder {
    const maxBuffer: nat
    var buffer: seq<Trade>
    var seen: set<DedupKey>
    var totalRecorded: int
    var totalDeduplicated: int
    var flushCount: int

    constructor (maxBuffer: nat)
      ensures buffer == [] && seen == {} && totalRecorded == 0 && totalDeduplicated == 0 && flushCount == 0
      ensures this.maxBuffer == maxBuffer
    {
      this.maxBuffer := maxBuffer;
      buffer, seen := [], {};
      totalRecorded, totalDeduplicated, flushCount := 0, 0, 0;
    }

    /** Whether the trade was new, and whether the buffer is due for a flush. */
    method RecordTrade(t: Trade) returns (fresh_: bool, full: bool)
      modifies this`buffer, this`seen, this`totalDeduplicated
      ensures fresh_ <==> KeyOf(t) !in old(seen)
      ensures buffer == (if fresh_ then old(buffer) + [t] else old(buffer)) && seen == old(seen) + {KeyOf(t)}
      ensures totalDeduplicated == old(totalDeduplicated) + if fresh_ then 0 else 1
      ensures full <==> fresh_ && |buffer| >= maxBuffer
    {
      var key := KeyOf(t);
      if key in seen {
        totalDeduplicated := totalDeduplicated + 1;
        assert seen == old(seen) + {key};
        return false, false;
      }
      seen := seen + {key};
      buffer := buffer + [t];
      return true, |buffer| >= maxBuffer;
    }

    method TakeSnapshot() returns (batch: seq<Trade>)
      ensures batch == buffer
    {
      batch := buffer;
    }

    /** After a write of `batch` that reported `count` rows. */
    method Finish(batch: seq<Trade>, count: int)
      modifies this`buffer, this`totalRecorded, this`flushCount
      ensures buffer == if count > 0 then From(old(buffer), |batch|) else old(buffer)
      ensures totalRecorded == old(totalRecorded) + if count > 0 then count else 0
      ensures flushCount == old(flushCount) + if count > 0 then 1 else 0
    {
      if count > 0 {
        buffer := if |batch| <= |buffer| then buffer[|batch|..] else [];
        totalRecorded := totalRecorded + count;
        flushCount := flushCount + 1;
      }
    }

    method ResetDaily()
      modifies this`seen
      ensures seen == {}
    {
      seen := {};
    }
  }

  // ----- one flush at a time -----

  ghost predicate AtMostOne(r: Recorder) {
    forall a, b :: a in r.flights && b in r.flights ==> a == b
  }

  /** The buffer starts with every snapshot in flight; what is accepted is what is written
      followed by the buffer, not counting a written snapshot that is still to be trimmed. */
  ghost predicate NothingLost(r: Recorder) {
    && (forall a :: a in r.flights ==> r.flights[a].snapshot <= r.buffer)
    && (r.flights == map[] ==> r.accepted == r.written + r.buffer)
    && (forall a :: a in r.flights ==>
          r.accepted == r.written + if r.flights[a].written then From(r.buffer, |r.flights[a].snapshot|) else r.buffer)
  }

  /** Today's dedup keys are exactly those of today's accepted trades, each once. */
  ghost predicate DedupedToday(r: Recorder) {
    && (forall i, j :: 0 <= i < j < |r.today| ==> KeyOf(r.today[i]) != KeyOf(r.today[j]))
    && (forall i :: 0 <= i < |r.today| ==> KeyOf(r.today[i]) in r.seen)
    && (forall k :: k in r.seen ==> exists i :: 0 <= i < |r.today| && KeyOf(r.today[i]) == k)
  }

  lemma {:induction false} RecordKeepsDedup(r: Recorder, t: Trade)
    requires DedupedToday(r)
    ensures DedupedToday(Record(r, t))
  {
    hide KeyOf;
    if KeyOf(t) !in r.seen {
      var today := r.today + [t];
      forall k | k in r.seen + {KeyOf(t)} ensures exists i :: 0 <= i < |today| && KeyOf(today[i]) == k {
        if k in r.seen {
          var i :| 0 <= i < |r.today| && KeyOf(r.today[i]) == k;
          assert KeyOf(today[i]) == k;
        } else {
          assert KeyOf(today[|r.today|]) == k;
        }
      }
    }
  }

  lemma {:induction false} RecordLosesNothing(r: Recorder, t: Trade)
    requires NothingLost(r)
    ensures NothingLost(Record(r, t))
  {
    hide KeyOf;
    if KeyOf(t) !in r.seen {
      assert r.written + (r.buffer + [t]) == r.written + r.buffer + [t];
      forall a | a in r.flights && r.flights[a].written
        ensures r.accepted + [t] == r.written + From(r.buffer + [t], |r.flights[a].snapshot|)
      {
        var n := |r.flights[a].snapshot|;
        assert From(r.buffer + [t], n) == From(r.buffer, n) + [t];
      }
    }
  }

  lemma {:induction false} WriteLosesNothing(r: Recorder, thread: nat, ok: bool)
    requires NothingLost(r) && AtMostOne(r) && Enabled(r, WriteEnds(thread, ok))
    ensures NothingLost(Write(r, thread, ok)) && AtMostOne(Write(r, thread, ok))
  {
    var n := |r.flights[thread].snapshot|;
    assert r.buffer == r.buffer[..n] + From(r.buffer, n) && r.buffer[..n] == r.flights[thread].snapshot;
    if !ok { assert r.flights - {thread} == map[]; }
  }

  lemma {:induction false} TrimLosesNothing(r: Recorder, thread: nat)
    requires NothingLost(r) && AtMostOne(r) && Enabled(r, FlushTrims(thread))
    ensures NothingLost(Trim(r, thread)) && AtMostOne(Trim(r, thread))
  {
    assert r.flights - {thread} == map[];
  }

  lemma {:induction false} FlushLosesNothing(r: Recorder, e: Event)
    requires NothingLost(r) && AtMostOne(r) && Enabled(r, e) && !e.Recorded?
    requires e.FlushBegins? ==> r.flights == map[]
    ensures NothingLost(Step(r, e)) && AtMostOne(Step(r, e))
  {
    hide Write, Trim;
    match e
    case WriteEnds(thread, ok) => WriteLosesNothing(r, thread, ok);
    case FlushTrims(thread) => TrimLosesNothing(r, thread);
    case _ =>
  }

  /** With one flush in flight and all-or-nothing writes, every interleaving of appends with
      the steps of the flush keeps every accepted trade: at rest, accepted is written followed
      by buffered, failures included; and no dedup key is accepted twice in a day. */
  lemma {:induction false} EveryRunKeepsTrades(es: seq<Event>, rs: seq<Recorder>, m: nat, n: nat)
    requires Trace(es, rs, m) && m <= 1 && n <= |es|
    ensures NothingLost(rs[n]) && AtMostOne(rs[n]) && DedupedToday(rs[n])
    ensures rs[n].flights == map[] ==> rs[n].accepted == rs[n].written + rs[n].buffer
  {
    hide NothingLost, AtMostOne, DedupedToday, Step;
    if n == 0 {
      IdleKeeps();
    } else {
      EveryRunKeepsTrades(es, rs, m, n - 1);
      assert Follows(rs[n - 1], es[n - 1], rs[n - 1 + 1], m);
      StepKeeps(rs[n - 1], es[n - 1]);
    }
    AtRest(rs[n]);
  }

  lemma {:induction false} StepKeeps(r: Recorder, e: Event)
    requires NothingLost(r) && AtMostOne(r) && DedupedToday(r) && Enabled(r, e)
    requires e.FlushBegins? ==> r.flights == map[]
    ensures var q := Step(r, e); NothingLost(q) && AtMostOne(q) && DedupedToday(q)
  {
    hide NothingLost, KeyOf;
    if e.Recorded? {
      RecordLosesNothing(r, e.trade);
      RecordKeepsDedup(r, e.trade);
    } else {
      FlushLosesNothing(r, e);
    }
  }

  lemma {:induction false} IdleKeeps()
    ensures NothingLost(IDLE) && AtMostOne(IDLE) && DedupedToday(IDLE)
  {
  }

  lemma {:induction false} AtRest(r: Recorder)
    requires NothingLost(r)
    ensures r.flights == map[] ==> r.accepted == r.written + r.buffer
  {
  }

  // ----- two flushes at once -----

  const EARLY := Trade("early", "XAU", 0, 1)
  const LATE := Trade("late", "XAU", 0, 2)

  const OVERLAP: seq<Event> := [
    Recorded(EARLY), FlushBegins(1), FlushBegins(2), Recorded(LATE),
    WriteEnds(1, true), FlushTrims(1), WriteEnds(2, true), FlushTrims(2)]

  /** The states of that run: both flushes copy the early trade, the late one arrives, and the
      second trim drops it. */
  function OverlapStates(): (rs: seq<Recorder>)
    ensures |rs| == |OVERLAP| + 1
  {
    var k1, k2 := {KeyOf(EARLY)}, {KeyOf(EARLY), KeyOf(LATE)};
    var f, w := Flight([EARLY], false), Flight([EARLY], true);
    var e, b := [EARLY], [EARLY, LATE];
    [ IDLE,
      Recorder(e, k1, map[], e, [], e),
      Recorder(e, k1, map[1 := f], e, [], e),
      Recorder(e, k1, map[1 := f, 2 := f], e, [], e),
      Recorder(b, k2, map[1 := f, 2 := f], b, [], b),
      Recorder(b, k2, map[1 := w, 2 := f], b, e, b),
      Recorder([LATE], k2, map[2 := f], b, e, b),
      Recorder([LATE], k2, map[2 := w], b, e + e, b),
      Recorder([], k2, map[], b, e + e, b) ]
  }

  lemma {:induction false} OverlapBegins(i: nat)
    requires i < 4
    ensures Follows(OverlapStates()[i], OVERLAP[i], OverlapStates()[i + 1], 2)
  {
    var q := OverlapStates()[i];
    match i
    case 0 => assert q.seen + {KeyOf(EARLY)} == {KeyOf(EARLY)};
    case 3 => assert q.seen + {KeyOf(LATE)} == {KeyOf(EARLY), KeyOf(LATE)};
    case _ =>
  }

  lemma {:induction false} OverlapEnds(i: nat)
    requires 4 <= i < 8
    ensures Follows(OverlapStates()[i], OVERLAP[i], OverlapStates()[i + 1], 2)
  {
    hide KeyOf;
    var q := OverlapStates()[i];
    match i
    case 5 => assert q.flights - {1} == map[2 := Flight([EARLY], false)];
    case 7 => assert q.flights - {2} == map[];
    case _ =>
  }

  /** From an empty recorder, two flushes at once write the early trade twice and the late one
      never. */
  lemma {:induction false} OverlapLosesLateTrades()
    ensures var rs := OverlapStates();
            && Trace(OVERLAP, rs, 2)
            && rs[|OVERLAP|].accepted == [EARLY, LATE] && rs[|OVERLAP|].written == [EARLY, EARLY]
            && rs[|OVERLAP|].buffer == [] && rs[|OVERLAP|].flights == map[]
  {
    hide Follows;
    var rs := OverlapStates();
    forall i | 0 <= i < |OVERLAP| ensures Follows(rs[i], OVERLAP[i], rs[i + 1], 2) {
      if i < 4 { OverlapBegins(i); } else { OverlapEnds(i); }
    }
  }

  lemma {:induction false} MoreAtOnce(es: seq<Event>, rs: seq<Recorder>, m: nat, n: nat)
    requires Trace(es, rs, m) && m <= n
    ensures Trace(es, rs, n)
  {
    hide Step;
    forall i | 0 <= i < |es| ensures Follows(rs[i], es[i], rs[i + 1], n) {
      assert Follows(rs[i], es[i], rs[i + 1], m);
    }
  }

  /** Some run with at most `m` flushes at once comes to rest having lost a trade, and some
      having written one twice, exactly when two may overlap. */
  lemma {:induction false} FlushBound(m: nat)
    ensures (exists es, rs :: Trace(es, rs, m) && LosesATrade(rs[|es|])) <==> m >= 2
    ensures (exists es, rs :: Trace(es, rs, m) && DoublesATrade(rs[|es|])) <==> m >= 2
  {
    hide OverlapStates;
    var rs := OverlapStates();
    OverlapLosesLateTrades();
    var end := rs[|OVERLAP|];
    assert LosesATrade(end) by { assert LATE in end.accepted; }
    assert DoublesATrade(end) by { assert EARLY in end.written; }
    if m >= 2 {
      MoreAtOnce(OVERLAP, rs, 2, m);
    } else {
      forall es, rs | Trace(es, rs, m) ensures !LosesATrade(rs[|es|]) && !DoublesATrade(rs[|es|]) {
        EveryRunKeepsTrades(es, rs, m, |es|);
      }
    }
  }
}
