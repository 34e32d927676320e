/** The live tick-to-candle builder (app/core/candle_builder.py) for one instrument and
    timeframe, and the boundary-index batch aggregation of app/backtest/dukascopy_bi5.py. */
module CandleBuilding {
  import opened Prelude
  import opened Candles
  import TA = TimeframeAggregation

  datatype Tick = Tick(origin: Origin, ltp: real, ts: int)

  /** The forming candle and the time of its latest tick. */
  datatype Forming = Forming(candle: Candle, lastTick: int)

  datatype Builder = Builder(forming: Option<Forming>, emitted: seq<Candle>, discarded: seq<Candle>)

  const MAX_HISTORY: nat := 500

  /** One tick seen as a one-tick candle. */
  function TickCandle(t: Tick): Candle {
    Candle(t.origin, M1, t.ts, t.ltp, t.ltp, t.ltp, t.ltp, 1)
  }

  function TickCandles(ticks: seq<Tick>): (s: seq<Candle>)
    ensures |s| == |ticks| && forall i :: 0 <= i < |s| ==> s[i] == TickCandle(ticks[i])
  {
    seq(|ticks|, i requires 0 <= i < |ticks| => TickCandle(ticks[i]))
  }

  function Fresh(t: Tick, tf: Timeframe): Forming {
    Forming(TA.Single(TickCandle(t), tf), t.ts)
  }

  function Updated(f: Forming, t: Tick): Forming {
    Forming(TA.Extend(f.candle, TickCandle(t)).(origin := t.origin), t.ts)
  }

  function Process(b: Builder, t: Tick, tf: Timeframe): Builder {
    match b.forming
    case None => b.(forming := Some(Fresh(t, tf)))
    case Some(f) =>
      if BucketOpen(t.ts, tf) <= f.candle.ts then b.(forming := Some(Updated(f, t)))
      else if t.ts - f.lastTick > 2 * IntervalMs(tf) then
        Builder(Some(Fresh(t, tf)), b.emitted, b.discarded + [f.candle])
      else
        Builder(Some(Fresh(t, tf)), b.emitted + [f.candle], b.discarded)
  }

  function Run(ticks: seq<Tick>, n: nat, tf: Timeframe): Builder
    requires n <= |ticks|
  {
    if n == 0 then Builder(None, [], []) else Process(Run(ticks, n - 1, tf), ticks[n - 1], tf)
  }

  function Suffix<T>(s: seq<T>, n: nat): seq<T> {
    if |s| <= n then s else s[|s| - n..]
  }

  class CandleState {
    var origin: Origin
    var open: real
    var high: real
    var low: real
    var close: real
    var volume: int
    var openTimeMs: int
    var tickCount: nat
    var lastTickMs: int

    constructor (openTimeMs: int)
      ensures this.openTimeMs == openTimeMs && tickCount == 0 && volume == 0
    {
      origin := Origin("", "", "");
      open, high, low, close := 0.0, 0.0, 0.0, 0.0;
      volume, tickCount, lastTickMs := 0, 0, 0;
      this.openTimeMs := openTimeMs;
    }

    function ToCandle(tf: Timeframe): Candle
      reads this
    {
      Candle(origin, tf, openTimeMs, open, high, low, close, volume)
    }

    function View(tf: Timeframe): Forming
      reads this
    {
      Forming(ToCandle(tf), lastTickMs)
    }

    method Update(t: Tick, ghost tf: Timeframe)
      requires tickCount == 0 ==> volume == 0
      modifies this
      ensures tickCount == old(tickCount) + 1
      ensures old(tickCount) == 0 ==>
                View(tf) == Forming(TA.Single(TickCandle(t), tf).(ts := old(openTimeMs)), t.ts)
      ensures old(tickCount) > 0 ==> View(tf) == Updated(old(View(tf)), t)
    {
      origin := t.origin;
      var price := t.ltp;
      if tickCount == 0 {
        open, high, low := price, price, price;
      } else {
        high := Max(high, price);
        low := Min(low, price);
      }
      close := price;
      tickCount := tickCount + 1;
      volume := volume + 1;
      lastTickMs := t.ts;
    }

    method Reset(openTimeMs: int)
      modifies this
      ensures this.openTimeMs == openTimeMs && tickCount == 0 && volume == 0
    {
      open, high, low, close := 0.0, 0.0, 0.0, 0.0;
      volume := 0;
      this.openTimeMs := openTimeMs;
      tickCount := 0;
      lastTickMs := 0;
    }
  }

  class CandleBuilder {
    const timeframe: Timeframe
    var state: CandleState?
    var history: seq<Candle>
    /** What went out on the event bus, and what was dropped as stale. */
    ghost var emitted: seq<Candle>
    ghost var discarded: seq<Candle>

    ghost predicate Valid()
      reads this, state
    {
      && (state != null ==> state.tickCount > 0)
      && history == Suffix(emitted, MAX_HISTORY)
    }

    ghost function View(): Builder
      reads this, state
    {
      Builder(if state == null then None else Some(state.View(timeframe)), emitted, discarded)
    }

    constructor (timeframe: Timeframe)
      ensures Valid() && this.timeframe == timeframe && state == null
      ensures View() == Builder(None, [], [])
    {
      this.timeframe := timeframe;
      state := null;
      history, emitted, discarded := [], [], [];
    }

    method ProcessTick(t: Tick)
      requires Valid()
      modifies this, state
      ensures Valid()
      ensures View() == Process(old(View()), t, timeframe)
      ensures state == old(state) || fresh(state)
    {
      var interval := IntervalMs(timeframe);
      var candleOpenTime := BucketOpen(t.ts, timeframe);
      if state == null {
        state := new CandleState(candleOpenTime);
        state.Update(t, timeframe);
        return;
      }
      if candleOpenTime > state.openTimeMs && state.tickCount > 0 {
        var sinceLastTick := t.ts - state.lastTickMs;
        if sinceLastTick > interval * 2 {
          discarded := discarded + [state.ToCandle(timeframe)];
        } else {
          EmitCandle(state.ToCandle(timeframe));
        }
        state.Reset(candleOpenTime);
      }
      state.Update(t, timeframe);
    }

    method EmitCandle(c: Candle)
      requires history == Suffix(emitted, MAX_HISTORY)
      modifies `history, `emitted
      ensures emitted == old(emitted) + [c]
      ensures history == Suffix(emitted, MAX_HISTORY)
    {
      history := history + [c];
      if |history| > MAX_HISTORY {
        history := history[1..];
      }
      emitted := emitted + [c];
    }
  }

  // ----- every tick is accounted for, whatever order ticks arrive in -----

  function Volume(b: Builder): int {
    TA.TotalVolume(b.emitted, 0, |b.emitted|) + TA.TotalVolume(b.discarded, 0, |b.discarded|)
    + (if b.forming.Some? then b.forming.value.candle.volume else 0)
  }

  lemma {:induction false} VolumeSnoc(s: seq<Candle>, c: Candle)
    ensures TA.TotalVolume(s + [c], 0, |s| + 1) == TA.TotalVolume(s, 0, |s|) + c.volume
  {
    TA.VolumePrefix(s, s + [c], |s|);
  }

  lemma {:induction false} TicksConserved(ticks: seq<Tick>, n: nat, tf: Timeframe)
    requires n <= |ticks|
    ensures Volume(Run(ticks, n, tf)) == n
  {
    hide Volume, Process;
    if n == 0 {
      NoVolume();
    } else {
      TicksConserved(ticks, n - 1, tf);
      ProcessAddsOne(Run(ticks, n - 1, tf), ticks[n - 1], tf);
    }
  }

  lemma {:induction false} NoVolume()
    ensures Volume(Builder(None, [], [])) == 0
  {
  }

  lemma {:induction false} ProcessAddsOne(b: Builder, t: Tick, tf: Timeframe)
    ensures Volume(Process(b, t, tf)) == Volume(b) + 1
  {
    hide TA.TotalVolume, BucketOpen;
    if b.forming.Some? {
      VolumeSnoc(b.emitted, b.forming.value.candle);
      VolumeSnoc(b.discarded, b.forming.value.candle);
    }
  }

  // ----- batch aggregation by boundary indices -----

  datatype Bar = Bar(ts: int, open: real, high: real, low: real, close: real, count: int)

  function TickTime(t: Tick): real { t.ts as real }

  /** Positions whose bucket differs from the one before, the first position included. */
  function Starts(s: seq<Candle>, n: nat, tf: Timeframe): (r: seq<nat>)
    requires n <= |s|
    ensures forall i :: 0 <= i < |r| ==> r[i] < n
  {
    if n == 0 then []
    else
      var r := Starts(s, n - 1, tf);
      if n == 1 || BucketOpen(s[n - 1].ts, tf) != BucketOpen(s[n - 2].ts, tf) then r + [n - 1] else r
  }

  function SliceBar(s: seq<Candle>, lo: nat, hi: nat, tf: Timeframe): Bar
    requires lo < hi <= |s|
  {
    Bar(BucketOpen(s[lo].ts, tf), s[lo].open, TA.Highest(s, lo, hi), TA.Lowest(s, lo, hi), s[hi - 1].close, hi - lo)
  }

  /** Exclusive end of slice `i`. */
  function End(starts: seq<nat>, n: nat, i: nat): nat
    requires i < |starts|
  {
    if i + 1 < |starts| then starts[i + 1] else n
  }

  lemma {:induction false} StartsRise(s: seq<Candle>, n: nat, tf: Timeframe, i: nat)
    requires n <= |s| && i < |Starts(s, n, tf)|
    ensures Starts(s, n, tf)[i] < End(Starts(s, n, tf), n, i) <= n
  {
    if i < |Starts(s, n - 1, tf)| { StartsRise(s, n - 1, tf, i); }
  }

  function SliceBars(s: seq<Candle>, tf: Timeframe): (bars: seq<Bar>)
    ensures |bars| == |Starts(s, |s|, tf)|
  {
    var starts := Starts(s, |s|, tf);
    seq(|starts|, i requires 0 <= i < |starts| =>
      (StartsRise(s, |s|, tf, i); SliceBar(s, starts[i], End(starts, |s|, i), tf)))
  }

  function AggregateM5(ticks: seq<Tick>): seq<Bar> {
    SliceBars(TickCandles(StableSort(ticks, TickTime)), M5)
  }

  function AsBar(c: Candle): Bar {
    Bar(c.ts, c.open, c.high, c.low, c.close, c.volume)
  }

  ghost predicate AreFirsts(starts: seq<nat>, last: seq<nat>) {
    && |starts| == |last|
    && forall i :: 0 <= i < |starts| ==> starts[i] == TA.First(last, i)
  }

  /** The boundary indices are the first positions of the streaming bars. */
  lemma {:induction false} StartsAreFirsts(s: seq<Candle>, n: nat, tf: Timeframe)
    requires n <= |s|
    ensures AreFirsts(Starts(s, n, tf), TA.LastIdx(s, n, tf))
  {
    if n > 0 {
      StartsAreFirsts(s, n - 1, tf);
      StartsStep(s, n, tf);
    }
  }

  lemma {:induction false} StartsStep(s: seq<Candle>, n: nat, tf: Timeframe)
    requires 0 < n <= |s| && AreFirsts(Starts(s, n - 1, tf), TA.LastIdx(s, n - 1, tf))
    ensures AreFirsts(Starts(s, n, tf), TA.LastIdx(s, n, tf))
  {
    hide TA.Agg, TA.LastIdx, BucketOpen;
    TA.Step(s, n, tf);
    if n > 1 {
      var m := |TA.Agg(s, n - 1, tf)| - 1;
      TA.LastInBucket(s, n - 1, tf, m);
      TA.IndexBounds(s, n - 1, tf, m);
    } else {
      NoBars(s, tf);
    }
  }

  lemma {:induction false} NoBars(s: seq<Candle>, tf: Timeframe)
    ensures TA.Agg(s, 0, tf) == [] && TA.LastIdx(s, 0, tf) == []
  {
  }

  lemma {:induction false} UnitVolume(s: seq<Candle>, lo: nat, hi: nat)
    requires lo <= hi <= |s| && forall c :: c in s ==> c.volume == 1
    ensures TA.TotalVolume(s, lo, hi) == hi - lo
    decreases hi
  {
    if lo < hi { UnitVolume(s, lo, hi - 1); }
  }

  /** Vectorised aggregation and the streaming fold give the same bars. */
  lemma {:induction false} BatchIsFold(s: seq<Candle>, tf: Timeframe)
    requires forall c :: c in s ==> c.volume == 1
    ensures |SliceBars(s, tf)| == |TA.Agg(s, |s|, tf)|
    ensures forall i :: 0 <= i < |SliceBars(s, tf)| ==> SliceBars(s, tf)[i] == AsBar(TA.Agg(s, |s|, tf)[i])
  {
    StartsAreFirsts(s, |s|, tf);
    forall i | 0 <= i < |SliceBars(s, tf)| ensures SliceBars(s, tf)[i] == AsBar(TA.Agg(s, |s|, tf)[i]) {
      SliceIsBar(s, tf, i);
    }
  }

  lemma {:induction false} SliceIsBar(s: seq<Candle>, tf: Timeframe, i: nat)
    requires forall c :: c in s ==> c.volume == 1
    requires i < |Starts(s, |s|, tf)| && |Starts(s, |s|, tf)| == |TA.Agg(s, |s|, tf)|
    ensures SliceBars(s, tf)[i] == AsBar(TA.Agg(s, |s|, tf)[i])
  {
    StartsAreFirsts(s, |s|, tf);
    var l := TA.LastIdx(s, |s|, tf);
    TA.BarSummarisesWindow(s, |s|, tf, i);
    TA.IndexBounds(s, |s|, tf, i);
    assert End(Starts(s, |s|, tf), |s|, i) == l[i] + 1;
    UnitVolume(s, TA.First(l, i), l[i] + 1);
  }

  // ----- online equals batch -----

  /** The first `k` bars that were not followed by a silence of more than two intervals. */
  function Kept(s: seq<Candle>, n: nat, tf: Timeframe, k: nat): seq<Candle>
    requires n <= |s| && k < |TA.Agg(s, n, tf)|
  {
    if k == 0 then []
    else
      TA.BucketsDiffer(s, n, tf, k - 1);
      var l := TA.LastIdx(s, n, tf)[k - 1];
      Kept(s, n, tf, k - 1)
      + if s[l + 1].ts - s[l].ts > 2 * IntervalMs(tf) then [] else [TA.Agg(s, n, tf)[k - 1]]
  }

  lemma {:induction false} KeptStable(s: seq<Candle>, n: nat, tf: Timeframe, k: nat)
    requires n < |s| && k < |TA.Agg(s, n, tf)|
    ensures k < |TA.Agg(s, n + 1, tf)|
    ensures Kept(s, n, tf, k) == Kept(s, n + 1, tf, k)
  {
    TA.ClosedBarsAreFinal(s, n, n + 1, tf);
    if k > 0 { KeptStable(s, n, tf, k - 1); }
  }

  ghost predicate OneInstrument(ticks: seq<Tick>) {
    forall t :: t in ticks ==> t.origin == ticks[0].origin
  }

  ghost predicate TimeOrdered(ticks: seq<Tick>) {
    forall i, j :: 0 <= i < j < |ticks| ==> ticks[i].ts <= ticks[j].ts
  }

  /** The builder after `n` ticks, told by the batch: the last bar is forming, the closed
      bars are emitted unless a long silence followed. */
  function Expected(s: seq<Candle>, n: nat, tf: Timeframe): (Option<Forming>, seq<Candle>)
    requires 0 < n <= |s|
  {
    var m := |TA.Agg(s, n, tf)| - 1;
    (Some(Forming(TA.Agg(s, n, tf)[m], s[n - 1].ts)), Kept(s, n, tf, m))
  }

  /** On time-ordered ticks of one instrument the builder is where the batch says. */
  lemma {:induction false} OnlineIsFold(ticks: seq<Tick>, n: nat, tf: Timeframe)
    requires 0 < n <= |ticks| && OneInstrument(ticks) && TimeOrdered(ticks)
    ensures var b := Run(ticks, n, tf); (b.forming, b.emitted) == Expected(TickCandles(ticks), n, tf)
  {
    hide TA.Agg, TA.LastIdx, BucketOpen, Process, Kept, OneInstrument, TimeOrdered;
    var s := TickCandles(ticks);
    var t := ticks[n - 1];
    if n == 1 {
      OnlineStart(ticks, tf);
    } else {
      OnlineIsFold(ticks, n - 1, tf);
      var bars := TA.Agg(s, n - 1, tf);
      var c := bars[|bars| - 1];
      assert c.ts <= BucketOpen(t.ts, tf) && c.origin == t.origin by {
        LastBarBelow(ticks, n, tf);
      }
      if c.ts == BucketOpen(t.ts, tf) {
        ExpectedJoins(s, n, tf);
        ProcessJoins(Run(ticks, n - 1, tf), t, c, s[n - 2].ts, tf);
      } else {
        ExpectedOpens(s, n, tf);
        ProcessOpens(Run(ticks, n - 1, tf), t, c, s[n - 2].ts, tf);
      }
    }
  }

  lemma {:induction false} OnlineStart(ticks: seq<Tick>, tf: Timeframe)
    requires ticks != []
    ensures var b := Run(ticks, 1, tf); (b.forming, b.emitted) == Expected(TickCandles(ticks), 1, tf)
  {
    assert Run(ticks, 0, tf) == Builder(None, [], []);
    TA.Step(TickCandles(ticks), 1, tf);
  }

  lemma {:induction false} LastBarBelow(ticks: seq<Tick>, n: nat, tf: Timeframe)
    requires 1 < n <= |ticks| && OneInstrument(ticks) && TimeOrdered(ticks)
    ensures var bars := TA.Agg(TickCandles(ticks), n - 1, tf);
            bars[|bars| - 1].ts <= BucketOpen(ticks[n - 1].ts, tf) && bars[|bars| - 1].origin == ticks[n - 1].origin
  {
    hide TA.Agg, TA.LastIdx, BucketOpen;
    var s := TickCandles(ticks);
    var m := |TA.Agg(s, n - 1, tf)| - 1;
    TA.LastInBucket(s, n - 1, tf, m);
    TA.IndexBounds(s, n - 1, tf, m);
    BucketMonotone(ticks[n - 2].ts, ticks[n - 1].ts, tf);
    OriginKept(s, n - 1, tf, m);
    assert ticks[n - 1] in ticks && forall c :: c in s ==> c.origin == ticks[0].origin;
  }

  lemma {:induction false} ProcessJoins(b: Builder, t: Tick, c: Candle, lastTick: int, tf: Timeframe)
    requires b.forming == Some(Forming(c, lastTick)) && BucketOpen(t.ts, tf) == c.ts && c.origin == t.origin
    ensures Process(b, t, tf) == b.(forming := Some(Forming(TA.Extend(c, TickCandle(t)), t.ts)))
  {
  }

  lemma {:induction false} ProcessOpens(b: Builder, t: Tick, c: Candle, lastTick: int, tf: Timeframe)
    requires b.forming == Some(Forming(c, lastTick)) && c.ts < BucketOpen(t.ts, tf)
    ensures Process(b, t, tf).forming == Some(Forming(TA.Single(TickCandle(t), tf), t.ts))
    ensures Process(b, t, tf).emitted == b.emitted + if t.ts - lastTick > 2 * IntervalMs(tf) then [] else [c]
  {
  }

  lemma {:induction false} ExpectedJoins(s: seq<Candle>, n: nat, tf: Timeframe)
    requires 1 < n <= |s| && TA.Joins(TA.Agg(s, n - 1, tf), s[n - 1], tf)
    ensures var bars, e := TA.Agg(s, n - 1, tf), Expected(s, n - 1, tf);
            Expected(s, n, tf) == (Some(Forming(TA.Extend(bars[|bars| - 1], s[n - 1]), s[n - 1].ts)), e.1)
  {
    TA.Step(s, n, tf);
    KeptStable(s, n - 1, tf, |TA.Agg(s, n - 1, tf)| - 1);
  }

  lemma {:induction false} ExpectedOpens(s: seq<Candle>, n: nat, tf: Timeframe)
    requires 1 < n <= |s| && !TA.Joins(TA.Agg(s, n - 1, tf), s[n - 1], tf)
    ensures var bars, e := TA.Agg(s, n - 1, tf), Expected(s, n - 1, tf);
            Expected(s, n, tf) ==
              (Some(Forming(TA.Single(s[n - 1], tf), s[n - 1].ts)),
               e.1 + if s[n - 1].ts - s[n - 2].ts > 2 * IntervalMs(tf) then [] else [bars[|bars| - 1]])
  {
    TA.Step(s, n, tf);
    var m := |TA.Agg(s, n - 1, tf)| - 1;
    KeptStable(s, n - 1, tf, m);
    KeptNext(s, n, tf, m);
  }

  /** Opening a bar decides whether the one before it is kept. */
  lemma {:induction false} KeptNext(s: seq<Candle>, n: nat, tf: Timeframe, m: nat)
    requires 1 < n <= |s| && |TA.Agg(s, n - 1, tf)| == m + 1 && !TA.Joins(TA.Agg(s, n - 1, tf), s[n - 1], tf)
    ensures |TA.Agg(s, n, tf)| == m + 2
    ensures Kept(s, n, tf, m + 1) == Kept(s, n, tf, m)
              + if s[n - 1].ts - s[n - 2].ts > 2 * IntervalMs(tf) then [] else [TA.Agg(s, n - 1, tf)[m]]
  {
    TA.Step(s, n, tf);
    TA.IndexBounds(s, n - 1, tf, m);
    TA.BucketsDiffer(s, n, tf, m);
  }

  lemma {:induction false} OriginKept(s: seq<Candle>, n: nat, tf: Timeframe, i: nat)
    requires n <= |s| && i < |TA.Agg(s, n, tf)|
    ensures exists c :: c in s && TA.Agg(s, n, tf)[i].origin == c.origin
  {
    TA.BarSummarisesWindow(s, n, tf, i);
    TA.IndexBounds(s, n, tf, i);
    assert s[TA.First(TA.LastIdx(s, n, tf), i)] in s;
  }

  /** The first `k` batch bars whose next tick came within two intervals. */
  function Surviving(s: seq<Candle>, k: nat): seq<Bar>
    requires k < |Starts(s, |s|, M5)|
  {
    if k == 0 then []
    else
      var starts := Starts(s, |s|, M5);
      StartsRise(s, |s|, M5, k - 1);
      Surviving(s, k - 1)
      + if s[starts[k]].ts - s[starts[k] - 1].ts > 2 * IntervalMs(M5) then [] else [SliceBars(s, M5)[k - 1]]
  }

  function AsBars(s: seq<Candle>): seq<Bar> {
    seq(|s|, i requires 0 <= i < |s| => AsBar(s[i]))
  }

  lemma {:induction false} AsBarsAppend(s: seq<Candle>, t: seq<Candle>)
    ensures AsBars(s + t) == AsBars(s) + AsBars(t)
  {
  }

  lemma {:induction false} AsBarsOfNone()
    ensures AsBars([]) == []
  {
  }

  /** A bar of the fold, as a singleton, is the batch bar of the same index. */
  lemma {:induction false} LastAsBars(s: seq<Candle>, k: nat)
    requires forall c :: c in s ==> c.volume == 1
    requires k < |Starts(s, |s|, M5)| && k < |TA.Agg(s, |s|, M5)|
    ensures k < |SliceBars(s, M5)| && AsBars([TA.Agg(s, |s|, M5)[k]]) == [SliceBars(s, M5)[k]] && AsBars([]) == []
  {
    BatchIsFold(s, M5);
  }

  lemma {:induction false} KeptSurvives(s: seq<Candle>, k: nat)
    requires forall c :: c in s ==> c.volume == 1
    requires k < |Starts(s, |s|, M5)| && k < |TA.Agg(s, |s|, M5)|
    ensures AsBars(Kept(s, |s|, M5, k)) == Surviving(s, k)
  {
    hide TA.Agg, TA.LastIdx, SliceBars, AsBars, AsBar;
    if k == 0 {
      AsBarsOfNone();
    } else {
      KeptSurvives(s, k - 1);
      TA.BucketsDiffer(s, |s|, M5, k - 1);
      var l := TA.LastIdx(s, |s|, M5)[k - 1];
      var last := if s[l + 1].ts - s[l].ts > 2 * IntervalMs(M5) then [] else [TA.Agg(s, |s|, M5)[k - 1]];
      assert Kept(s, |s|, M5, k) == Kept(s, |s|, M5, k - 1) + last;
      AsBarsAppend(Kept(s, |s|, M5, k - 1), last);
      assert Starts(s, |s|, M5)[k] == l + 1 by { StartsAreFirsts(s, |s|, M5); }
      LastAsBars(s, k - 1);
    }
  }

  /** The candles the live builder sends out are the batch bars, all but the last, that no
      silence of more than two intervals follows. */
  lemma {:induction false} OnlineEqualsBatch(ticks: seq<Tick>)
    requires ticks != [] && OneInstrument(ticks) && TimeOrdered(ticks)
    ensures var s := TickCandles(ticks);
            && AggregateM5(ticks) == SliceBars(s, M5) != []
            && AsBars(Run(ticks, |ticks|, M5).emitted) == Surviving(s, |AggregateM5(ticks)| - 1)
  {
    StableSortOfSorted(ticks, TickTime);
    var s := TickCandles(ticks);
    assert |s| == |ticks| > 0;
    assert AggregateM5(ticks) == SliceBars(s, M5);
    assert |SliceBars(s, M5)| == |TA.Agg(s, |s|, M5)| by { BatchIsFold(s, M5); }
    var m := |TA.Agg(s, |s|, M5)| - 1;
    assert Run(ticks, |ticks|, M5).emitted == Expected(s, |s|, M5).1 by { OnlineIsFold(ticks, |ticks|, M5); }
    KeptSurvives(s, m);
  }
}
