/** Higher-timeframe aggregation (app/cfd_research/timeframe.py) over the candle model
    of app/core/models.py. Timestamps are whole milliseconds. */
module Candles {

  datatype Timeframe = M1 | M5 | M15 | M30 | H1 | D1

  function IntervalMs(tf: Timeframe): (ms: int)
    ensures ms > 0
  {
    match tf
    case M1 => 60_000
    case M5 => 300_000
    case M15 => 900_000
    case M30 => 1_800_000
    case H1 => 3_600_000
    case D1 => 86_400_000
  }

  /** The identifying fields a candle copies from its ticks. */
  datatype Origin = Origin(exchange: string, segment: string, token: string)

  datatype Candle = Candle(
    origin: Origin, timeframe: Timeframe, ts: int,
    open: real, high: real, low: real, close: real, volume: int)
  {
    /** The range contains the open and the close. */
    ghost predicate WellFormed() {
      low <= open <= high && low <= close <= high
    }
  }

  function BucketOpen(ts: int, tf: Timeframe): int {
    ts / IntervalMs(tf) * IntervalMs(tf)
  }

  lemma {:induction false} BucketContains(ts: int, tf: Timeframe)
    ensures BucketOpen(ts, tf) <= ts < BucketOpen(ts, tf) + IntervalMs(tf)
    ensures BucketOpen(BucketOpen(ts, tf), tf) == BucketOpen(ts, tf)
  {
    FloorContains(ts, IntervalMs(tf));
  }

  lemma {:induction false} FloorContains(t: int, d: int)
    requires d > 0
    ensures t / d * d <= t < t / d * d + d
    ensures t / d * d / d == t / d
  {
    assert t == t / d * d + t % d;
    QuotientIs(t / d * d, t / d, d);
  }

  lemma {:induction false} BucketMonotone(s: int, t: int, tf: Timeframe)
    requires s <= t
    ensures BucketOpen(s, tf) <= BucketOpen(t, tf)
    ensures BucketOpen(s, tf) < BucketOpen(t, tf) ==> BucketOpen(s, tf) + IntervalMs(tf) <= BucketOpen(t, tf)
  {
    var d := IntervalMs(tf);
    assert s / d <= t / d;
  }

  /** Every interval of the table divides every longer one. */
  lemma {:induction false} IntervalsNest(a: Timeframe, b: Timeframe)
    requires IntervalMs(a) <= IntervalMs(b)
    ensures IntervalMs(b) % IntervalMs(a) == 0
  {
    match a
    case M1 => match b { case M1 => case M5 => case M15 => case M30 => case H1 => case D1 => }
    case M5 => match b { case M5 => case M15 => case M30 => case H1 => case D1 => case M1 => }
    case M15 => match b { case M15 => case M30 => case H1 => case D1 => case M1 => case M5 => }
    case M30 => match b { case M30 => case H1 => case D1 => case M1 => case M5 => case M15 => }
    case H1 => match b { case H1 => case D1 => case M1 => case M5 => case M15 => case M30 => }
    case D1 => match b { case D1 => case M1 => case M5 => case M15 => case M30 => case H1 => }
  }

  /** Flooring to the short grid first does not move a timestamp to another long bucket. */
  lemma {:induction false} BucketsCompose(ts: int, a: Timeframe, b: Timeframe)
    requires IntervalMs(a) <= IntervalMs(b)
    ensures BucketOpen(BucketOpen(ts, a), b) == BucketOpen(ts, b)
  {
    IntervalsNest(a, b);
    FloorsCompose(ts, IntervalMs(a), IntervalMs(b));
  }

  lemma {:induction false} FloorsCompose(t: int, p: int, q: int)
    requires 0 < p <= q && q % p == 0
    ensures t / p * p / q == t / q
  {
    var k, m := t / q, q / p;
    assert t == k * q + t % q;
    assert t == t / p * p + t % p;
    assert q == m * p;
    assert k * q == (k * m) * p by { assert k * (m * p) == (k * m) * p; }
    QuotientAtLeast(t, k * m, p);
    assert (k * m) * p <= t / p * p;
    QuotientIs(t / p * p, k, q);
  }

  lemma {:induction false} NoSmallMultiple(e: int, d: int)
    requires d > 0 && -d < e * d
    ensures 0 <= e
  {
  }

  lemma {:induction false} QuotientAtLeast(t: int, k: int, d: int)
    requires d > 0 && k * d <= t
    ensures k <= t / d
  {
    assert t == t / d * d + t % d;
    assert (t / d - k) * d == t / d * d - k * d;
    NoSmallMultiple(t / d - k, d);
  }

  lemma {:induction false} QuotientIs(t: int, k: int, d: int)
    requires d > 0 && k * d <= t < k * d + d
    ensures t / d == k
  {
    QuotientAtLeast(t, k, d);
    assert t == t / d * d + t % d;
    assert (k - t / d) * d == k * d - t / d * d;
    NoSmallMultiple(k - t / d, d);
  }
}

module TimeframeAggregation {
  import opened Prelude
  import opened Candles

  /** A higher-timeframe bar holding one base bar. */
  function Single(c: Candle, tf: Timeframe): Candle {
    c.(timeframe := tf, ts := BucketOpen(c.ts, tf))
  }

  /** The forming bar after one more base bar of its bucket. */
  function Extend(h: Candle, c: Candle): Candle {
    h.(high := Max(h.high, c.high), low := Min(h.low, c.low), close := c.close, volume := h.volume + c.volume)
  }

  predicate Joins(bars: seq<Candle>, c: Candle, tf: Timeframe) {
    bars != [] && bars[|bars| - 1].ts == BucketOpen(c.ts, tf)
  }

  function Push(bars: seq<Candle>, c: Candle, tf: Timeframe): seq<Candle> {
    if Joins(bars, c, tf) then bars[|bars| - 1 := Extend(bars[|bars| - 1], c)]
    else bars + [Single(c, tf)]
  }

  /** The bars of the first `n` base bars, the forming one included. */
  function Agg(s: seq<Candle>, n: nat, tf: Timeframe): (bars: seq<Candle>)
    requires n <= |s|
    ensures n > 0 ==> bars != []
  {
    if n == 0 then [] else Push(Agg(s, n - 1, tf), s[n - 1], tf)
  }

  /** Replace the last element if `grows`, else append. */
  function Advance(l: seq<nat>, k: nat, grows: bool): seq<nat> {
    if grows && l != [] then l[|l| - 1 := k] else l + [k]
  }

  /** For every bar, the position of its last base bar. */
  function LastIdx(s: seq<Candle>, n: nat, tf: Timeframe): (last: seq<nat>)
    requires n <= |s|
    ensures |last| == |Agg(s, n, tf)|
  {
    if n == 0 then [] else Advance(LastIdx(s, n - 1, tf), n - 1, Joins(Agg(s, n - 1, tf), s[n - 1], tf))
  }

  datatype Aggregated = Bars(bars: seq<Candle>, last: seq<nat>) | NotAMultiple

  function Aggregate(s: seq<Candle>, tf: Timeframe): Aggregated {
    if s == [] then Bars([], [])
    else if IntervalMs(tf) <= IntervalMs(s[0].timeframe) then Bars(s, seq(|s|, i => i))
    else if IntervalMs(tf) % IntervalMs(s[0].timeframe) != 0 then NotAMultiple
    else Bars(Agg(s, |s|, tf), LastIdx(s, |s|, tf))
  }

  method AggregateWithIndex(candles: seq<Candle>, tf: Timeframe) returns (r: Aggregated)
    ensures r == Aggregate(candles, tf)
  {
    if candles == [] {
      return Bars([], []);
    }
    var interval := IntervalMs(tf);
    var base := IntervalMs(candles[0].timeframe);
    if interval <= base {
      return Bars(candles, seq(|candles|, i => i));
    }
    if interval % base != 0 {
      return NotAMultiple;
    }
    var out: seq<Candle> := [];
    var lastIdx: seq<nat> := [];
    var curBucket: Option<int> := None;
    var o, h, l, c := 0.0, 0.0, 0.0, 0.0;
    var vol := 0;
    var li := 0;
    var origin := Origin("", "", "");
    for i := 0 to |candles|
      invariant curBucket.None? <==> i == 0
      invariant i == 0 ==> out == [] && lastIdx == []
      invariant i > 0 ==>
        out + [Candle(origin, tf, curBucket.value, o, h, l, c, vol)] == Agg(candles, i, tf)
        && lastIdx + [li] == LastIdx(candles, i, tf)
    {
      var cd := candles[i];
      var b := BucketOpen(cd.ts, tf);
      if curBucket.None? || b != curBucket.value {
        if curBucket.Some? {
          out := out + [Candle(origin, tf, curBucket.value, o, h, l, c, vol)];
          lastIdx := lastIdx + [li];
        }
        curBucket := Some(b);
        origin := cd.origin;
        o, h, l, c := cd.open, cd.high, cd.low, cd.close;
        vol := cd.volume;
        li := i;
      } else {
        if cd.high > h { h := cd.high; }
        if cd.low < l { l := cd.low; }
        c := cd.close;
        vol := vol + cd.volume;
        li := i;
      }
    }
    if curBucket.Some? {
      out := out + [Candle(origin, tf, curBucket.value, o, h, l, c, vol)];
      lastIdx := lastIdx + [li];
    }
    return Bars(out, lastIdx);
  }

  // ----- what a bar is -----

  /** First base position of bar `i`. */
  function First(last: seq<nat>, i: nat): nat
    requires i <= |last|
  {
    if i == 0 then 0 else last[i - 1] + 1
  }

  /** One base bar either extends the last bar or opens a new one. */
  lemma {:induction false} Step(s: seq<Candle>, n: nat, tf: Timeframe)
    requires 0 < n <= |s|
    ensures Agg(s, n, tf) == Push(Agg(s, n - 1, tf), s[n - 1], tf)
    ensures LastIdx(s, n, tf) == Advance(LastIdx(s, n - 1, tf), n - 1, Joins(Agg(s, n - 1, tf), s[n - 1], tf))
  {
  }

  lemma {:induction false} IndexBounds(s: seq<Candle>, n: nat, tf: Timeframe, i: nat)
    requires n <= |s| && i < |Agg(s, n, tf)|
    ensures First(LastIdx(s, n, tf), i) <= LastIdx(s, n, tf)[i] < n
    ensures i == |Agg(s, n, tf)| - 1 ==> LastIdx(s, n, tf)[i] == n - 1
  {
    if i < |Agg(s, n - 1, tf)| {
      IndexBounds(s, n - 1, tf, i);
    } else if i > 0 {
      IndexBounds(s, n - 1, tf, i - 1);
    }
  }

  /** Last indices strictly increase and end at the last base bar, so the windows between
      them put every base bar in exactly one bar. */
  lemma {:induction false} IndicesPartition(s: seq<Candle>, tf: Timeframe)
    ensures var l := LastIdx(s, |s|, tf);
            && (forall i :: 0 <= i < |l| ==> First(l, i) <= l[i])
            && First(l, |l|) == |s|
  {
    var l := LastIdx(s, |s|, tf);
    forall i | 0 <= i < |l| ensures First(l, i) <= l[i] {
      IndexBounds(s, |s|, tf, i);
    }
    if s != [] { IndexBounds(s, |s|, tf, |l| - 1); }
  }

  function TotalVolume(s: seq<Candle>, lo: nat, hi: nat): int
    requires lo <= hi <= |s|
    decreases hi
  {
    if lo == hi then 0 else TotalVolume(s, lo, hi - 1) + s[hi - 1].volume
  }

  function Highest(s: seq<Candle>, lo: nat, hi: nat): real
    requires lo < hi <= |s|
    decreases hi
  {
    if lo + 1 == hi then s[lo].high else Max(Highest(s, lo, hi - 1), s[hi - 1].high)
  }

  function Lowest(s: seq<Candle>, lo: nat, hi: nat): real
    requires lo < hi <= |s|
    decreases hi
  {
    if lo + 1 == hi then s[lo].low else Min(Lowest(s, lo, hi - 1), s[hi - 1].low)
  }

  /** `b` is the OHLCV summary of base bars `lo..hi`, all of them in its bucket. */
  ghost predicate Summarises(b: Candle, s: seq<Candle>, lo: nat, hi: nat, tf: Timeframe) {
    && lo < hi <= |s|
    && b.timeframe == tf && b.origin == s[lo].origin
    && (forall j :: lo <= j < hi ==> BucketOpen(s[j].ts, tf) == b.ts)
    && b.high == Highest(s, lo, hi)
    && b.low == Lowest(s, lo, hi)
    && b.open == s[lo].open
    && b.close == s[hi - 1].close
    && b.volume == TotalVolume(s, lo, hi)
  }

  lemma {:induction false} SummaryExtends(b: Candle, s: seq<Candle>, lo: nat, hi: nat, tf: Timeframe)
    requires Summarises(b, s, lo, hi, tf) && hi < |s| && BucketOpen(s[hi].ts, tf) == b.ts
    ensures Summarises(Extend(b, s[hi]), s, lo, hi + 1, tf)
  {
  }

  lemma {:induction false} SummarySingle(s: seq<Candle>, i: nat, tf: Timeframe)
    requires i < |s|
    ensures Summarises(Single(s[i], tf), s, i, i + 1, tf)
  {
    assert TotalVolume(s, i, i + 1) == TotalVolume(s, i, i) + s[i].volume;
  }

  lemma {:induction false} AggNonempty(s: seq<Candle>, n: nat, tf: Timeframe)
    requires n <= |s| && Agg(s, n, tf) != []
    ensures n > 0
  {
  }

  /** Each bar is the OHLCV summary of its own window. */
  lemma {:induction false} BarSummarisesWindow(s: seq<Candle>, n: nat, tf: Timeframe, i: nat)
    requires n <= |s| && i < |Agg(s, n, tf)|
    ensures var l := LastIdx(s, n, tf); Summarises(Agg(s, n, tf)[i], s, First(l, i), l[i] + 1, tf)
  {
    hide Agg, LastIdx, Summarises, BucketOpen, Single, Extend;
    AggNonempty(s, n, tf);
    var bars, last := Agg(s, n - 1, tf), LastIdx(s, n - 1, tf);
    var l := LastIdx(s, n, tf);
    Step(s, n, tf);
    if i < |bars| {
      BarSummarisesWindow(s, n - 1, tf, i);
      assert First(l, i) == First(last, i);
      if i == |bars| - 1 && Joins(bars, s[n - 1], tf) {
        IndexBounds(s, n - 1, tf, i);
        SummaryExtends(bars[i], s, First(last, i), n - 1, tf);
      }
    } else {
      if i > 0 { IndexBounds(s, n - 1, tf, i - 1); }
      SummarySingle(s, n - 1, tf);
    }
  }

  /** No volume is lost or counted twice. */
  lemma {:induction false} VolumeConserved(s: seq<Candle>, n: nat, tf: Timeframe)
    requires n <= |s|
    ensures var bars := Agg(s, n, tf); TotalVolume(bars, 0, |bars|) == TotalVolume(s, 0, n)
  {
    if n > 0 {
      VolumeConserved(s, n - 1, tf);
      var bars, r := Agg(s, n - 1, tf), Agg(s, n, tf);
      var m := if Joins(bars, s[n - 1], tf) then |bars| - 1 else |bars|;
      VolumePrefix(bars, r, m);
    }
  }

  lemma {:induction false} VolumePrefix(s: seq<Candle>, t: seq<Candle>, n: nat)
    requires n <= |s| && n <= |t| && forall i :: 0 <= i < n ==> s[i] == t[i]
    ensures TotalVolume(s, 0, n) == TotalVolume(t, 0, n)
  {
    if n > 0 { VolumePrefix(s, t, n - 1); }
  }

  // ----- the tower law -----

  lemma {:induction false} AggPrefix(s: seq<Candle>, t: seq<Candle>, n: nat, tf: Timeframe)
    requires n <= |s| && n <= |t| && forall i :: 0 <= i < n ==> s[i] == t[i]
    ensures Agg(s, n, tf) == Agg(t, n, tf) && LastIdx(s, n, tf) == LastIdx(t, n, tf)
  {
    if n > 0 { AggPrefix(s, t, n - 1, tf); }
  }

  /** Extending is associative, so a short bar can be merged in one go. */
  lemma {:induction false} PushCommutes(bars: seq<Candle>, l: Candle, x: Candle, a: Timeframe, b: Timeframe)
    requires IntervalMs(a) <= IntervalMs(b) && l.ts == BucketOpen(x.ts, a)
    ensures Joins(Push(bars, l, b), x, b)
    ensures Joins(bars, Extend(l, x), b) == Joins(bars, l, b)
    ensures Push(Push(bars, l, b), x, b) == Push(bars, Extend(l, x), b)
  {
    BucketsCompose(x.ts, a, b);
  }

  lemma {:induction false} PushSingle(bars: seq<Candle>, x: Candle, a: Timeframe, b: Timeframe)
    requires IntervalMs(a) <= IntervalMs(b)
    ensures Joins(bars, Single(x, a), b) == Joins(bars, x, b)
    ensures Push(bars, Single(x, a), b) == Push(bars, x, b)
  {
    BucketsCompose(x.ts, a, b);
  }

  /** Read `inner` at the positions `outer`. */
  function Through(outer: seq<nat>, inner: seq<nat>): seq<nat> {
    seq(|outer|, i requires 0 <= i < |outer| => if outer[i] < |inner| then inner[outer[i]] else 0)
  }

  lemma {:induction false} ComposeJoin(bars: seq<Candle>, x: Candle, a: Timeframe, b: Timeframe)
    requires IntervalMs(a) <= IntervalMs(b) && Joins(bars, x, a)
    ensures var r := Push(bars, x, a);
            && Agg(r, |r|, b) == Push(Agg(bars, |bars|, b), x, b)
            && Joins(Agg(bars, |bars|, b), x, b)
            && LastIdx(r, |r|, b) == LastIdx(bars, |bars|, b)
  {
    var r, m := Push(bars, x, a), |bars| - 1;
    AggPrefix(bars, r, m, b);
    var q := Agg(bars, m, b);
    PushCommutes(q, bars[m], x, a, b);
    assert r[m] == Extend(bars[m], x);
    assert Agg(r, m + 1, b) == Push(q, r[m], b);
    assert Agg(bars, m + 1, b) == Push(q, bars[m], b);
  }

  lemma {:induction false} ComposeOpen(bars: seq<Candle>, x: Candle, a: Timeframe, b: Timeframe)
    requires IntervalMs(a) <= IntervalMs(b) && !Joins(bars, x, a)
    ensures var r, m := Push(bars, x, a), |bars|;
            && Agg(r, |r|, b) == Push(Agg(bars, m, b), x, b)
            && LastIdx(r, |r|, b) == Advance(LastIdx(bars, m, b), m, Joins(Agg(bars, m, b), x, b))
  {
    var r, m := Push(bars, x, a), |bars|;
    AggPrefix(bars, r, m, b);
    PushSingle(Agg(bars, m, b), x, a, b);
    assert r[m] == Single(x, a);
  }

  /** Aggregating the aggregate is aggregating directly. */
  lemma {:induction false} AggCompose(s: seq<Candle>, n: nat, a: Timeframe, b: Timeframe)
    requires n <= |s| && IntervalMs(a) <= IntervalMs(b)
    ensures Agg(Agg(s, n, a), |Agg(s, n, a)|, b) == Agg(s, n, b)
  {
    if n > 0 {
      AggCompose(s, n - 1, a, b);
      var bars, x := Agg(s, n - 1, a), s[n - 1];
      assert Agg(s, n, a) == Push(bars, x, a);
      if Joins(bars, x, a) {
        ComposeJoin(bars, x, a, b);
      } else {
        ComposeOpen(bars, x, a, b);
      }
    }
  }

  /** A composed pair of maps after the last short bar grew, with the long bar above it. */
  lemma {:induction false} ThroughGrow(outer: seq<nat>, inner: seq<nat>, k: nat)
    requires outer != [] && inner != [] && outer[|outer| - 1] == |inner| - 1
    requires forall i :: 0 <= i < |outer| - 1 ==> outer[i] < |inner| - 1
    ensures Through(outer, Advance(inner, k, true)) == Advance(Through(outer, inner), k, true)
  {
  }

  /** The same after a new short bar, which grows the last long bar or opens one. */
  lemma {:induction false} ThroughAppend(outer: seq<nat>, inner: seq<nat>, k: nat, grows: bool)
    requires forall i :: 0 <= i < |outer| ==> outer[i] < |inner|
    ensures Through(Advance(outer, |inner|, grows), Advance(inner, k, false)) ==
              Advance(Through(outer, inner), k, grows)
  {
  }

  /** The index maps compose along with the bars. */
  lemma {:induction false} IndicesCompose(s: seq<Candle>, n: nat, a: Timeframe, b: Timeframe)
    requires n <= |s| && IntervalMs(a) <= IntervalMs(b)
    ensures Through(LastIdx(Agg(s, n, a), |Agg(s, n, a)|, b), LastIdx(s, n, a)) == LastIdx(s, n, b)
  {
    if n > 0 {
      IndicesCompose(s, n - 1, a, b);
      IndicesComposeStep(s, n, a, b);
    }
  }

  lemma {:induction false} IndicesComposeStep(s: seq<Candle>, n: nat, a: Timeframe, b: Timeframe)
    requires 0 < n <= |s| && IntervalMs(a) <= IntervalMs(b)
    requires Through(LastIdx(Agg(s, n - 1, a), |Agg(s, n - 1, a)|, b), LastIdx(s, n - 1, a)) == LastIdx(s, n - 1, b)
    ensures Through(LastIdx(Agg(s, n, a), |Agg(s, n, a)|, b), LastIdx(s, n, a)) == LastIdx(s, n, b)
  {
    hide Push, Extend, Single, BucketOpen, Agg, LastIdx, Through, Advance;
    AggCompose(s, n - 1, a, b);
    var bars, x := Agg(s, n - 1, a), s[n - 1];
    var outer, inner := LastIdx(bars, |bars|, b), LastIdx(s, n - 1, a);
    InnerLast(bars, |bars|, b);
    Step(s, n, a);
    Step(s, n, b);
    if Joins(bars, x, a) {
      ComposeJoin(bars, x, a, b);
      ThroughGrow(outer, inner, n - 1);
    } else {
      ComposeOpen(bars, x, a, b);
      ThroughAppend(outer, inner, n - 1, Joins(Agg(s, n - 1, b), x, b));
    }
  }

  lemma {:induction false} InnerLast(s: seq<Candle>, n: nat, tf: Timeframe)
    requires n <= |s|
    ensures forall i :: 0 <= i < |LastIdx(s, n, tf)| - 1 ==> LastIdx(s, n, tf)[i] < n - 1
    ensures n > 0 ==> LastIdx(s, n, tf)[|LastIdx(s, n, tf)| - 1] == n - 1
    ensures forall i :: 0 <= i < |LastIdx(s, n, tf)| ==> LastIdx(s, n, tf)[i] < n
  {
    if n > 0 { IndexBounds(s, n, tf, |LastIdx(s, n, tf)| - 1); }
    forall i | 0 <= i < |LastIdx(s, n, tf)| - 1 ensures LastIdx(s, n, tf)[i] < n - 1 {
      IndexBounds(s, n, tf, i);
      Rising(s, n, tf, i, |LastIdx(s, n, tf)| - 1);
      IndexBounds(s, n, tf, |LastIdx(s, n, tf)| - 1);
    }
  }

  lemma {:induction false} Rising(s: seq<Candle>, n: nat, tf: Timeframe, i: nat, j: nat)
    requires n <= |s| && i < j < |Agg(s, n, tf)|
    ensures LastIdx(s, n, tf)[i] < LastIdx(s, n, tf)[j]
  {
    IndexBounds(s, n, tf, j);
    if i + 1 < j { Rising(s, n, tf, i, j - 1); }
  }

  lemma {:induction false} AggregateProper(s: seq<Candle>, tf: Timeframe)
    requires s != [] && IntervalMs(s[0].timeframe) < IntervalMs(tf)
    ensures Aggregate(s, tf) == Bars(Agg(s, |s|, tf), LastIdx(s, |s|, tf))
  {
    IntervalsNest(s[0].timeframe, tf);
  }

  lemma {:induction false} AggLabel(s: seq<Candle>, tf: Timeframe)
    requires s != []
    ensures Agg(s, |s|, tf)[0].timeframe == tf
  {
    BarSummarisesWindow(s, |s|, tf, 0);
  }

  lemma {:induction false} IndicesInRange(s: seq<Candle>, tf: Timeframe)
    ensures forall i :: 0 <= i < |LastIdx(s, |s|, tf)| ==> LastIdx(s, |s|, tf)[i] < |s|
  {
    InnerLast(s, |s|, tf);
  }

  lemma {:induction false} ThroughIdentity(l: seq<nat>, n: nat)
    requires forall i :: 0 <= i < |l| ==> l[i] < n
    ensures Through(l, seq(n, i => i)) == l
    ensures |l| == n ==> Through(seq(n, i => i), l) == l
  {
  }

  /** Tower law for the whole function, identity requests included. */
  lemma {:induction false} TowerLaw(s: seq<Candle>, a: Timeframe, b: Timeframe)
    requires IntervalMs(a) <= IntervalMs(b)
    ensures Aggregate(s, a).Bars? && Aggregate(s, b).Bars?
    ensures var short := Aggregate(s, a);
            var long := Aggregate(short.bars, b);
            && long.Bars?
            && long.bars == Aggregate(s, b).bars
            && (forall i :: 0 <= i < |long.last| ==> long.last[i] < |short.last|)
            && Through(long.last, short.last) == Aggregate(s, b).last
  {
    if s != [] && IntervalMs(s[0].timeframe) < IntervalMs(b) {
      AggregateProper(s, b);
      IndicesInRange(s, b);
      if IntervalMs(a) <= IntervalMs(s[0].timeframe) {
        ThroughIdentity(LastIdx(s, |s|, b), |s|);
      } else {
        AggregateProper(s, a);
        TowerLawProper(s, a, b);
      }
    }
  }

  lemma {:induction false} TowerLawProper(s: seq<Candle>, a: Timeframe, b: Timeframe)
    requires s != [] && IntervalMs(a) <= IntervalMs(b)
    ensures var long := Aggregate(Agg(s, |s|, a), b);
            && long.Bars?
            && long.bars == Agg(s, |s|, b)
            && (forall i :: 0 <= i < |long.last| ==> long.last[i] < |LastIdx(s, |s|, a)|)
            && Through(long.last, LastIdx(s, |s|, a)) == LastIdx(s, |s|, b)
  {
    var bars, last := Agg(s, |s|, a), LastIdx(s, |s|, a);
    AggLabel(s, a);
    if a != b {
      assert IntervalMs(a) < IntervalMs(b);
      AggregateProper(bars, b);
      assert Agg(bars, |bars|, b) == Agg(s, |s|, b) by { AggCompose(s, |s|, a, b); }
      assert Through(LastIdx(bars, |bars|, b), last) == LastIdx(s, |s|, b) by { IndicesCompose(s, |s|, a, b); }
      IndicesInRange(bars, b);
    } else {
      assert Aggregate(bars, b) == Bars(bars, seq(|bars|, i => i));
      IndicesInRange(s, a);
      assert Through(seq(|bars|, i => i), last) == last;
    }
  }

  // ----- no look-ahead -----

  /** A bar and everything before it is determined by the base bars up to its last index. */
  lemma {:induction false} NoLookAhead(s: seq<Candle>, n: nat, tf: Timeframe, i: nat)
    requires n <= |s| && i < |Agg(s, n, tf)|
    ensures var m := LastIdx(s, n, tf)[i] + 1;
            && m <= n
            && Agg(s[..m], m, tf) == Agg(s, n, tf)[..i + 1]
            && LastIdx(s[..m], m, tf) == LastIdx(s, n, tf)[..i + 1]
  {
    hide BucketOpen, Single, Extend;
    IndexBounds(s, n, tf, i);
    var m := LastIdx(s, n, tf)[i] + 1;
    if i == |Agg(s, n, tf)| - 1 {
      AggPrefix(s, s[..n], n, tf);
    } else {
      Step(s, n, tf);
      NoLookAhead(s, n - 1, tf, i);
    }
  }

  /** Appending base bars never changes a bar that is already closed. */
  lemma {:induction false} ClosedBarsAreFinal(s: seq<Candle>, n: nat, m: nat, tf: Timeframe)
    requires n <= m <= |s|
    ensures |Agg(s, n, tf)| <= |Agg(s, m, tf)|
    ensures forall i :: 0 <= i < |Agg(s, n, tf)| - 1 ==>
              Agg(s, m, tf)[i] == Agg(s, n, tf)[i] && LastIdx(s, m, tf)[i] == LastIdx(s, n, tf)[i]
  {
    if n < m { ClosedBarsAreFinal(s, n, m - 1, tf); }
  }

  /** The first base bar after a bar belongs to another bucket. */
  lemma {:induction false} BucketsDiffer(s: seq<Candle>, n: nat, tf: Timeframe, i: nat)
    requires n <= |s| && i < |Agg(s, n, tf)| - 1
    ensures LastIdx(s, n, tf)[i] + 1 < n
    ensures BucketOpen(s[LastIdx(s, n, tf)[i] + 1].ts, tf) != Agg(s, n, tf)[i].ts
  {
    if i < |Agg(s, n - 1, tf)| - 1 {
      BucketsDiffer(s, n - 1, tf, i);
    } else {
      IndexBounds(s, n - 1, tf, i);
    }
  }

  ghost predicate Ascending(s: seq<Candle>) {
    forall p, q :: 0 <= p < q < |s| ==> s[p].ts <= s[q].ts
  }

  /** On an ascending series, the bars the replay resolves exits on, those after a bar's
      last index, all lie beyond that bar's bucket. */
  lemma {:induction false} ExitBarsFollowBucket(s: seq<Candle>, tf: Timeframe, i: nat, j: nat)
    requires Ascending(s)
    requires i < |Agg(s, |s|, tf)| && LastIdx(s, |s|, tf)[i] < j < |s|
    ensures s[j].ts >= Agg(s, |s|, tf)[i].ts + IntervalMs(tf)
  {
    var l := LastIdx(s, |s|, tf)[i];
    var bucket := Agg(s, |s|, tf)[i].ts;
    assert BucketOpen(s[l].ts, tf) == bucket != BucketOpen(s[l + 1].ts, tf) by {
      IndexBounds(s, |s|, tf, i);
      BucketsDiffer(s, |s|, tf, i);
      LastInBucket(s, |s|, tf, i);
    }
    BucketMonotone(s[l].ts, s[l + 1].ts, tf);
    BucketContains(s[l + 1].ts, tf);
  }

  lemma {:induction false} LastInBucket(s: seq<Candle>, n: nat, tf: Timeframe, i: nat)
    requires n <= |s| && i < |Agg(s, n, tf)|
    ensures LastIdx(s, n, tf)[i] < n
    ensures BucketOpen(s[LastIdx(s, n, tf)[i]].ts, tf) == Agg(s, n, tf)[i].ts
  {
    if i < |Agg(s, n - 1, tf)| { LastInBucket(s, n - 1, tf, i); }
  }
}
