/** Over every interleaving of fills, answers and requests, the live executor books each
    position exactly once. */
module BrokerLaws {
  import opened Prelude
  import opened ExitEngine
  import opened RiskGuards
  import opened PositionSizing
  import PaperLaws
  import opened BrokerProtocol

  // ----- one position -----

  /** A fraction `r` of the volume `n` is a whole number of steps. */
  ghost predicate Grid(r: real, n: Volume, step: Volume) {
    exists k: int :: VolumeOf(r, n) == StepVolume(k, step) as real
  }

  /** What is left of the position, in volume units. */
  function Left(l: Live): int { VolumeOf(l.pos.remaining, l.entryVolume).Floor }

  /** Legs and remainder make one whole, the remainder is a whole number of volume steps, and a
      pending position is untouched. */
  ghost predicate Whole(l: Live) {
    && ClosedFraction(l.pos.legs, |l.pos.legs|) + l.pos.remaining == 1.0
    && 0.0 <= l.pos.remaining <= 1.0
    && Grid(l.pos.remaining, l.entryVolume, l.symbol.step)
    && WholeSteps(l.entryVolume, l.symbol.step) && l.entryVolume < 1_000_000 * l.symbol.step
    && (!l.pos.open ==> l.pos.legs == [] && l.pos.remaining == 1.0)
  }

  lemma {:induction false} GridOne(n: Volume, step: Volume)
    requires WholeSteps(n, step)
    ensures Grid(1.0, n, step)
  {
    var k: int :| n == StepVolume(k, step);
    assert VolumeOf(1.0, n) == StepVolume(k, step) as real;
  }

  lemma {:induction false} NewIsWhole(l: Live)
    requires NewLive(l)
    ensures Whole(l)
  {
    hide Grid, WholeSteps;
    GridOne(l.entryVolume, l.symbol.step);
  }

  lemma {:induction false} OpeningKeepsWhole(l: Live, order: int, price: real, volume: Option<int>)
    requires Whole(l) && IsOpening(l, order)
    requires volume.Some? ==> WholeSteps(volume.value, l.symbol.step) && volume.value < 1_000_000 * l.symbol.step
    ensures Whole(OpeningFill(l, price, volume)) && OpeningFill(l, price, volume).pos.remaining == l.pos.remaining
  {
    hide Grid, WholeSteps, ClosedFraction;
    if volume.Some? && volume.value > 0 {
      GridOne(volume.value, l.symbol.step);
    }
  }

  lemma {:induction false} QuotientBack(v: int, n: Volume)
    ensures v as real / n as real * n as real == v as real
  {
  }

  lemma {:induction false} GridAfterFill(r: real, n: Volume, step: Volume, v: int)
    requires Grid(r, n, step) && r >= 0.0 && v >= 0 && WholeSteps(v, step)
    ensures var f := Min(v as real / n as real, r);
            0.0 <= f <= r && Grid(r - f, n, step)
  {
    var q := v as real / n as real;
    QuotientBack(v, n);
    ScaleUp(0.0, q, n as real);
    if q <= r {
      var i: int :| VolumeOf(r, n) == StepVolume(i, step) as real;
      var j: int :| v == StepVolume(j, step);
      Distribute(r, q, n as real);
      assert StepVolume(i - j, step) == StepVolume(i, step) - StepVolume(j, step);
      assert VolumeOf(r - q, n) == StepVolume(i - j, step) as real;
    } else {
      GridZero(n, step);
    }
  }

  lemma {:induction false} Distribute(a: real, b: real, c: real)
    ensures (a - b) * c == a * c - b * c
  {
  }

  /** A close fill takes whole steps off the remainder, down to zero. */
  lemma {:induction false} FillLeaves(l: Live, volume: Option<int>)
    requires Whole(l) && (volume.Some? ==> volume.value >= 0 && WholeSteps(volume.value, l.symbol.step))
    ensures var f := FilledFraction(l, volume);
            0.0 <= f <= l.pos.remaining && Grid(l.pos.remaining - f, l.entryVolume, l.symbol.step)
  {
    hide ClosedFraction, Grid;
    if volume.Some? && volume.value != 0 {
      GridAfterFill(l.pos.remaining, l.entryVolume, l.symbol.step, volume.value);
    } else {
      GridZero(l.entryVolume, l.symbol.step);
    }
  }

  lemma {:induction false} GridZero(n: Volume, step: Volume)
    ensures Grid(0.0, n, step)
  {
    assert VolumeOf(0.0, n) == StepVolume(0, step) as real;
  }

  lemma {:induction false} FillKeepsWhole(l: Live, price: real, volume: Option<int>, ts: int)
    requires Whole(l) && l.pos.open && (volume.Some? ==> volume.value >= 0 && WholeSteps(volume.value, l.symbol.step))
    ensures Whole(CloseFill(l, price, FilledFraction(l, volume), ts))
  {
    hide ClosedFraction, FilledFraction, Classify, Grid;
    var f := FilledFraction(l, volume);
    FillLeaves(l, volume);
    PaperLaws.FractionAppend(l.pos.legs, Leg(price, f, Classify(l.pos, price), ts));
  }

  lemma {:induction false} VolumeMonotone(a: real, b: real, n: Volume)
    ensures a <= b <==> VolumeOf(a, n) <= VolumeOf(b, n)
  {
    ScaleUp(a, b, n as real);
  }

  lemma {:induction false} GridThreshold(r: real, n: Volume, step: Volume)
    requires Grid(r, n, step) && r >= 0.0 && n < 1_000_000 * step
    ensures r <= DONE <==> r == 0.0
  {
    if r <= DONE {
      var k: int :| VolumeOf(r, n) == StepVolume(k, step) as real;
      VolumeMonotone(r, DONE, n);
      VolumeMonotone(0.0, r, n);
      InSteps(VolumeOf(r, n), n, step);
      assert 0 <= StepVolume(k, step) < step;
      LessThanOne(k, step);
      ZeroProduct(r, n as real);
    }
  }

  lemma {:induction false} InSteps(volume: real, n: Volume, step: Volume)
    requires volume <= VolumeOf(DONE, n) && n < 1_000_000 * step
    ensures volume < step as real
  {
    assert (1_000_000 * step) as real == 1_000_000.0 * step as real;
  }

  lemma {:induction false} LessThanOne(k: int, step: Volume)
    requires 0 <= StepVolume(k, step) < step
    ensures k == 0
  {
  }

  /** Whole steps make the finalisation threshold exact: at most a millionth left is nothing. */
  lemma {:induction false} ThresholdIsZero(l: Live)
    requires Whole(l)
    ensures l.pos.remaining <= DONE <==> l.pos.remaining == 0.0
  {
    hide ClosedFraction, Grid;
    GridThreshold(l.pos.remaining, l.entryVolume, l.symbol.step);
  }

  lemma {:induction false} ZeroProduct(a: real, b: real)
    requires a * b == 0.0 && b > 0.0
    ensures a == 0.0
  {
  }

  lemma {:induction false} RoundSteps(symbol: Symbol, k: int)
    ensures RoundVolume(symbol, StepVolume(k, symbol.step) as real) == StepVolume(k, symbol.step)
  {
    hide RoundHalfEven;
    assert StepVolume(k, symbol.step) as real == k as real * symbol.step as real;
    assert k as real * symbol.step as real / symbol.step as real == k as real;
    RoundWhole(k);
  }

  /** A full-close request asks for exactly what is left. */
  lemma {:induction false} RequestIsExact(l: Live)
    requires Whole(l)
    ensures RemainingVolume(l) == Left(l) >= 0
    ensures RemainingVolume(l) > 0 <==> l.pos.remaining > 0.0
  {
    hide ClosedFraction, WholeSteps, RoundVolume, StepVolume;
    var k: int :| VolumeOf(l.pos.remaining, l.entryVolume) == StepVolume(k, l.symbol.step) as real;
    var x := VolumeOf(l.pos.remaining, l.entryVolume);
    RoundSteps(l.symbol, k);
    LeftSign(l.pos.remaining, l.entryVolume as real);
    assert RemainingVolume(l) == RoundVolume(l.symbol, x) == StepVolume(k, l.symbol.step);
    assert Left(l) == x.Floor == StepVolume(k, l.symbol.step);
    assert x == StepVolume(k, l.symbol.step) as real == l.pos.remaining * l.entryVolume as real;
    assert StepVolume(k, l.symbol.step) > 0 <==> x > 0.0;
  }

  lemma {:induction false} LeftSign(a: real, n: real)
    requires a >= 0.0 && n > 0.0
    ensures a * n >= 0.0 && (a * n > 0.0 <==> a > 0.0)
  {
  }

  /** A partial close never asks for more than is left, nor for less than the broker trades. */
  lemma {:induction false} PartialIsWithin(l: Live, fraction: real)
    requires Whole(l)
    ensures var v := FractionVolume(l, fraction); v == 0 || l.symbol.min <= v <= Left(l)
  {
    hide Whole, RoundVolume;
    RequestIsExact(l);
  }

  // ----- the desk -----

  ghost predicate AllWhole(s: Desk) {
    forall pid :: pid in s.positions ==> Whole(s.positions[pid])
  }

  /** Exactly the positions with nothing left await their finalisation, once each. */
  ghost predicate AwaitingOnce(s: Desk) {
    && (forall pid :: s.awaiting[pid] <= 1)
    && (forall pid :: s.awaiting[pid] > 0 <==> pid in s.positions && s.positions[pid].pos.remaining == 0.0)
  }

  /** At most one full close in flight per position, and only while the guard is set. */
  ghost predicate OneInFlight(s: Desk) {
    && (forall pid :: s.inFlight[pid] <= 1)
    && (forall pid :: s.inFlight[pid] > 0 && pid in s.positions ==> pid in s.closingFull)
    && (forall pid :: pid in s.closingFull ==> pid in s.positions)
  }

  /** Every position is finalised at most once, and never while it is live. */
  ghost predicate BookedOnce(s: Desk) {
    && (forall i, j :: 0 <= i < j < |s.log| ==> s.log[i].pid != s.log[j].pid)
    && (forall i :: 0 <= i < |s.log| ==> s.log[i].pid !in s.positions)
    && s.closes == |s.log| && s.entries == s.closes + |s.positions|
  }

  /** Each target is requested at most once per position. */
  ghost predicate TargetsOnce(s: Desk) {
    && (forall i, j :: 0 <= i < j < |s.partials| ==>
          s.partials[i].pid != s.partials[j].pid || s.partials[i].target != s.partials[j].target)
    && (forall i :: 0 <= i < |s.partials| && s.partials[i].pid in s.positions ==>
          s.partials[i].target in s.positions[s.partials[i].pid].requested)
    && (forall i :: 0 <= i < |s.partials| ==> s.partials[i].pid in s.positions || LoggedPid(s.log, s.partials[i].pid))
  }

  ghost predicate LoggedPid(log: seq<Booking>, pid: nat) {
    exists b :: b in log && b.pid == pid
  }

  /** Nets booked without a balance to match them against. */
  function Unmatched(log: seq<Booking>, n: nat): real
    requires n <= |log|
  {
    if n == 0 then 0.0 else Unmatched(log, n - 1) + if log[n - 1].matched then 0.0 else log[n - 1].net
  }

  /** The guard's balance is the last real balance plus every unmatched net. */
  ghost predicate Reconciled(s: Desk) {
    s.lastReal.Some? && s.guard.balance == s.lastReal.value + Unmatched(s.log, |s.log|)
  }

  ghost predicate Kept(s: Desk) {
    AllWhole(s) && AwaitingOnce(s) && OneInFlight(s) && BookedOnce(s) && TargetsOnce(s) && Reconciled(s)
  }

  /** Replacing a live position by one with the same remainder. */
  ghost predicate SameRemainder(s: Desk, t: Desk, pid: nat) {
    && pid in s.positions && pid in t.positions
    && t == s.(positions := s.positions[pid := t.positions[pid]])
    && Whole(t.positions[pid]) && t.positions[pid].pos.remaining == s.positions[pid].pos.remaining
    && s.positions[pid].requested <= t.positions[pid].requested
  }

  lemma {:induction false} ReplaceKeeps(s: Desk, t: Desk, pid: nat)
    requires Kept(s) && SameRemainder(s, t, pid)
    ensures Kept(t)
  {
    hide Whole, Unmatched, LoggedPid, TargetsOnce, BookedOnce;
    ReplaceBooks(s, t, pid);
    ReplaceTargets(s, t, pid);
  }

  lemma {:induction false} ReplaceBooks(s: Desk, t: Desk, pid: nat)
    requires BookedOnce(s) && SameRemainder(s, t, pid)
    ensures BookedOnce(t)
  {
    hide Whole;
    SameSize(s.positions, pid, t.positions[pid]);
  }

  lemma {:induction false} ReplaceTargets(s: Desk, t: Desk, pid: nat)
    requires TargetsOnce(s) && SameRemainder(s, t, pid)
    ensures TargetsOnce(t)
  {
    hide Whole, LoggedPid;
  }

  lemma {:induction false} SameSize(m: map<nat, Live>, pid: nat, l: Live)
    requires pid in m
    ensures |m[pid := l]| == |m|
  {
    assert m[pid := l].Keys == m.Keys;
  }

  lemma {:induction false} OneMore(m: map<nat, Live>, pid: nat, l: Live)
    requires pid !in m
    ensures |m[pid := l]| == |m| + 1
  {
    assert m[pid := l].Keys == m.Keys + {pid};
  }

  lemma {:induction false} OneLess(m: map<nat, Live>, pid: nat)
    requires pid in m
    ensures |m - {pid}| == |m| - 1
  {
    assert (m - {pid}).Keys == m.Keys - {pid};
  }

  lemma {:induction false} RegisterKeeps(s: Desk, pid: nat, l: Live)
    requires Kept(s) && Possible(s, Registered(pid, l))
    ensures Kept(Register(s, pid, l))
  {
    hide AllWhole, AwaitingOnce, OneInFlight, BookedOnce, TargetsOnce, Unmatched, NewLive, Register;
    RegisterJoins(s, pid, l);
    RegisterBalance(s, pid, l);
    RegisterBooks(s, pid, l);
    RegisterTargets(s, pid, l);
  }

  lemma {:induction false} RegisterBalance(s: Desk, pid: nat, l: Live)
    requires Reconciled(s)
    ensures Reconciled(Register(s, pid, l))
  {
    hide Unmatched;
  }

  lemma {:induction false} RegisterJoins(s: Desk, pid: nat, l: Live)
    requires AllWhole(s) && AwaitingOnce(s) && OneInFlight(s) && NewLive(l)
    requires pid !in s.positions && s.awaiting[pid] == 0 && s.inFlight[pid] == 0 && pid !in s.closingFull
    ensures var t := Register(s, pid, l);
            AllWhole(t) && AwaitingOnce(t) && OneInFlight(t)
  {
    hide Whole, NewLive;
    NewIsWhole(l);
    NewHasRemainder(l);
  }

  lemma {:induction false} RegisterBooks(s: Desk, pid: nat, l: Live)
    requires BookedOnce(s) && pid !in s.positions && forall b :: b in s.log ==> b.pid != pid
    ensures BookedOnce(Register(s, pid, l))
  {
    OneMore(s.positions, pid, l);
    assert forall i :: 0 <= i < |s.log| ==> s.log[i] in s.log;
  }

  lemma {:induction false} RegisterTargets(s: Desk, pid: nat, l: Live)
    requires TargetsOnce(s) && pid !in s.positions && forall r :: r in s.partials ==> r.pid != pid
    ensures TargetsOnce(Register(s, pid, l))
  {
    hide LoggedPid;
    assert forall i :: 0 <= i < |s.partials| ==> s.partials[i] in s.partials;
  }

  lemma {:induction false} NewHasRemainder(l: Live)
    requires NewLive(l)
    ensures l.pos.remaining == 1.0
  {
  }

  lemma {:induction false} FillKeeps(s: Desk, pid: nat, order: int, price: real, volume: Option<int>, ts: int)
    requires Kept(s) && Possible(s, Filled(pid, order, price, volume, ts))
    ensures Kept(OnFill(s, pid, order, price, volume, ts))
  {
    hide Whole, FilledFraction, Classify, Unmatched, LoggedPid, OneInFlight, BookedOnce, TargetsOnce, Reconciled;
    if pid in s.positions {
      var l := s.positions[pid];
      if IsOpening(l, order) {
        OpeningKeepsWhole(l, order, price, volume);
        ReplaceKeeps(s, OnFill(s, pid, order, price, volume, ts), pid);
      } else if FilledFraction(l, volume) > 0.0 {
        FillKeepsWhole(l, price, volume, ts);
        FillLeaves(l, volume);
        var l1 := CloseFill(l, price, FilledFraction(l, volume), ts);
        ThresholdIsZero(l1);
        var t := OnFill(s, pid, order, price, volume, ts);
        assert t.positions == s.positions[pid := l1];
        CloseFillRest(s, t, pid, l1);
      }
    }
  }

  /** A close fill touches one position and possibly the finalisations. */
  lemma {:induction false} CloseFillRest(s: Desk, t: Desk, pid: nat, l1: Live)
    requires pid in s.positions && l1.requested == s.positions[pid].requested
    requires t == s.(positions := s.positions[pid := l1], awaiting := t.awaiting)
    ensures OneInFlight(s) ==> OneInFlight(t)
    ensures BookedOnce(s) ==> BookedOnce(t)
    ensures TargetsOnce(s) ==> TargetsOnce(t)
    ensures Reconciled(s) ==> Reconciled(t)
  {
    hide Unmatched, LoggedPid;
    SameSize(s.positions, pid, l1);
  }

  lemma {:induction false} RequestTargetsKeeps(s: Desk, pid: nat, i: nat, price: real)
    requires Kept(s) && pid in s.positions && i <= |s.positions[pid].pos.plan.tps|
    ensures Kept(RequestTargets(s, pid, i, price))
    decreases |s.positions[pid].pos.plan.tps| - i
  {
    hide Kept, FractionVolume, Managed.TargetReached;
    var l := s.positions[pid];
    if i < |l.pos.plan.tps| {
      if i in l.requested || !l.pos.TargetReached(i, price, price) {
        RequestTargetsKeeps(s, pid, i + 1, price);
      } else {
        var volume := FractionVolume(l, l.pos.plan.tps[i].fraction);
        var noted := s.(positions := s.positions[pid := l.(requested := l.requested + {i})]);
        NotedKeeps(s, pid, i, volume);
        RequestTargetsKeeps(if volume <= 0 then noted else noted.(partials := s.partials + [Partial(pid, i, volume)]),
                            pid, i + 1, price);
      }
    }
  }

  lemma {:induction false} NotedKeeps(s: Desk, pid: nat, i: nat, volume: int)
    requires Kept(s) && pid in s.positions && i !in s.positions[pid].requested
    ensures var l := s.positions[pid];
            var noted := s.(positions := s.positions[pid := l.(requested := l.requested + {i})]);
            Kept(noted) && Kept(noted.(partials := s.partials + [Partial(pid, i, volume)]))
  {
    hide ClosedFraction, Unmatched, AwaitingOnce, OneInFlight, BookedOnce, Reconciled, AllWhole;
    var l := s.positions[pid];
    var noted := s.(positions := s.positions[pid := l.(requested := l.requested + {i})]);
    WholeAt(s, pid);
    assert Whole(noted.positions[pid]);
    ReplaceKeeps(s, noted, pid);
    LogUnread(noted, noted.(partials := s.partials + [Partial(pid, i, volume)]));
  }

  lemma {:induction false} WholeAt(s: Desk, pid: nat)
    requires Kept(s) && pid in s.positions
    ensures Whole(s.positions[pid])
  {
  }

  lemma {:induction false} LogUnread(s: Desk, t: Desk)
    requires t == s.(partials := t.partials)
    ensures AllWhole(s) ==> AllWhole(t)
    ensures AwaitingOnce(s) ==> AwaitingOnce(t)
    ensures OneInFlight(s) ==> OneInFlight(t)
    ensures BookedOnce(s) ==> BookedOnce(t)
    ensures Reconciled(s) ==> Reconciled(t)
  {
    hide Whole, Unmatched;
  }

  lemma {:induction false} PricedKeeps(s: Desk, pid: nat, price: real)
    requires Kept(s)
    ensures Kept(Priced(s, pid, price))
  {
    hide Kept, RequestTargets, Managed.Restopped, Managed.Excursed;
    if pid in s.positions && s.positions[pid].pos.open {
      var l := s.positions[pid];
      var moved := s.(positions := s.positions[pid := l.(pos := l.pos.Excursed(price).Restopped())]);
      WholeAt(s, pid);
      MovedIsWhole(l, price);
      ReplaceKeeps(s, moved, pid);
      if l.clientManaged { RequestTargetsKeeps(moved, pid, 0, price); }
    }
  }

  lemma {:induction false} MovedIsWhole(l: Live, price: real)
    requires Whole(l)
    ensures var m := l.(pos := l.pos.Excursed(price).Restopped());
            Whole(m) && m.pos.remaining == l.pos.remaining
  {
    hide ClosedFraction, Managed.Restopped;
    PaperLaws.RestopOnlyTightens(l.pos.Excursed(price));
  }

  lemma {:induction false} RequestKeeps(s: Desk, pid: nat)
    requires Kept(s)
    ensures Kept(RequestFullClose(s, pid))
  {
    hide AllWhole, AwaitingOnce, BookedOnce, TargetsOnce, Unmatched, RemainingVolume;
    var t := RequestFullClose(s, pid);
    if Closable(s, pid) {
      assert s.inFlight[pid] == 0;
      FlightUnread(s, t);
    }
  }

  lemma {:induction false} FlightUnread(s: Desk, t: Desk)
    requires t == s.(inFlight := t.inFlight, closingFull := t.closingFull)
    ensures AllWhole(s) ==> AllWhole(t)
    ensures AwaitingOnce(s) ==> AwaitingOnce(t)
    ensures BookedOnce(s) ==> BookedOnce(t)
    ensures TargetsOnce(s) ==> TargetsOnce(t)
  {
    hide Whole, LoggedPid;
  }

  lemma {:induction false} CandleKeeps(s: Desk, pid: nat)
    requires Kept(s)
    ensures Kept(Candle(s, pid))
  {
    hide Kept, RequestFullClose, ClosedFraction;
    if pid in s.positions && s.positions[pid].pos.open {
      var l := s.positions[pid];
      var older := l.(pos := l.pos.(bars := l.pos.bars + 1));
      var s1 := s.(positions := s.positions[pid := older]);
      WholeAt(s, pid);
      assert Whole(older);
      ReplaceKeeps(s, s1, pid);
      RequestKeeps(s1, pid);
    }
  }

  lemma {:induction false} AnsweredKeeps(s: Desk, pid: nat, ok: bool)
    requires Kept(s) && s.inFlight[pid] > 0
    ensures Kept(Answered(s, pid, ok))
  {
    hide AllWhole, AwaitingOnce, BookedOnce, TargetsOnce, Unmatched;
    FlightUnread(s, Answered(s, pid, ok));
  }

  lemma {:induction false} UnmatchedAppend(log: seq<Booking>, b: Booking)
    ensures Unmatched(log + [b], |log| + 1) == Unmatched(log, |log|) + if b.matched then 0.0 else b.net
  {
    UnmatchedPrefix(log, log + [b], |log|);
  }

  lemma {:induction false} UnmatchedPrefix(a: seq<Booking>, b: seq<Booking>, n: nat)
    requires n <= |a| && n <= |b| && forall i :: 0 <= i < n ==> a[i] == b[i]
    ensures Unmatched(a, n) == Unmatched(b, n)
  {
    if n > 0 { UnmatchedPrefix(a, b, n - 1); }
  }

  /** Finalising a fully closed position removes it and books it once; the guard moves by the
      balance delta, or by a net that stays unmatched. */
  lemma {:induction false} FinalizeKeeps(s: Desk, pid: nat, accounting: Option<Accounting>, modelled: real)
    requires Kept(s) && s.awaiting[pid] > 0
    ensures Kept(Finalize(s, pid, accounting, modelled))
  {
    hide Whole, Finalize, AllWhole, AwaitingOnce, OneInFlight, BookedOnce, TargetsOnce, Reconciled;
    FinalizeLeaves(s, pid, accounting, modelled);
    FinalizeBooks(s, pid, accounting, modelled);
    FinalizeReconciles(s, pid, accounting, modelled);
    FinalizeTargets(s, pid, accounting, modelled);
  }

  lemma {:induction false} FinalizeLeaves(s: Desk, pid: nat, accounting: Option<Accounting>, modelled: real)
    requires AllWhole(s) && AwaitingOnce(s) && OneInFlight(s) && s.awaiting[pid] > 0
    ensures var t := Finalize(s, pid, accounting, modelled);
            AllWhole(t) && AwaitingOnce(t) && OneInFlight(t)
  {
    hide Whole, NetOf, Guard.Realized;
  }

  lemma {:induction false} FinalizeBooks(s: Desk, pid: nat, accounting: Option<Accounting>, modelled: real)
    requires BookedOnce(s) && AwaitingOnce(s) && s.awaiting[pid] > 0
    ensures BookedOnce(Finalize(s, pid, accounting, modelled))
  {
    hide NetOf, Guard.Realized;
    OneLess(s.positions, pid);
  }

  lemma {:induction false} FinalizeReconciles(s: Desk, pid: nat, accounting: Option<Accounting>, modelled: real)
    requires Reconciled(s)
    ensures Reconciled(Finalize(s, pid, accounting, modelled))
  {
    hide Guard.Checked, Unmatched;
    var t := Finalize(s, pid, accounting, modelled);
    var net := NetOf(s, accounting, modelled);
    UnmatchedAppend(s.log, t.log[|s.log|]);
    PaperLaws.RealizedBalance(s.guard, net);
  }

  lemma {:induction false} FinalizeTargets(s: Desk, pid: nat, accounting: Option<Accounting>, modelled: real)
    requires TargetsOnce(s)
    ensures TargetsOnce(Finalize(s, pid, accounting, modelled))
  {
    hide Guard.Realized, NetOf;
    var t := Finalize(s, pid, accounting, modelled);
    assert t.log[|s.log|].pid == pid && t.log[|s.log|] in t.log;
    forall i | 0 <= i < |s.partials| && s.partials[i].pid !in t.positions ensures LoggedPid(t.log, s.partials[i].pid) {
      if s.partials[i].pid != pid {
        var b :| b in s.log && b.pid == s.partials[i].pid;
        assert b in t.log;
      }
    }
  }

  lemma {:induction false} GuardKeeps(s: Desk, g: Guard)
    requires Kept(s) && g.balance == s.guard.balance
    ensures Kept(s.(guard := g))
  {
    hide Whole, Unmatched, LoggedPid;
  }

  /** Over every possible interleaving: legs and remainders make one whole, the remainder stays
      in [0, 1], at most one full close is in flight per position, each position is finalised
      at most once, each target is requested at most once, and the guard's balance is the last
      real balance plus the nets no balance was reported for. */
  lemma {:induction false} RunKeeps(config: Config, balance: real, es: seq<BrokerProtocol.Event>, n: nat)
    requires n <= |es|
    requires forall i :: 0 <= i < n ==> Possible(BrokerProtocol.Run(Started(config, Some(balance)), es, i), es[i])
    ensures Kept(BrokerProtocol.Run(Started(config, Some(balance)), es, n))
  {
    hide Kept, Possible, BrokerProtocol.Step;
    var s0 := Started(config, Some(balance));
    if n == 0 {
      StartedKept(config, balance);
    } else {
      RunKeeps(config, balance, es, n - 1);
      StepKeeps(BrokerProtocol.Run(s0, es, n - 1), es[n - 1]);
    }
  }

  lemma {:induction false} StepKeeps(s: Desk, e: BrokerProtocol.Event)
    requires Kept(s) && Possible(s, e)
    ensures Kept(BrokerProtocol.Step(s, e))
  {
    hide Kept, Possible, Submit, Register, OnFill, Priced, Candle, FlattenAll, Answered, Finalize, Guard.Floating,
      RiskGuards.Step;
    match e
    case Submitted(key, ticket) => SubmitKeeps(s, key, ticket);
    case Refused(key) => PendingUnread(s, Refuse(s, key));
    case Registered(pid, l) => RegisterKeeps(s, pid, l);
    case Filled(pid, order, price, volume, ts) => FillKeeps(s, pid, order, price, volume, ts);
    case PriceUpdate(pid, price) => PricedKeeps(s, pid, price);
    case CandleClosed(pid) => CandleKeeps(s, pid);
    case Flatten(only) => FlattenAllKeeps(s, only);
    case CloseAnswered(pid, ok) =>
      Outstanding(s, e);
      AnsweredKeeps(s, pid, ok);
    case Finalized(pid, accounting, modelled) =>
      Outstanding(s, e);
      FinalizeKeeps(s, pid, accounting, modelled);
    case FloatingUpdate(pnl) =>
      PaperLaws.RealizedBalance(s.guard, pnl);
      GuardKeeps(s, s.guard.Floating(pnl));
    case DayCheck(current, clock) =>
      ResetBalance(s.guard, current, clock);
      GuardKeeps(s, RiskGuards.Step(s.guard, CheckReset(current, clock)));
  }

  lemma {:induction false} SubmitKeeps(s: Desk, key: PaperBook.Key, ticket: Ticket)
    requires Kept(s)
    ensures Kept(Submit(s, key, ticket))
  {
    hide Kept, Guard.Checked, Takes;
    var checked := s.(guard := s.guard.Checked());
    PaperLaws.RealizedBalance(s.guard, 0.0);
    GuardKeeps(s, s.guard.Checked());
    PendingUnread(checked, checked.(pending := s.pending + multiset{key}));
  }

  lemma {:induction false} PendingUnread(s: Desk, t: Desk)
    requires Kept(s) && t == s.(pending := t.pending)
    ensures Kept(t)
  {
    hide Whole, Unmatched, LoggedPid;
  }

  lemma {:induction false} Outstanding(s: Desk, e: BrokerProtocol.Event)
    requires Possible(s, e)
    ensures e.CloseAnswered? ==> s.inFlight[e.pid] > 0
    ensures e.Finalized? ==> s.awaiting[e.pid] > 0
  {
  }

  lemma {:induction false} ResetBalance(g: Guard, current: Option<int>, clock: int)
    ensures RiskGuards.Step(g, CheckReset(current, clock)).balance == g.balance
  {
  }

  lemma {:induction false} StartedKept(config: Config, balance: real)
    ensures Kept(Started(config, Some(balance)))
  {
  }

  /** A position with nothing left never comes back: every later fill for it is ignored. */
  lemma {:induction false} NothingAfterZero(s: Desk, pid: nat, order: int, price: real, volume: Option<int>, ts: int)
    requires Kept(s) && s.awaiting[pid] > 0 && Possible(s, Filled(pid, order, price, volume, ts))
    ensures OnFill(s, pid, order, price, volume, ts) == s
  {
    hide ClosedFraction, BookedOnce, TargetsOnce, Reconciled, OneInFlight;
    WholeAt(s, pid);
    FillLeaves(s.positions[pid], volume);
  }

  /** Flattening requests one full close for every closable position and no other. */
  lemma {:induction false} FlattenAllKeeps(s: Desk, only: Option<string>)
    requires Kept(s)
    ensures Kept(FlattenAll(s, only))
  {
    hide AllWhole, AwaitingOnce, BookedOnce, TargetsOnce, Unmatched, RemainingVolume;
    FlightUnread(s, FlattenAll(s, only));
  }
}
