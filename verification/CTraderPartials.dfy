/** How much the client-managed targets of one position can ask the broker to close in all. */
module BrokerPartials {
  import opened Prelude
  import opened ExitPlans
  import opened ExitEngine
  import opened RiskGuards
  import opened PositionSizing
  import opened PaperBook
  import opened BrokerProtocol
  import opened BrokerLaws
  import opened BrokerKeys
  import opened BrokerRetries

  /** Volume requested for one position by the first `n` partial closes. */
  function Asked(ps: seq<Partial>, pid: nat, n: nat): int
    requires n <= |ps|
  {
    if n == 0 then 0 else Asked(ps, pid, n - 1) + if ps[n - 1].pid == pid then ps[n - 1].volume else 0
  }

  function AskedFor(s: Desk, pid: nat): int { Asked(s.partials, pid, |s.partials|) }

  /** What a fraction of the untouched position would ask for. */
  function WholeAsk(l: Live, fraction: real): int {
    var want := RoundVolume(l.symbol, VolumeOf(fraction, l.entryVolume));
    var capped := if want < l.entryVolume then want else l.entryVolume;
    if capped >= l.symbol.min then capped else 0
  }

  /** What the requested targets among the first `n` would ask for on the untouched position. */
  function Asks(l: Live, requested: set<nat>, n: nat): int
    requires n <= |l.pos.plan.tps|
  {
    if n == 0 then 0
    else Asks(l, requested, n - 1) + if n - 1 in requested then WholeAsk(l, l.pos.plan.tps[n - 1].fraction) else 0
  }

  /** What all targets together would ask for. */
  function AllAsks(l: Live, n: nat): int
    requires n <= |l.pos.plan.tps|
  {
    if n == 0 then 0 else AllAsks(l, n - 1) + WholeAsk(l, l.pos.plan.tps[n - 1].fraction)
  }

  // ----- one request -----

  lemma {:induction false} WholeAskNonNegative(l: Live, fraction: real)
    ensures WholeAsk(l, fraction) >= 0
  {
    hide RoundVolume, VolumeOf;
  }

  /** The fallback that closes a whole remainder too small to split is never taken on whole
      steps: a fraction that covers the remainder rounds to at least it. */
  lemma {:induction false} CoverRounds(l: Live, fraction: real)
    requires Whole(l) && fraction >= l.pos.remaining - DUST
    ensures RoundVolume(l.symbol, VolumeOf(fraction, l.entryVolume)) >= RemainingVolume(l)
  {
    hide ClosedFraction, WholeSteps, RoundVolume;
    var k: int :| VolumeOf(l.pos.remaining, l.entryVolume) == StepVolume(k, l.symbol.step) as real;
    RoundSteps(l.symbol, k);
    assert RemainingVolume(l) == StepVolume(k, l.symbol.step);
    DustIsNoStep(l.pos.remaining, fraction, l.entryVolume, l.symbol.step);
    RoundsUpTo(l.symbol, VolumeOf(fraction, l.entryVolume), k);
  }

  lemma {:induction false} DustIsNoStep(r: real, f: real, n: Volume, step: Volume)
    requires f >= r - DUST && n < 1_000_000 * step
    ensures VolumeOf(f, n) > VolumeOf(r, n) - 0.5 * step as real
  {
    VolumeMonotone(r - DUST, f, n);
    BrokerLaws.Distribute(r, DUST, n as real);
    assert VolumeOf(r - DUST, n) == VolumeOf(r, n) - DUST * n as real;
    assert n as real < (1_000_000 * step) as real == 1_000_000.0 * step as real;
    assert DUST * n as real <= DUST * (1_000_000.0 * step as real);
  }

  lemma {:induction false} RoundsUpTo(symbol: Symbol, volume: real, k: int)
    requires volume > StepVolume(k, symbol.step) as real - 0.5 * symbol.step as real
    ensures RoundVolume(symbol, volume) >= StepVolume(k, symbol.step)
  {
    hide RoundHalfEven;
    var step := symbol.step as real;
    var q := volume / step;
    StepQuotient(volume, step, k as real);
    RoundNearest(q);
    assert RoundHalfEven(q) as real > k as real - 1.0;
    StepsAscend(k, RoundHalfEven(q), symbol.step);
  }

  lemma {:induction false} StepQuotient(volume: real, step: real, k: real)
    requires step > 0.0 && volume > k * step - 0.5 * step
    ensures volume / step > k - 0.5
  {
    hide Times;
    var q := volume / step;
    DivideBack(volume, step);
    TimesOrder(q, k - 0.5, step);
    IsTimes(k - 0.5, step);
  }

  lemma {:induction false} IsTimes(a: real, b: real)
    ensures Times(a, b) == a * b
  {
  }

  lemma {:induction false} StepsAscend(a: int, b: int, step: Volume)
    requires a <= b
    ensures StepVolume(a, step) <= StepVolume(b, step)
  {
    assert (b - a) * step >= 0;
  }

  /** However little is left, a target asks for no more than it would of the whole position. */
  lemma {:induction false} AskShrinks(l: Live, fraction: real)
    requires Whole(l)
    ensures 0 <= FractionVolume(l, fraction) <= WholeAsk(l, fraction)
  {
    hide ClosedFraction, WholeSteps, RoundVolume, Grid;
    RequestIsExact(l);
    LeftWithin(l);
    if fraction >= l.pos.remaining - DUST { CoverRounds(l, fraction); }
  }

  lemma {:induction false} LeftWithin(l: Live)
    requires Whole(l)
    ensures Left(l) <= l.entryVolume
  {
    hide ClosedFraction, Grid, WholeSteps;
    VolumeMonotone(l.pos.remaining, 1.0, l.entryVolume);
  }

  /** Untouched, it asks for exactly that. */
  lemma {:induction false} AskOfWhole(l: Live, fraction: real)
    requires Whole(l) && l.pos.remaining == 1.0
    ensures FractionVolume(l, fraction) == WholeAsk(l, fraction)
  {
    hide ClosedFraction, WholeSteps, RoundVolume, Grid;
    RequestIsExact(l);
    if fraction >= l.pos.remaining - DUST { CoverRounds(l, fraction); }
  }

  // ----- one position -----

  /** The requests sent for a position ask for no more than its requested targets would of the
      whole; before it opens there are none. */
  ghost predicate AskedWithin(s: Desk, pid: nat) {
    pid in s.positions ==>
      var l := s.positions[pid];
      && AskedFor(s, pid) <= Asks(l, l.requested, |l.pos.plan.tps|)
      && (!l.pos.open ==> l.requested == {} && AskedFor(s, pid) == 0)
  }

  lemma {:induction false} AskedAppend(ps: seq<Partial>, p: Partial, pid: nat)
    ensures Asked(ps + [p], pid, |ps| + 1) == Asked(ps, pid, |ps|) + if p.pid == pid then p.volume else 0
  {
    AskedPrefix(ps, ps + [p], pid, |ps|);
  }

  lemma {:induction false} AskedPrefix(a: seq<Partial>, b: seq<Partial>, pid: nat, n: nat)
    requires n <= |a| && n <= |b| && forall i :: 0 <= i < n ==> a[i] == b[i]
    ensures Asked(a, pid, n) == Asked(b, pid, n)
  {
    if n > 0 { AskedPrefix(a, b, pid, n - 1); }
  }

  lemma {:induction false} NoneAsked(ps: seq<Partial>, pid: nat, n: nat)
    requires n <= |ps| && forall r :: r in ps ==> r.pid != pid
    ensures Asked(ps, pid, n) == 0
  {
    if n > 0 { NoneAsked(ps, pid, n - 1); }
  }

  /** Equal plan, volume and symbol: the targets ask for the same. */
  ghost predicate SameOffer(l: Live, m: Live) {
    m.pos.plan == l.pos.plan && m.entryVolume == l.entryVolume && m.symbol == l.symbol
  }

  lemma {:induction false} SameAsks(l: Live, m: Live, requested: set<nat>, n: nat)
    requires SameOffer(l, m) && n <= |l.pos.plan.tps|
    ensures Asks(m, requested, n) == Asks(l, requested, n) && AllAsks(m, n) == AllAsks(l, n)
  {
    hide RoundVolume;
    if n > 0 { SameAsks(l, m, requested, n - 1); }
  }

  lemma {:induction false} OneMoreAsk(l: Live, requested: set<nat>, i: nat, n: nat)
    requires n <= |l.pos.plan.tps| && i < |l.pos.plan.tps| && i !in requested
    ensures Asks(l, requested + {i}, n) ==
              Asks(l, requested, n) + if i < n then WholeAsk(l, l.pos.plan.tps[i].fraction) else 0
  {
    hide WholeAsk;
    if n > 0 { OneMoreAsk(l, requested, i, n - 1); }
  }

  lemma {:induction false} AsksWithinAll(l: Live, requested: set<nat>, n: nat)
    requires n <= |l.pos.plan.tps|
    ensures 0 <= Asks(l, requested, n) <= AllAsks(l, n)
  {
    if n > 0 {
      AsksWithinAll(l, requested, n - 1);
      WholeAskNonNegative(l, l.pos.plan.tps[n - 1].fraction);
    }
  }

  lemma {:induction false} TargetsAsk(s: Desk, other: nat, i: nat, price: real, pid: nat)
    requires Kept(s) && other in s.positions && i <= |s.positions[other].pos.plan.tps|
    requires s.positions[other].pos.open && AskedWithin(s, pid)
    ensures AskedWithin(RequestTargets(s, other, i, price), pid)
    decreases |s.positions[other].pos.plan.tps| - i
  {
    hide Kept, AskedWithin, FractionVolume, Managed.TargetReached;
    var l := s.positions[other];
    if i < |l.pos.plan.tps| {
      if i in l.requested || !l.pos.TargetReached(i, price, price) {
        TargetsAsk(s, other, i + 1, price, pid);
      } else {
        var volume := FractionVolume(l, l.pos.plan.tps[i].fraction);
        var noted := s.(positions := s.positions[other := l.(requested := l.requested + {i})]);
        NotedKeeps(s, other, i, volume);
        TargetNoted(s, other, i, pid);
        TargetsAsk(if volume <= 0 then noted else noted.(partials := s.partials + [Partial(other, i, volume)]),
                   other, i + 1, price, pid);
      }
    }
  }

  lemma {:induction false} TargetNoted(s: Desk, other: nat, i: nat, pid: nat)
    requires Kept(s) && AskedWithin(s, pid) && other in s.positions && s.positions[other].pos.open
    requires i < |s.positions[other].pos.plan.tps| && i !in s.positions[other].requested
    ensures var l := s.positions[other];
            var volume := FractionVolume(l, l.pos.plan.tps[i].fraction);
            var noted := s.(positions := s.positions[other := l.(requested := l.requested + {i})]);
            AskedWithin(if volume <= 0 then noted else noted.(partials := s.partials + [Partial(other, i, volume)]),
                        pid)
  {
    hide Kept, FractionVolume, WholeAsk, Asked, Asks;
    var l := s.positions[other];
    var fraction := l.pos.plan.tps[i].fraction;
    var n := |l.pos.plan.tps|;
    WholeAt(s, other);
    AskShrinks(l, fraction);
    AskedAppend(s.partials, Partial(other, i, FractionVolume(l, fraction)), pid);
    OneMoreAsk(l, l.requested, i, n);
    SameAsks(l, l.(requested := l.requested + {i}), l.requested + {i}, n);
  }

  // ----- whole runs -----

  lemma {:induction false} SameOfferKeeps(s: Desk, t: Desk, pid: nat)
    requires AskedWithin(s, pid) && t.partials == s.partials
    requires pid in t.positions ==>
               && pid in s.positions && SameOffer(s.positions[pid], t.positions[pid])
               && t.positions[pid].requested == s.positions[pid].requested
               && (s.positions[pid].pos.open ==> t.positions[pid].pos.open)
    ensures AskedWithin(t, pid)
  {
    hide Asked, Asks;
    if pid in t.positions {
      var l := s.positions[pid];
      SameAsks(l, t.positions[pid], l.requested, |l.pos.plan.tps|);
    }
  }

  lemma {:induction false} PricedAsks(s: Desk, other: nat, price: real, pid: nat)
    requires Kept(s) && AskedWithin(s, pid)
    ensures AskedWithin(Priced(s, other, price), pid)
  {
    hide Kept, RequestTargets, Managed.Restopped, AskedWithin;
    if other in s.positions && s.positions[other].pos.open {
      var l := s.positions[other];
      var moved := s.(positions := s.positions[other := l.(pos := l.pos.Excursed(price).Restopped())]);
      WholeAt(s, other);
      MovedIsWhole(l, price);
      ReplaceKeeps(s, moved, other);
      PaperLaws.RestopOnlyTightens(l.pos.Excursed(price));
      SameOfferKeeps(s, moved, pid);
      if l.clientManaged { TargetsAsk(moved, other, 0, price, pid); }
    }
  }

  lemma {:induction false} FillAsks(s: Desk, other: nat, order: int, price: real, volume: Option<int>, ts: int,
        pid: nat)
    requires AskedWithin(s, pid) && Possible(s, Filled(other, order, price, volume, ts))
    ensures AskedWithin(OnFill(s, other, order, price, volume, ts), pid)
  {
    hide FilledFraction, Classify, Asked, Asks, WholeSteps;
    var t := OnFill(s, other, order, price, volume, ts);
    if other == pid && pid in s.positions && IsOpening(s.positions[pid], order) {
      AsksWithinAll(t.positions[pid], {}, |t.positions[pid].pos.plan.tps|);
    } else {
      SameOfferKeeps(s, t, pid);
    }
  }

  lemma {:induction false} AskedStep(s: Desk, e: BrokerProtocol.Event, pid: nat)
    requires Kept(s) && AskedWithin(s, pid) && Possible(s, e)
    ensures AskedWithin(BrokerProtocol.Step(s, e), pid)
  {
    hide Kept, AskedWithin, OnFill, Priced, Closable, Flattened, NetOf, Guard.Realized, Guard.Floating,
      RiskGuards.Step, SameOffer;
    var t := BrokerProtocol.Step(s, e);
    match e
    case Registered(other, l) => RegisteredAsks(s, other, l, pid);
    case Filled(other, order, price, volume, ts) => FillAsks(s, other, order, price, volume, ts, pid);
    case PriceUpdate(other, price) => PricedAsks(s, other, price, pid);
    case _ =>
      OfferKept(s, e, pid);
      SameOfferKeeps(s, t, pid);
  }

  /** Nothing asked for, and the position's offer as before, if it is still live. */
  ghost predicate OfferSame(s: Desk, t: Desk, pid: nat) {
    && t.partials == s.partials
    && (pid in t.positions ==>
          && pid in s.positions && SameOffer(s.positions[pid], t.positions[pid])
          && t.positions[pid].requested == s.positions[pid].requested
          && (s.positions[pid].pos.open ==> t.positions[pid].pos.open))
  }

  lemma {:induction false} OfferKept(s: Desk, e: BrokerProtocol.Event, pid: nat)
    requires !e.Registered? && !e.Filled? && !e.PriceUpdate?
    ensures OfferSame(s, BrokerProtocol.Step(s, e), pid)
  {
    hide OnFill, Priced, Register, Finalize, Candle, FlattenAll, Submit, Refuse, Answered, Guard.Floating,
      RiskGuards.Step, OfferSame;
    match e
    case CandleClosed(other) => CandleKeepsOffer(s, other, pid);
    case Finalized(other, accounting, modelled) => FinalizeKeepsOffer(s, other, accounting, modelled, pid);
    case _ =>
      PositionsUntouched(s, e);
      OfferReflexive(s, BrokerProtocol.Step(s, e), pid);
  }

  lemma {:induction false} PositionsUntouched(s: Desk, e: BrokerProtocol.Event)
    requires !e.Registered? && !e.Filled? && !e.PriceUpdate? && !e.CandleClosed? && !e.Finalized?
    ensures var t := BrokerProtocol.Step(s, e);
            t.positions == s.positions && t.partials == s.partials && t.log == s.log
  {
    hide OnFill, Priced, Register, Finalize, Candle, FlattenAll, Submit, Guard.Floating, RiskGuards.Step;
    match e
    case Submitted(key, ticket) => SubmitLeaves(s, key, ticket);
    case Flatten(only) => FlattenLeaves(s, only);
    case _ =>
  }

  lemma {:induction false} SubmitLeaves(s: Desk, key: Key, ticket: Ticket)
    ensures var t := Submit(s, key, ticket);
            t.positions == s.positions && t.partials == s.partials && t.log == s.log
  {
    hide Takes, Guard.Checked;
  }

  lemma {:induction false} FlattenLeaves(s: Desk, only: Option<string>)
    ensures var t := FlattenAll(s, only);
            t.positions == s.positions && t.partials == s.partials && t.log == s.log
  {
    hide Flattened;
  }

  lemma {:induction false} OfferReflexive(s: Desk, t: Desk, pid: nat)
    requires t.positions == s.positions && t.partials == s.partials
    ensures OfferSame(s, t, pid)
  {
  }

  lemma {:induction false} CandleKeepsOffer(s: Desk, other: nat, pid: nat)
    ensures OfferSame(s, Candle(s, other), pid)
  {
    hide Closable;
  }

  lemma {:induction false} FinalizeKeepsOffer(s: Desk, other: nat, accounting: Option<Accounting>, modelled: real,
        pid: nat)
    ensures var t := Finalize(s, other, accounting, modelled);
            && OfferSame(s, t, pid) && t.positions == s.positions - {other}
            && |t.log| == |s.log| + 1 && t.log[..|s.log|] == s.log && t.log[|s.log|].pid == other
  {
    hide NetOf, Guard.Realized;
  }

  lemma {:induction false} RegisteredAsks(s: Desk, other: nat, l: Live, pid: nat)
    requires AskedWithin(s, pid) && Possible(s, Registered(other, l))
    ensures AskedWithin(Register(s, other, l), pid)
  {
    hide Asked, Asks, WholeSteps;
    var t := Register(s, other, l);
    if other == pid {
      NoneAsked(s.partials, pid, |s.partials|);
      AsksWithinAll(l, {}, |l.pos.plan.tps|);
    } else {
      SameOfferKeeps(s, t, pid);
    }
  }

  /** Over every possible run, the partial closes ever requested for a live position total no more
      than all its targets would ask for of the whole position. */
  lemma {:induction false} RequestsStayWithinAsks(s: Desk, es: seq<BrokerProtocol.Event>, pid: nat, n: nat)
    requires n <= |es| && Kept(s) && PossibleFrom(s, es) && AskedWithin(s, pid)
    ensures var t := BrokerProtocol.Run(s, es, n);
            && Kept(t) && AskedWithin(t, pid)
            && (pid in t.positions ==> AskedFor(t, pid) <= AllAsks(t.positions[pid], |t.positions[pid].pos.plan.tps|))
  {
    hide Kept, Possible, BrokerProtocol.Step, Asked, Asks, AllAsks;
    if n > 0 {
      RequestsStayWithinAsks(s, es, pid, n - 1);
      var t := BrokerProtocol.Run(s, es, n - 1);
      StepKeeps(t, es[n - 1]);
      AskedStep(t, es[n - 1], pid);
    }
    var u := BrokerProtocol.Run(s, es, n);
    if pid in u.positions {
      var l := u.positions[pid];
      AsksWithinAll(l, l.requested, |l.pos.plan.tps|);
    }
  }

  // ----- the bound is reached -----

  /** Open, client-managed, and nothing closed or requested yet. */
  ghost predicate Untouched(s: Desk, pid: nat) {
    && pid in s.positions && AskedFor(s, pid) == 0
    && var l := s.positions[pid];
       l.pos.open && l.clientManaged && l.pos.remaining == 1.0 && l.requested == {}
  }

  ghost predicate ReachesAll(l: Live, price: real) {
    forall i :: 0 <= i < |l.pos.plan.tps| ==> l.pos.TargetReached(i, price, price)
  }

  lemma {:induction false} SomePriceReachesAll(l: Live, n: nat) returns (price: real)
    requires n <= |l.pos.plan.tps|
    ensures forall i :: 0 <= i < n ==> l.pos.TargetReached(i, price, price)
  {
    price := 0.0;
    if n > 0 {
      var most := SomePriceReachesAll(l, n - 1);
      var last := l.pos.plan.tps[n - 1].price;
      price := if l.pos.direction.Long? then Max(most, last) else Min(most, last);
      forall i | 0 <= i < n ensures l.pos.TargetReached(i, price, price) {
        if i < n - 1 { assert l.pos.TargetReached(i, most, most); }
      }
    }
  }

  lemma {:induction false} AllTargetsAsk(s: Desk, pid: nat, i: nat, price: real)
    requires Kept(s) && pid in s.positions && i <= |s.positions[pid].pos.plan.tps|
    requires var l := s.positions[pid];
             && l.pos.remaining == 1.0 && ReachesAll(l, price) && (forall k :: k in l.requested ==> k < i)
             && AskedFor(s, pid) == AllAsks(l, i)
    ensures var t := RequestTargets(s, pid, i, price);
            && pid in t.positions && SameOffer(s.positions[pid], t.positions[pid])
            && AskedFor(t, pid) == AllAsks(s.positions[pid], |s.positions[pid].pos.plan.tps|)
    decreases |s.positions[pid].pos.plan.tps| - i
  {
    hide Kept, FractionVolume, WholeAsk, Asked;
    var l := s.positions[pid];
    if i < |l.pos.plan.tps| {
      var fraction := l.pos.plan.tps[i].fraction;
      var volume := FractionVolume(l, fraction);
      var m := l.(requested := l.requested + {i});
      var noted := s.(positions := s.positions[pid := m]);
      WholeAt(s, pid);
      AskOfWhole(l, fraction);
      WholeAskNonNegative(l, fraction);
      NotedKeeps(s, pid, i, volume);
      AskedAppend(s.partials, Partial(pid, i, volume), pid);
      SameAsks(l, m, {}, i);
      SameAsks(l, m, {}, i + 1);
      SameAsks(l, m, {}, |l.pos.plan.tps|);
      AllTargetsAsk(if volume <= 0 then noted else noted.(partials := s.partials + [Partial(pid, i, volume)]),
                    pid, i + 1, price);
    }
  }

  /** One price beyond every target of an untouched position asks for all of it at once. */
  lemma {:induction false} OnePriceAsksAll(s: Desk, pid: nat, price: real)
    requires Kept(s) && Untouched(s, pid) && ReachesAll(s.positions[pid], price)
    ensures var t := Priced(s, pid, price);
            && pid in t.positions && SameOffer(s.positions[pid], t.positions[pid])
            && AskedFor(t, pid) == AllAsks(s.positions[pid], |s.positions[pid].pos.plan.tps|)
  {
    hide Kept, RequestTargets, Managed.Restopped, Asked, WholeAsk;
    var l := s.positions[pid];
    var m := l.(pos := l.pos.Excursed(price).Restopped());
    var moved := s.(positions := s.positions[pid := m]);
    WholeAt(s, pid);
    MovedIsWhole(l, price);
    ReplaceKeeps(s, moved, pid);
    PaperLaws.RestopOnlyTightens(l.pos.Excursed(price));
    SameAsks(l, m, {}, |l.pos.plan.tps|);
    assert m.pos.direction == l.pos.direction && m.pos.plan == l.pos.plan;
    forall i | 0 <= i < |m.pos.plan.tps| ensures m.pos.TargetReached(i, price, price) {
      assert l.pos.TargetReached(i, price, price);
    }
    AllTargetsAsk(moved, pid, 0, price);
  }

  /** The requests for an untouched position total more than its volume on some possible run exactly
      when its targets, each rounded to the broker's steps, already do. */
  lemma {:induction false} OverAskedIff(s: Desk, pid: nat)
    requires Kept(s) && Untouched(s, pid)
    ensures var l := s.positions[pid];
            (exists es: seq<BrokerProtocol.Event> :: PossibleFrom(s, es) && OverAsks(s, es, pid))
            <==> AllAsks(l, |l.pos.plan.tps|) > l.entryVolume
  {
    hide Kept, Asked, AllAsks, PossibleFrom, BrokerProtocol.Run, Priced, SameOffer;
    var l := s.positions[pid];
    var n := |l.pos.plan.tps|;
    if AllAsks(l, n) > l.entryVolume {
      var price := SomePriceReachesAll(l, n);
      var es := [PriceUpdate(pid, price)];
      OnePriceAsksAll(s, pid, price);
      OnePriceRun(s, es);
      SameVolumes(l, Priced(s, pid, price).positions[pid]);
      assert OverAsks(s, es, pid);
    } else {
      forall es: seq<BrokerProtocol.Event> | PossibleFrom(s, es) ensures !OverAsks(s, es, pid) {
        NeverOverAsks(s, es, pid, |es|);
      }
    }
  }

  /** At the end of the run the requests for the position exceed its volume. */
  ghost predicate OverAsks(s: Desk, es: seq<BrokerProtocol.Event>, pid: nat) {
    var t := BrokerProtocol.Run(s, es, |es|);
    pid in t.positions && AskedFor(t, pid) > t.positions[pid].entryVolume
  }

  lemma {:induction false} SameVolumes(l: Live, m: Live)
    requires SameOffer(l, m)
    ensures m.entryVolume == l.entryVolume
  {
  }

  lemma {:induction false} OnePriceRun(s: Desk, es: seq<BrokerProtocol.Event>)
    requires |es| == 1 && es[0].PriceUpdate?
    ensures PossibleFrom(s, es) && BrokerProtocol.Run(s, es, 1) == Priced(s, es[0].pid, es[0].price)
  {
    hide Priced;
    assert BrokerProtocol.Run(s, es, 0) == s;
  }

  lemma {:induction false} NeverOverAsks(s: Desk, es: seq<BrokerProtocol.Event>, pid: nat, n: nat)
    requires n <= |es| && Kept(s) && Untouched(s, pid) && PossibleFrom(s, es)
    requires AllAsks(s.positions[pid], |s.positions[pid].pos.plan.tps|) <= s.positions[pid].entryVolume
    ensures var t := BrokerProtocol.Run(s, es, n);
            pid in t.positions ==> AskedFor(t, pid) <= t.positions[pid].entryVolume
  {
    hide Kept, Asked, AllAsks, Asks, PossibleFrom, BrokerProtocol.Run;
    var l := s.positions[pid];
    AsksWithinAll(l, {}, |l.pos.plan.tps|);
    RequestsStayWithinAsks(s, es, pid, n);
    OfferStays(s, es, pid, n);
    var t := BrokerProtocol.Run(s, es, n);
    if pid in t.positions { SameAsks(l, t.positions[pid], {}, |l.pos.plan.tps|); }
  }

  /** An open position keeps its plan, volume and symbol for as long as it is live. */
  lemma {:induction false} OfferStays(s: Desk, es: seq<BrokerProtocol.Event>, pid: nat, n: nat)
    requires n <= |es| && Kept(s) && PossibleFrom(s, es) && pid in s.positions && s.positions[pid].pos.open
    ensures var t := BrokerProtocol.Run(s, es, n);
            && Kept(t)
            && (pid in t.positions ==> t.positions[pid].pos.open && SameOffer(s.positions[pid], t.positions[pid]))
            && (pid !in t.positions ==> LoggedPid(t.log, pid))
  {
    hide Kept, Possible, BrokerProtocol.Step, LoggedPid;
    if n > 0 {
      OfferStays(s, es, pid, n - 1);
      var t := BrokerProtocol.Run(s, es, n - 1);
      StepKeeps(t, es[n - 1]);
      OfferStep(t, es[n - 1], pid);
    }
  }

  lemma {:induction false} TargetsKeepOffer(s: Desk, other: nat, i: nat, price: real, pid: nat)
    requires pid in s.positions && other in s.positions && i <= |s.positions[other].pos.plan.tps|
    ensures var t := RequestTargets(s, other, i, price);
            && t.log == s.log && pid in t.positions && SameOffer(s.positions[pid], t.positions[pid])
            && t.positions[pid].pos.open == s.positions[pid].pos.open
    decreases |s.positions[other].pos.plan.tps| - i
  {
    hide FractionVolume, Managed.TargetReached;
    var l := s.positions[other];
    if i < |l.pos.plan.tps| {
      if i in l.requested || !l.pos.TargetReached(i, price, price) {
        TargetsKeepOffer(s, other, i + 1, price, pid);
      } else {
        var volume := FractionVolume(l, l.pos.plan.tps[i].fraction);
        var noted := s.(positions := s.positions[other := l.(requested := l.requested + {i})]);
        TargetsKeepOffer(if volume <= 0 then noted else noted.(partials := s.partials + [Partial(other, i, volume)]),
                         other, i + 1, price, pid);
      }
    }
  }

  /** The open position keeps its offer, or it is gone and in the log. */
  ghost predicate OfferOrLogged(s: Desk, t: Desk, pid: nat) {
    if pid in t.positions then
      pid in s.positions && t.positions[pid].pos.open && SameOffer(s.positions[pid], t.positions[pid])
    else LoggedPid(t.log, pid)
  }

  lemma {:induction false} OfferStep(s: Desk, e: BrokerProtocol.Event, pid: nat)
    requires Possible(s, e)
    requires if pid in s.positions then s.positions[pid].pos.open else LoggedPid(s.log, pid)
    ensures OfferOrLogged(s, BrokerProtocol.Step(s, e), pid)
  {
    hide Finalize, OnFill, Priced, Candle, Flattened, Guard.Floating, RiskGuards.Step, SameOffer, NewLive;
    match e
    case Registered(other, l) => RegisteredOffer(s, other, l, pid);
    case Filled(other, order, price, volume, ts) => FilledOffer(s, other, order, price, volume, ts, pid);
    case PriceUpdate(other, price) => PricedOffer(s, other, price, pid);
    case Finalized(other, accounting, modelled) => FinalizedOffer(s, other, accounting, modelled, pid);
    case _ =>
      OfferKept(s, e, pid);
      StaysLive(s, e, pid);
  }

  lemma {:induction false} StaysLive(s: Desk, e: BrokerProtocol.Event, pid: nat)
    requires !e.Registered? && !e.Filled? && !e.PriceUpdate? && !e.Finalized?
    ensures var t := BrokerProtocol.Step(s, e); t.log == s.log && t.positions.Keys == s.positions.Keys
  {
    hide OnFill, Priced, Register, Finalize, Candle, FlattenAll, Submit, Refuse, Answered, Guard.Floating,
      RiskGuards.Step;
    if e.CandleClosed? {
      CandleStaysLive(s, e.pid);
    } else {
      PositionsUntouched(s, e);
    }
  }

  lemma {:induction false} CandleStaysLive(s: Desk, pid: nat)
    ensures Candle(s, pid).log == s.log && Candle(s, pid).positions.Keys == s.positions.Keys
  {
    hide Closable;
  }

  lemma {:induction false} RegisteredOffer(s: Desk, other: nat, l: Live, pid: nat)
    requires Possible(s, Registered(other, l))
    requires if pid in s.positions then s.positions[pid].pos.open else LoggedPid(s.log, pid)
    ensures OfferOrLogged(s, Register(s, other, l), pid)
  {
    hide NewLive, LoggedPid;
    NotLogged(s.log, other);
  }

  lemma {:induction false} NotLogged(log: seq<Booking>, pid: nat)
    requires forall b :: b in log ==> b.pid != pid
    ensures !LoggedPid(log, pid)
  {
  }

  lemma {:induction false} FilledOffer(s: Desk, other: nat, order: int, price: real, volume: Option<int>, ts: int,
        pid: nat)
    requires if pid in s.positions then s.positions[pid].pos.open else LoggedPid(s.log, pid)
    ensures OfferOrLogged(s, OnFill(s, other, order, price, volume, ts), pid)
  {
    hide FilledFraction, Classify, LoggedPid;
  }

  lemma {:induction false} PricedOffer(s: Desk, other: nat, price: real, pid: nat)
    requires if pid in s.positions then s.positions[pid].pos.open else LoggedPid(s.log, pid)
    ensures OfferOrLogged(s, Priced(s, other, price), pid)
  {
    hide RequestTargets, Managed.Restopped, LoggedPid;
    if other in s.positions && s.positions[other].pos.open {
      var l := s.positions[other];
      var moved := s.(positions := s.positions[other := l.(pos := l.pos.Excursed(price).Restopped())]);
      PaperLaws.RestopOnlyTightens(l.pos.Excursed(price));
      assert OfferOrLogged(s, moved, pid);
      if l.clientManaged {
        TargetsKeepLog(moved, other, 0, price);
        if pid in s.positions { TargetsKeepOffer(moved, other, 0, price, pid); }
      }
    }
  }

  lemma {:induction false} FinalizedOffer(s: Desk, other: nat, accounting: Option<Accounting>, modelled: real, pid: nat)
    requires if pid in s.positions then s.positions[pid].pos.open else LoggedPid(s.log, pid)
    ensures OfferOrLogged(s, Finalize(s, other, accounting, modelled), pid)
  {
    hide Finalize;
    var t := Finalize(s, other, accounting, modelled);
    FinalizeKeepsOffer(s, other, accounting, modelled, pid);
    assert t.log[|s.log|] in t.log;
    assert forall b :: b in s.log ==> b in t.log;
  }

  lemma {:induction false} TargetsKeepLog(s: Desk, other: nat, i: nat, price: real)
    requires other in s.positions && i <= |s.positions[other].pos.plan.tps|
    ensures var t := RequestTargets(s, other, i, price);
            t.log == s.log && t.lastReal == s.lastReal && t.positions.Keys == s.positions.Keys
    decreases |s.positions[other].pos.plan.tps| - i
  {
    hide FractionVolume, Managed.TargetReached;
    var l := s.positions[other];
    if i < |l.pos.plan.tps| {
      if i in l.requested || !l.pos.TargetReached(i, price, price) {
        TargetsKeepLog(s, other, i + 1, price);
      } else {
        var volume := FractionVolume(l, l.pos.plan.tps[i].fraction);
        var noted := s.(positions := s.positions[other := l.(requested := l.requested + {i})]);
        TargetsKeepLog(if volume <= 0 then noted else noted.(partials := s.partials + [Partial(other, i, volume)]),
                       other, i + 1, price);
      }
    }
  }

  // ----- when the targets fit -----

  lemma {:induction false} WholeStepAsk(l: Live, fraction: real)
    requires Grid(fraction, l.entryVolume, l.symbol.step) && fraction >= 0.0
    ensures WholeAsk(l, fraction) as real <= VolumeOf(fraction, l.entryVolume)
  {
    hide RoundVolume;
    var k: int :| VolumeOf(fraction, l.entryVolume) == StepVolume(k, l.symbol.step) as real;
    RoundSteps(l.symbol, k);
    VolumeMonotone(0.0, fraction, l.entryVolume);
  }

  /** Targets of whole volume steps that share out at most the whole position ask for at most it. */
  lemma {:induction false} WholeStepsFit(l: Live, n: nat)
    requires n <= |l.pos.plan.tps|
    requires forall i :: 0 <= i < n ==>
               l.pos.plan.tps[i].fraction >= 0.0 && Grid(l.pos.plan.tps[i].fraction, l.entryVolume, l.symbol.step)
    ensures AllAsks(l, n) as real <= VolumeOf(FractionSum(l.pos.plan.tps, n), l.entryVolume)
  {
    hide Grid, WholeAsk, VolumeOf;
    if n > 0 {
      WholeStepsFit(l, n - 1);
      WholeStepAsk(l, l.pos.plan.tps[n - 1].fraction);
      VolumeAdds(FractionSum(l.pos.plan.tps, n - 1), l.pos.plan.tps[n - 1].fraction, l.entryVolume);
    } else {
      assert VolumeOf(0.0, l.entryVolume) == 0.0 by { NoVolume(l.entryVolume); }
    }
  }

  lemma {:induction false} NoVolume(n: Volume)
    ensures VolumeOf(0.0, n) == 0.0
  {
  }

  lemma {:induction false} VolumeAdds(a: real, b: real, n: Volume)
    ensures VolumeOf(a + b, n) == VolumeOf(a, n) + VolumeOf(b, n)
  {
  }

  /** Two halves of three units ask for four. */
  lemma {:induction false} HalvesOfThree(l: Live)
    requires l.entryVolume == 3 && l.symbol == Symbol(1, 1)
    requires |l.pos.plan.tps| == 2 && l.pos.plan.tps[0].fraction == l.pos.plan.tps[1].fraction == 0.5
    ensures AllAsks(l, 2) == 4
  {
    assert RoundHalfEven(1.5) == 2;
    assert WholeAsk(l, 0.5) == 2;
    assert AllAsks(l, 1) == AllAsks(l, 0) + 2;
  }

  const HALF_PLAN := ExitPlan(Long, 10.0, 5.0, [TakeProfit(20.0, 0.5), TakeProfit(30.0, 0.5)], 2.0, None)

  /** A pending client-managed position of three units with two half targets. */
  function Halves(): Live {
    Live(KEY, 7, 3, Opened(Long, 10.0, HALF_PLAN).(open := false), true, {}, Symbol(1, 1))
  }

  function HalvesOpen(): Live { Halves().(pos := Halves().pos.(open := true)) }

  /** One signal, its fill at ten, and a price that reaches both targets. */
  function HalvesHit(ticket: Ticket): seq<BrokerProtocol.Event> {
    [Submitted(KEY, ticket), Registered(0, Halves()), Filled(0, 7, 10.0, None, 0), PriceUpdate(0, 30.0)]
  }

  lemma {:induction false} HalvesAreNew()
    ensures NewLive(Halves()) && Halves().key == KEY && AllAsks(HalvesOpen(), 2) == 4
  {
    assert 3 == StepVolume(3, 1);
    HalvesOfThree(HalvesOpen());
  }

  lemma {:induction false} HalvesFill(s: Desk)
    requires s.positions == map[0 := Halves()]
    ensures var e := Filled(0, 7, 10.0, None, 0);
            Possible(s, e) && BrokerProtocol.Step(s, e) == s.(positions := map[0 := HalvesOpen()])
  {
  }

  /** After the first three events the position is open and nothing has been requested. */
  lemma {:induction false} HalvesEntered(config: Config, balance: real, ticket: Ticket)
    requires StartTakes(config, balance, ticket)
    ensures var (s0, es) := (Started(config, Some(balance)), HalvesHit(ticket));
            var s := BrokerProtocol.Run(s0, es, 3);
            && (forall i :: 0 <= i < 3 ==> Possible(BrokerProtocol.Run(s0, es, i), es[i]))
            && s.positions == map[0 := HalvesOpen()] && s.partials == []
  {
    hide NewLive, Halves, HalvesOpen, AllAsks, Started, BrokerProtocol.Step, BrokerProtocol.Run, Possible, Takes;
    var s0, es := Started(config, Some(balance)), HalvesHit(ticket);
    StartsEmpty(config, balance);
    SendBoth(s0, KEY, KEY, ticket);
    HalvesAreNew();
    var s1 := s0.(pending := multiset{KEY});
    OrderAnswered(s1, 0, Halves());
    var s2 := BrokerProtocol.Step(s1, Registered(0, Halves()));
    HalvesFill(s2);
    Begins(s0, es);
    RunNext(s0, es, 0, s0, s1);
    RunNext(s0, es, 1, s1, s2);
    RunNext(s0, es, 2, s2, s2.(positions := map[0 := HalvesOpen()]));
  }

  /** From the start, one signal and one price are enough to ask for four units of three. */
  lemma {:induction false} HalvesOverAsk(config: Config, balance: real, ticket: Ticket)
    requires StartTakes(config, balance, ticket)
    ensures var (s0, es) := (Started(config, Some(balance)), HalvesHit(ticket));
            && PossibleFrom(s0, es) && OverAsks(s0, es, 0) && AskedFor(BrokerProtocol.Run(s0, es, 4), 0) == 4
  {
    hide Kept, Halves, AllAsks, Started, BrokerProtocol.Run, Priced, Takes, NewLive, Asked;
    var s0, es := Started(config, Some(balance)), HalvesHit(ticket);
    HalvesEntered(config, balance, ticket);
    var s := BrokerProtocol.Run(s0, es, 3);
    RunKeeps(config, balance, es, 3);
    HalvesAreNew();
    HalvesUntouched(s);
    OnePriceAsksAll(s, 0, 30.0);
    RunNext(s0, es, 3, s, Priced(s, 0, 30.0));
    assert Possible(s, PriceUpdate(0, 30.0));
  }

  lemma {:induction false} HalvesUntouched(s: Desk)
    requires s.positions == map[0 := HalvesOpen()] && s.partials == []
    ensures Untouched(s, 0) && ReachesAll(s.positions[0], 30.0) && s.positions[0].entryVolume == 3
    ensures |s.positions[0].pos.plan.tps| == 2
  {
  }
}
