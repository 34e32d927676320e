/** What every run of the paper executor keeps. */
module PaperLaws {
  import opened Prelude
  import opened ExitPlans
  import opened ExitEngine
  import opened ExitLaws
  import opened RiskGuards
  import opened PositionSizing
  import opened PaperBook

  // ----- one position -----

  /** Leg fractions and remainder make one whole; a closed position has only dust left; the
      managed stop is no looser than the plan's. */
  ghost predicate Whole(p: Managed) {
    && ClosedFraction(p.legs, |p.legs|) + p.remaining == 1.0
    && 0.0 <= p.remaining <= 1.0
    && (p.open <==> p.remaining > DUST)
    && (forall i :: 0 <= i < |p.plan.tps| ==> p.plan.tps[i].fraction > 0.0)
    && p.direction.Gain(p.plan.stop, p.stop) >= 0.0
  }

  lemma {:induction false} FractionAppend(legs: seq<Leg>, l: Leg)
    ensures ClosedFraction(legs + [l], |legs| + 1) == ClosedFraction(legs, |legs|) + l.fraction
  {
    FractionPrefix(legs, legs + [l], |legs|);
  }

  lemma {:induction false} FractionPrefix(a: seq<Leg>, b: seq<Leg>, n: nat)
    requires n <= |a| && n <= |b| && forall i :: 0 <= i < n ==> a[i] == b[i]
    ensures ClosedFraction(a, n) == ClosedFraction(b, n)
  {
    if n > 0 { FractionPrefix(a, b, n - 1); }
  }

  lemma {:induction false} ApplyKeepsWhole(p: Managed, d: Decision, ts: int)
    requires Whole(p) && p.open && 0.0 < d.fraction <= p.remaining
    requires d.reason == StopLoss ==> d.fraction == p.remaining
    ensures Whole(p.Apply(d, ts))
  {
    hide ClosedFraction;
    FractionAppend(p.legs, Leg(d.price, d.fraction, d.reason, ts));
  }

  lemma {:induction false} ScanKeepsWhole(p: Managed, q: Managed, order: seq<nat>, i: nat, high: real, low: real,
        ts: int)
    requires i <= |order| && forall j :: 0 <= j < |order| ==> order[j] < |p.plan.tps|
    requires Whole(q) && q.open && q.plan == p.plan
    ensures Whole(q.ApplyAll(p.Scan(order, i, q.remaining, high, low), ts))
    decreases |order| - i
  {
    hide ClosedFraction, Managed.Scan;
    if i == |order| {
      p.ScanEnd(order, q.remaining, high, low);
    } else {
      p.ScanStep(order, i, q.remaining, high, low);
      var ds := p.Scan(order, i, q.remaining, high, low);
      var k := order[i];
      var fraction := Min(p.plan.tps[k].fraction, q.remaining);
      if k !in p.taken && p.TargetReached(k, high, low) && fraction > 0.0 {
        var d := Decision(TargetHit, p.plan.tps[k].price, fraction, k, q.remaining - fraction <= DUST);
        var q1 := q.Apply(d, ts);
        ApplyKeepsWhole(q, d, ts);
        var rest := if d.fully then [] else p.Scan(order, i + 1, q1.remaining, high, low);
        assert ds == [d] + rest && ds[1..] == rest;
        if !d.fully { ScanKeepsWhole(p, q1, order, i + 1, high, low, ts); }
      } else {
        ScanKeepsWhole(p, q, order, i + 1, high, low, ts);
      }
    }
  }

  lemma {:induction false} ExitKeepsWhole(p: Managed, high: real, low: real, ts: int)
    requires Whole(p)
    ensures Whole(p.Exited(high, low, ts))
  {
    hide ClosedFraction;
    if p.open && !p.StopHit(high, low) {
      ScanKeepsWhole(p, p, p.Order(), 0, high, low, ts);
      assert p.Exited(high, low, ts) == p.ApplyAll(p.Scan(p.Order(), 0, p.remaining, high, low), ts);
    } else if p.open {
      var d := Decision(StopLoss, p.stop, p.remaining, -1, true);
      p.ApplyOne(d, ts);
      assert p.Evaluate(high, low) == [d];
      ApplyKeepsWhole(p, d, ts);
    }
  }

  lemma {:induction false} RestopOnlyTightens(p: Managed)
    ensures p.Restopped() == p.(stop := p.Restopped().stop)
    ensures p.direction.Gain(p.stop, p.Restopped().stop) >= 0.0
  {
    hide Managed.Trailed, Managed.Pulled, ExitPlan.Risk;
  }

  /** A price update keeps the position whole and changes neither side, entry nor plan. */
  lemma {:induction false} TickKeepsWhole(p: Managed, price: real, ts: int)
    requires Whole(p)
    ensures var q := p.Ticked(price, ts);
            Whole(q) && q.direction == p.direction && q.entry == p.entry && q.plan == p.plan
  {
    hide Managed.Exited, Managed.Evaluate, Managed.Restopped, ClosedFraction;
    if p.open {
      var e := p.Excursed(price);
      var r := e.Restopped();
      RestopOnlyTightens(e);
      ExitKeepsWhole(r, price, price, ts);
      ExitKeepsPlan(r, price, ts);
    }
  }

  lemma {:induction false} ExitKeepsPlan(p: Managed, price: real, ts: int)
    ensures var q := p.Exited(price, price, ts); q.direction == p.direction && q.entry == p.entry && q.plan == p.plan
  {
    ApplyKeepsStop(p, p.Evaluate(price, price), ts);
  }

  lemma {:induction false} AgeKeepsWhole(p: Managed, price: real, ts: int)
    requires Whole(p) && p.open
    ensures var q := Aged(p, price, ts);
            Whole(q) && q.direction == p.direction && q.entry == p.entry && q.plan == p.plan
  {
    hide ClosedFraction;
    var older := p.(bars := p.bars + 1);
    ApplyKeepsWhole(older, Decision(TimeUp, price, older.remaining, -1, true), ts);
  }

  lemma {:induction false} OpenedIsWhole(direction: Direction, entry: real, plan: ExitPlan)
    requires plan.Valid()
    ensures Whole(ExitEngine.Opened(direction, entry, plan))
  {
    hide FractionSum;
    forall i | 0 <= i < |plan.tps| ensures plan.tps[i].fraction > 0.0 {
      assert plan.tps[i].Valid();
    }
  }

  // ----- the executor -----

  ghost predicate HasKey(positions: seq<Held>, key: Key) {
    exists i :: 0 <= i < |positions| && positions[i].key == key
  }

  /** Open keys are exactly the keys of the open positions, one each. */
  ghost predicate KeysMatch(positions: seq<Held>, openKeys: set<Key>) {
    && (forall i, j :: 0 <= i < j < |positions| ==> positions[i].key != positions[j].key)
    && (forall i :: 0 <= i < |positions| ==> positions[i].key in openKeys)
    && (forall key :: key in openKeys ==> HasKey(positions, key))
  }

  ghost predicate SignalOk(signal: Signal) {
    signal.plan.Valid() && signal.plan.direction == signal.key.direction
  }

  /** One arm per key, none for a key that has an open position. */
  ghost predicate ArmsFree(arms: seq<Arm>, openKeys: set<Key>) {
    && (forall i, j :: 0 <= i < j < |arms| ==> arms[i].signal.key != arms[j].signal.key)
    && (forall i :: 0 <= i < |arms| ==> arms[i].signal.key !in openKeys && SignalOk(arms[i].signal))
  }

  ghost predicate AllWhole(positions: seq<Held>) {
    forall i :: 0 <= i < |positions| ==>
      Whole(positions[i].pos) && positions[i].pos.open && positions[i].pos.direction == positions[i].key.direction
  }

  function NetSum(book: seq<Booked>, n: nat): real
    requires n <= |book|
  {
    if n == 0 then 0.0 else NetSum(book, n - 1) + book[n - 1].net
  }

  /** A booked trade: its net is that of its legs, and the legs are the whole position unless
      it was flattened. */
  ghost predicate BookedOk(su: Setup, b: Booked) {
    var p := b.held.pos;
    && b.net == Net(su, b.held) && !p.open
    && ClosedFraction(p.legs, |p.legs|) + p.remaining == 1.0 && p.remaining >= 0.0
    && (b.flattened <==> p.remaining > DUST)
  }

  /** Every trade is open once or booked once, and the balance is what was booked. */
  ghost predicate Ledger(su: Setup, s: Paper, initial: real) {
    && s.fills == s.exits + |s.positions| && s.exits == |s.book|
    && s.guard.balance == initial + NetSum(s.book, |s.book|)
    && (forall i :: 0 <= i < |s.book| ==> BookedOk(su, s.book[i]))
  }

  ghost predicate OnceEach(s: Paper) {
    && (forall i :: 0 <= i < |s.positions| ==> s.positions[i].id < s.fills)
    && (forall i :: 0 <= i < |s.book| ==> s.book[i].held.id < s.fills)
    && (forall i, j :: 0 <= i < j < |s.positions| ==> s.positions[i].id != s.positions[j].id)
    && (forall i, j :: 0 <= i < j < |s.book| ==> s.book[i].held.id != s.book[j].held.id)
    && (forall i, j :: 0 <= i < |s.positions| && 0 <= j < |s.book| ==> s.positions[i].id != s.book[j].held.id)
  }

  ghost predicate Kept(su: Setup, s: Paper, initial: real) {
    && KeysMatch(s.positions, s.openKeys)
    && ArmsFree(s.arms, s.openKeys)
    && AllWhole(s.positions)
    && Ledger(su, s, initial)
    && OnceEach(s)
  }

  // ----- the elementary changes -----

  lemma {:induction false} WithoutFacts<T>(s: seq<T>, i: nat)
    requires i < |s|
    ensures var w := Without(s, i);
            && |w| == |s| - 1
            && (forall k :: 0 <= k < i ==> w[k] == s[k])
            && (forall k :: i <= k < |w| ==> w[k] == s[k + 1])
            && (forall k :: 0 <= k < |s| && k != i ==> s[k] == w[if k < i then k else k - 1])
  {
  }

  lemma {:induction false} KeysAfterRemoval(positions: seq<Held>, openKeys: set<Key>, i: nat)
    requires i < |positions| && KeysMatch(positions, openKeys)
    ensures KeysMatch(Without(positions, i), openKeys - {positions[i].key})
  {
    hide Without;
    WithoutFacts(positions, i);
    var w := Without(positions, i);
    forall key | key in openKeys - {positions[i].key} ensures HasKey(w, key) {
      var k :| 0 <= k < |positions| && positions[k].key == key;
      assert w[if k < i then k else k - 1].key == key;
    }
  }

  lemma {:induction false} OnceAfterClose(su: Setup, s: Paper, i: nat, h: Held, flattened: bool)
    requires i < |s.positions| && OnceEach(s) && h.id == s.positions[i].id
    ensures OnceEach(Close(su, s, i, h, flattened))
  {
    hide Without, Net, Guard.Realized;
    WithoutFacts(s.positions, i);
    var t := Close(su, s, i, h, flattened);
    forall k | 0 <= k < |t.positions| ensures t.positions[k].id < t.fills && t.positions[k].id != h.id {
      assert t.positions[k] == s.positions[if k < i then k else k + 1];
    }
  }

  lemma {:induction false} NetAppend(book: seq<Booked>, b: Booked)
    ensures NetSum(book + [b], |book| + 1) == NetSum(book, |book|) + b.net
  {
    NetPrefix(book, book + [b], |book|);
  }

  lemma {:induction false} NetPrefix(a: seq<Booked>, b: seq<Booked>, n: nat)
    requires n <= |a| && n <= |b| && forall i :: 0 <= i < n ==> a[i] == b[i]
    ensures NetSum(a, n) == NetSum(b, n)
  {
    if n > 0 { NetPrefix(a, b, n - 1); }
  }

  lemma {:induction false} LedgerAfterClose(su: Setup, s: Paper, i: nat, h: Held, flattened: bool, initial: real)
    requires i < |s.positions| && Ledger(su, s, initial) && BookedOk(su, Booked(h, Net(su, h), flattened))
    ensures Ledger(su, Close(su, s, i, h, flattened), initial)
  {
    hide Net, NetSum, BookedOk, Guard.Checked, Without;
    var b := Booked(h, Net(su, h), flattened);
    WithoutFacts(s.positions, i);
    NetAppend(s.book, b);
    RealizedBalance(s.guard, b.net);
  }

  lemma {:induction false} RealizedBalance(g: Guard, pnl: real)
    ensures g.Realized(pnl).balance == g.balance + pnl && g.Checked().balance == g.balance
    ensures g.Floating(pnl).balance == g.balance
  {
  }

  lemma {:induction false} WholeAfterRemoval(positions: seq<Held>, i: nat)
    requires i < |positions| && AllWhole(positions)
    ensures AllWhole(Without(positions, i))
  {
    hide Whole, Without;
    WithoutFacts(positions, i);
    var w := Without(positions, i);
    forall k | 0 <= k < |w| ensures Whole(w[k].pos) && w[k].pos.open && w[k].pos.direction == w[k].key.direction {
      assert w[k] == positions[if k < i then k else k + 1];
    }
  }

  lemma {:induction false} ArmsAfterRelease(arms: seq<Arm>, openKeys: set<Key>, key: Key)
    requires ArmsFree(arms, openKeys)
    ensures ArmsFree(arms, openKeys - {key})
  {
  }

  lemma {:induction false} CloseKeeps(su: Setup, s: Paper, i: nat, h: Held, flattened: bool, initial: real)
    requires Kept(su, s, initial) && i < |s.positions|
    requires h.id == s.positions[i].id && h.key == s.positions[i].key
    requires BookedOk(su, Booked(h, Net(su, h), flattened))
    ensures Kept(su, Close(su, s, i, h, flattened), initial)
  {
    hide KeysMatch, ArmsFree, AllWhole, Ledger, OnceEach, BookedOk, Net, Guard.Realized, Without;
    KeysAfterRemoval(s.positions, s.openKeys, i);
    ArmsAfterRelease(s.arms, s.openKeys, h.key);
    WholeAfterRemoval(s.positions, i);
    LedgerAfterClose(su, s, i, h, flattened, initial);
    OnceAfterClose(su, s, i, h, flattened);
  }

  lemma {:induction false} UpdateKeeps(su: Setup, s: Paper, i: nat, pos: Managed, initial: real)
    requires Kept(su, s, initial) && i < |s.positions|
    requires Whole(pos) && pos.open && pos.direction == s.positions[i].pos.direction
    ensures Kept(su, s.(positions := s.positions[i := s.positions[i].(pos := pos)]), initial)
  {
    hide Whole, BookedOk, NetSum, ArmsFree, ClosedFraction, Net, KeysMatch;
    KeysAfterUpdate(s.positions, s.openKeys, i, pos);
  }

  lemma {:induction false} KeysAfterUpdate(positions: seq<Held>, openKeys: set<Key>, i: nat, pos: Managed)
    requires KeysMatch(positions, openKeys) && i < |positions|
    ensures KeysMatch(positions[i := positions[i].(pos := pos)], openKeys)
  {
    var t := positions[i := positions[i].(pos := pos)];
    forall key | key in openKeys ensures HasKey(t, key) {
      var k :| 0 <= k < |positions| && positions[k].key == key;
      assert t[k].key == key;
    }
  }

  lemma {:induction false} SettleKeeps(su: Setup, s: Paper, i: nat, pos: Managed, initial: real)
    requires Kept(su, s, initial) && i < |s.positions|
    requires Whole(pos) && pos.direction == s.positions[i].pos.direction
    ensures Kept(su, Settle(su, s, i, pos), initial)
  {
    hide Kept, Net, Close;
    var h := s.positions[i].(pos := pos);
    if pos.open {
      UpdateKeeps(su, s, i, pos, initial);
    } else {
      assert BookedOk(su, Booked(h, Net(su, h), false));
      CloseKeeps(su, s, i, h, false, initial);
    }
  }

  /** Guard bookkeeping that leaves the balance alone leaves everything kept. */
  lemma {:induction false} GuardKeeps(su: Setup, s: Paper, g: Guard, initial: real)
    requires Kept(su, s, initial) && g.balance == s.guard.balance
    ensures Kept(su, s.(guard := g), initial)
  {
    hide KeysMatch, ArmsFree, AllWhole, BookedOk, NetSum;
  }

  lemma {:induction false} PricesKeep(su: Setup, s: Paper, prices: map<string, real>, initial: real)
    requires Kept(su, s, initial)
    ensures Kept(su, s.(lastPrice := prices), initial)
  {
    hide KeysMatch, ArmsFree, AllWhole, BookedOk, NetSum;
  }

  lemma {:induction false} KeysAfterFill(positions: seq<Held>, openKeys: set<Key>, h: Held)
    requires KeysMatch(positions, openKeys) && h.key !in openKeys
    ensures KeysMatch(positions + [h], openKeys + {h.key})
  {
    var t := positions + [h];
    forall key | key in openKeys + {h.key} ensures HasKey(t, key) {
      if key == h.key {
        assert t[|positions|].key == key;
      } else {
        var k :| 0 <= k < |positions| && positions[k].key == key;
        assert t[k].key == key;
      }
    }
  }

  lemma {:induction false} FillKeeps(su: Setup, s: Paper, signal: Signal, initial: real)
    requires Kept(su, s, initial) && SignalOk(signal)
    requires signal.key !in s.openKeys && forall i :: 0 <= i < |s.arms| ==> s.arms[i].signal.key != signal.key
    ensures Kept(su, Fill(su, s, signal), initial)
  {
    hide KeysMatch, Whole, BookedOk, NetSum, CalculateLotSize, Guard.Checked, Guard.Accepts, SignalOk;
    var t := Fill(su, s, signal);
    RealizedBalance(s.guard, 0.0);
    if t.fills > s.fills {
      var h := t.positions[|s.positions|];
      PlanOf(signal);
      OpenedIsWhole(signal.key.direction, signal.entry, signal.plan);
      KeysAfterFill(s.positions, s.openKeys, h);
    }
  }

  lemma {:induction false} PlanOf(signal: Signal)
    requires SignalOk(signal)
    ensures signal.plan.Valid()
  {
  }

  // ----- arms -----

  lemma {:induction false} ArmsAfterRemoval(arms: seq<Arm>, openKeys: set<Key>, i: nat)
    requires i < |arms| && ArmsFree(arms, openKeys)
    ensures ArmsFree(Without(arms, i), openKeys)
    ensures forall k :: 0 <= k < |Without(arms, i)| ==> Without(arms, i)[k].signal.key != arms[i].signal.key
  {
    hide Without, SignalOk;
    WithoutFacts(arms, i);
    var w := Without(arms, i);
    forall k | 0 <= k < |w| ensures w[k] == arms[if k < i then k else k + 1] {
    }
  }

  lemma {:induction false} ArmsKeep(su: Setup, s: Paper, arms: seq<Arm>, initial: real)
    requires Kept(su, s, initial) && ArmsFree(arms, s.openKeys)
    ensures Kept(su, s.(arms := arms), initial)
  {
    hide KeysMatch, ArmsFree, AllWhole, BookedOk, NetSum;
  }

  lemma {:induction false} TriggerKeeps(su: Setup, s: Paper, i: nat, initial: real)
    requires Kept(su, s, initial) && i < |s.arms|
    ensures Kept(su, Trigger(su, s, i), initial)
  {
    hide KeysMatch, AllWhole, Ledger, OnceEach, Fill, Without, Guard.Checked, Guard.Tradable, SignalOk;
    var dropped := s.(arms := Without(s.arms, i));
    ArmsAfterRemoval(s.arms, s.openKeys, i);
    ArmsKeep(su, s, dropped.arms, initial);
    RealizedBalance(s.guard, 0.0);
    GuardKeeps(su, dropped, s.guard.Checked(), initial);
    FillKeeps(su, dropped.(guard := s.guard.Checked()), s.arms[i].signal, initial);
  }

  lemma {:induction false} CheckArmsKeeps(su: Setup, s: Paper, i: nat, instrument: string, price: real, initial: real)
    requires Kept(su, s, initial) && i <= |s.arms|
    ensures Kept(su, CheckArms(su, s, i, instrument, price), initial)
    decreases |s.arms| - i
  {
    hide Kept, Trigger, Reached;
    if i < |s.arms| {
      if s.arms[i].signal.key.instrument == instrument && Reached(s.arms[i].signal, price) {
        FillKeepsArms(su, s, i);
        TriggerKeeps(su, s, i, initial);
        CheckArmsKeeps(su, Trigger(su, s, i), i, instrument, price, initial);
      } else {
        CheckArmsKeeps(su, s, i + 1, instrument, price, initial);
      }
    }
  }

  /** Ageing drops arms but never duplicates or moves one. */
  lemma {:induction false} AgeArmsKeeps(arms: seq<Arm>, openKeys: set<Key>, instrument: string, n: nat)
    requires ArmsFree(arms, openKeys) && n <= |arms|
    ensures ArmsFree(AgeArms(arms, instrument, n), openKeys)
    ensures forall k :: 0 <= k < |AgeArms(arms, instrument, n)| ==>
              forall j :: n <= j < |arms| ==> AgeArms(arms, instrument, n)[k].signal.key != arms[j].signal.key
  {
    hide SignalOk;
    if n > 0 { AgeArmsKeeps(arms, openKeys, instrument, n - 1); }
  }

  // ----- positions -----

  lemma {:induction false} PositionAt(su: Setup, s: Paper, i: nat, initial: real)
    requires Kept(su, s, initial) && i < |s.positions|
    ensures Whole(s.positions[i].pos) && s.positions[i].pos.open
  {
    hide KeysMatch, ArmsFree, Ledger, OnceEach, Whole;
  }

  lemma {:induction false} ManageKeeps(su: Setup, s: Paper, i: nat, instrument: string, price: real, ts: int,
        initial: real)
    requires Kept(su, s, initial) && i <= |s.positions|
    ensures Kept(su, Manage(su, s, i, instrument, price, ts), initial)
    decreases |s.positions| - i
  {
    hide Kept, Whole, Managed.Ticked, Net, Guard.Realized;
    if i < |s.positions| {
      if s.positions[i].key.instrument != instrument || !s.positions[i].pos.open {
        ManageKeeps(su, s, i + 1, instrument, price, ts, initial);
      } else {
        var pos := s.positions[i].pos.Ticked(price, ts);
        PositionAt(su, s, i, initial);
        TickKeepsWhole(s.positions[i].pos, price, ts);
        SettleKeeps(su, s, i, pos, initial);
        ManageKeeps(su, Settle(su, s, i, pos), if pos.open then i + 1 else i, instrument, price, ts, initial);
      }
    }
  }

  lemma {:induction false} AgePositionsKeeps(su: Setup, s: Paper, i: nat, instrument: string, ts: int, initial: real)
    requires Kept(su, s, initial) && i <= |s.positions|
    ensures Kept(su, AgePositions(su, s, i, instrument, ts), initial)
    decreases |s.positions| - i
  {
    hide Kept, Whole, Aged, Net, Guard.Realized;
    if i < |s.positions| {
      if s.positions[i].key.instrument != instrument || !s.positions[i].pos.open {
        AgePositionsKeeps(su, s, i + 1, instrument, ts, initial);
      } else {
        var price := PriceOf(s, s.positions[i]);
        var pos := Aged(s.positions[i].pos, price, ts);
        PositionAt(su, s, i, initial);
        AgeKeepsWhole(s.positions[i].pos, price, ts);
        SettleKeeps(su, s, i, pos, initial);
        AgePositionsKeeps(su, Settle(su, s, i, pos), if pos.open then i + 1 else i, instrument, ts, initial);
      }
    }
  }

  lemma {:induction false} FlattenKeeps(su: Setup, s: Paper, i: nat, only: Option<string>, initial: real)
    requires Kept(su, s, initial) && i <= |s.positions|
    ensures Kept(su, FlattenFrom(su, s, i, only), initial)
    decreases |s.positions| - i
  {
    hide Kept, Net, Guard.Realized, ClosedFraction;
    if i < |s.positions| {
      if (only.Some? && s.positions[i].key.instrument != only.value) || !s.positions[i].pos.open {
        FlattenKeeps(su, s, i + 1, only, initial);
      } else {
        var h := s.positions[i];
        var shut := h.(pos := h.pos.(open := false));
        PositionAt(su, s, i, initial);
        assert BookedOk(su, Booked(shut, Net(su, shut), true));
        CloseKeeps(su, s, i, shut, true, initial);
        FlattenKeeps(su, Close(su, s, i, shut, true), i, only, initial);
      }
    }
  }

  // ----- whole runs -----

  lemma {:induction false} SignalKeeps(su: Setup, s: Paper, signal: Signal, initial: real)
    requires Kept(su, s, initial) && SignalOk(signal)
    ensures Kept(su, OnSignal(su, s, signal), initial)
  {
    hide KeysMatch, AllWhole, Ledger, OnceEach, Fill, Guard.Checked, Guard.Tradable, SignalOk;
    RealizedBalance(s.guard, 0.0);
    var checked := s.(guard := s.guard.Checked());
    GuardKeeps(su, s, s.guard.Checked(), initial);
    if signal.key !in s.openKeys {
      var i := ArmOf(s.arms, signal.key);
      if i < |s.arms| {
        ArmsKeep(su, s, s.arms[i := Arm(signal, signal.expiry)], initial);
      } else {
        ArmsKeep(su, checked, s.arms + [Arm(signal, signal.expiry)], initial);
        FillKeeps(su, checked, signal, initial);
      }
    }
  }

  lemma {:induction false} TickKeeps(su: Setup, s: Paper, instrument: string, bid: real, ts: int, initial: real)
    requires Kept(su, s, initial)
    ensures Kept(su, OnTick(su, s, instrument, bid, ts), initial)
  {
    hide Kept, CheckArms, Manage, TotalFloating, Guard.Floating;
    if bid > 0.0 {
      var s0 := s.(lastPrice := s.lastPrice[instrument := bid]);
      PricesKeep(su, s, s0.lastPrice, initial);
      CheckArmsKeeps(su, s0, 0, instrument, bid, initial);
      var s1 := CheckArms(su, s0, 0, instrument, bid);
      ManageKeeps(su, s1, 0, instrument, bid, ts, initial);
      var s2 := Manage(su, s1, 0, instrument, bid, ts);
      var floating := TotalFloating(su, s2, |s2.positions|);
      RealizedBalance(s2.guard, floating);
      GuardKeeps(su, s2, s2.guard.Floating(floating), initial);
    }
  }

  lemma {:induction false} CandleKeeps(su: Setup, s: Paper, instrument: string, ts: int, initial: real)
    requires Kept(su, s, initial)
    ensures Kept(su, OnCandleClose(su, s, instrument, ts), initial)
  {
    hide KeysMatch, ArmsFree, AllWhole, Ledger, OnceEach, AgeArms, AgePositions;
    var arms := AgeArms(s.arms, instrument, |s.arms|);
    AgeArmsKeeps(s.arms, s.openKeys, instrument, |s.arms|);
    ArmsKeep(su, s, arms, initial);
    AgePositionsKeeps(su, s.(arms := arms), 0, instrument, ts, initial);
  }

  lemma {:induction false} DayKeeps(su: Setup, s: Paper, current: Option<int>, clock: int, initial: real)
    requires Kept(su, s, initial)
    ensures Kept(su, s.(guard := RiskGuards.Step(s.guard, CheckReset(current, clock))), initial)
  {
    hide Kept;
    GuardKeeps(su, s, RiskGuards.Step(s.guard, CheckReset(current, clock)), initial);
  }

  /** Signals carry valid plans; everything else is unconstrained. */
  ghost predicate WellFormed(e: PaperBook.Event) {
    e.SignalEvent? ==> SignalOk(e.signal)
  }

  /** After any run of signals, ticks, candle closes, flattens and day resets: open keys are
      exactly the keys of the open positions and disjoint from the arms; every position's legs
      and remainder make one whole under a stop no looser than its plan's; fills minus exits is
      the number open; and the balance is the initial one plus each closed trade's net, once. */
  lemma {:induction false} RunKeeps(su: Setup, config: Config, es: seq<PaperBook.Event>, n: nat)
    requires n <= |es| && forall i :: 0 <= i < |es| ==> WellFormed(es[i])
    ensures Kept(su, PaperBook.Run(su, Idle(config), es, n), config.initialBalance)
  {
    hide Kept, OnSignal, OnTick, OnCandleClose, FlattenFrom, RiskGuards.Step;
    if n == 0 {
      IdleKept(su, config);
    } else {
      RunKeeps(su, config, es, n - 1);
      var s := PaperBook.Run(su, Idle(config), es, n - 1);
      match es[n - 1]
      case SignalEvent(signal) => SignalKeeps(su, s, signal, config.initialBalance);
      case TickEvent(instrument, bid, ts) => TickKeeps(su, s, instrument, bid, ts, config.initialBalance);
      case CandleEvent(instrument, ts) => CandleKeeps(su, s, instrument, ts, config.initialBalance);
      case FlattenEvent(only) => FlattenKeeps(su, s, 0, only, config.initialBalance);
      case DayEvent(current, clock) => DayKeeps(su, s, current, clock, config.initialBalance);
    }
  }

  lemma {:induction false} IdleKept(su: Setup, config: Config)
    ensures Kept(su, Idle(config), config.initialBalance)
  {
  }
}
