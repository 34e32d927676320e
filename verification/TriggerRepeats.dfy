/** When a variant fires more than once in a day: arming does not reject a variant that is
    already armed. */
module TriggerRepeats {
  import opened Prelude
  import opened ExitPlans
  import opened PositionSizing
  import opened TriggerDesk
  import opened TriggerLaws
  import opened TriggerRuns

  // ----- one tick -----

  lemma {:induction false} CountedOnce(t: seq<Fire>, f: Fire)
    requires FiredOnce(t)
    ensures multiset(t)[f] <= 1
  {
    if t != [] {
      assert t == [t[0]] + t[1..];
      CountedOnce(t[1..], f);
      if f == t[0] {
        assert forall k :: 0 <= k < |t[1..]| ==> t[1..][k] != f;
        assert f !in t[1..];
      }
    }
  }

  lemma {:induction false} SameFiresOnce(s: seq<Fire>, t: seq<Fire>)
    requires multiset(s) == multiset(t) && FiredOnce(t)
    ensures FiredOnce(s)
  {
    forall i, j | 0 <= i < j < |s| ensures s[i].id != s[j].id {
      assert s[i] in multiset(s) && s[j] in multiset(s);
      var a :| 0 <= a < |t| && t[a] == s[i];
      var b :| 0 <= b < |t| && t[b] == s[j];
      if s[i].id == s[j].id {
        assert a == b;
        CountedTwice(s, i, j);
        CountedOnce(t, s[i]);
      }
    }
  }

  /** The variant is indexed under a level the price has reached. */
  predicate InReach(a: Armed, price: real) { a.priced && KeyOf(a).Reached(price) }

  /** No two arms in reach share an id, and none of them has fired since the last reset. */
  ghost predicate EachOnce(d: Desk, price: real) {
    && FiredOnce(d.fired)
    && (forall i, j :: 0 <= i < j < |d.armed| && InReach(d.armed[i], price) && InReach(d.armed[j], price) ==>
          d.armed[i].id != d.armed[j].id)
    && (forall i, k :: 0 <= i < |d.armed| && InReach(d.armed[i], price) && 0 <= k < |d.fired| ==>
          d.armed[i].id != d.fired[k].id)
  }

  lemma {:induction false} FireOfArm(armed: seq<Armed>, price: real, ts: int, n: nat, i: nat) returns (j: nat)
    requires i < n <= |armed| && InReach(armed[i], price)
    ensures j < |LevelFires(armed, price, ts, n)| && LevelFires(armed, price, ts, n)[j].id == armed[i].id
  {
    hide InReach, KeyOf, GroupKey.Reached;
    LevelFiresNext(armed, price, ts, n - 1);
    if i < n - 1 { j := FireOfArm(armed, price, ts, n - 1, i); } else { j := |LevelFires(armed, price, ts, n - 1)|; }
  }

  lemma {:induction false} LevelFiresNext(armed: seq<Armed>, price: real, ts: int, n: nat)
    requires n < |armed|
    ensures LevelFires(armed, price, ts, n + 1) == LevelFires(armed, price, ts, n) +
              if InReach(armed[n], price) then [Fire(armed[n].id, KeyOf(armed[n]), price, ts)] else []
  {
    hide KeyOf;
  }

  lemma {:induction false} ArmOfFire(armed: seq<Armed>, price: real, ts: int, n: nat, j: nat) returns (i: nat)
    requires n <= |armed| && j < |LevelFires(armed, price, ts, n)|
    ensures i < n && InReach(armed[i], price) && LevelFires(armed, price, ts, n)[j].id == armed[i].id
  {
    hide InReach, KeyOf, GroupKey.Reached;
    assert n > 0;
    LevelFiresNext(armed, price, ts, n - 1);
    if j < |LevelFires(armed, price, ts, n - 1)| { i := ArmOfFire(armed, price, ts, n - 1, j); } else { i := n - 1; }
  }

  lemma {:induction false} DistinctArmsFireOnce(armed: seq<Armed>, price: real, ts: int, n: nat)
    requires n <= |armed|
    ensures FiredOnce(LevelFires(armed, price, ts, n)) <==>
              forall i, j :: 0 <= i < j < n && InReach(armed[i], price) && InReach(armed[j], price) ==>
                  armed[i].id != armed[j].id
  {
    hide InReach, KeyOf, GroupKey.Reached, LevelFires;
    if n == 0 {
      NoneReached(armed, price, ts);
    } else {
      DistinctArmsFireOnce(armed, price, ts, n - 1);
      LevelFiresNext(armed, price, ts, n - 1);
      var before, last := LevelFires(armed, price, ts, n - 1), armed[n - 1];
      if InReach(last, price) {
        var f := Fire(last.id, KeyOf(last), price, ts);
        OneMoreFired(before, f);
        forall i | 0 <= i < n - 1 && InReach(armed[i], price)
          ensures exists x :: 0 <= x < |before| && before[x].id == armed[i].id
        {
          var x := FireOfArm(armed, price, ts, n - 1, i);
        }
        forall x | 0 <= x < |before|
          ensures exists i :: 0 <= i < n - 1 && InReach(armed[i], price) && before[x].id == armed[i].id
        {
          var i := ArmOfFire(armed, price, ts, n - 1, x);
        }
      } else {
        assert LevelFires(armed, price, ts, n) == before;
      }
    }
  }

  lemma {:induction false} OneMoreFired(s: seq<Fire>, f: Fire)
    ensures FiredOnce(s + [f]) <==> FiredOnce(s) && forall i :: 0 <= i < |s| ==> s[i].id != f.id
  {
    var t := s + [f];
    assert t[|s|] == f && forall i :: 0 <= i < |s| ==> s[i] == t[i];
  }

  lemma {:induction false} NoneReached(armed: seq<Armed>, price: real, ts: int)
    ensures LevelFires(armed, price, ts, 0) == []
  {
  }

  /** A tick leaves every variant fired at most once exactly when no two arms in reach share an
      id and none of them has fired already. */
  lemma {:induction false} FiresOnceIffArmedOnce(d: Desk, price: real, ts: int)
    requires Sync(d.armed, d.index)
    ensures FiredOnce(OnTick(d, price, ts).fired) <==> EachOnce(d, price)
  {
    hide OnTick, LevelFires, Sync, InReach;
    TickFiresTheLevels(d, price, ts);
    var n := |d.armed|;
    var fired, level := OnTick(d, price, ts).fired, LevelFires(d.armed, price, ts, n);
    var news := fired[|d.fired|..];
    assert fired == d.fired + news;
    DistinctArmsFireOnce(d.armed, price, ts, n);
    if FiredOnce(level) { SameFiresOnce(news, level); }
    if FiredOnce(news) { SameFiresOnce(level, news); }
    if FiredOnce(fired) {
      assert FiredOnce(d.fired) && FiredOnce(news) by { PartsFireOnce(d.fired, news); }
      forall i, k | 0 <= i < n && InReach(d.armed[i], price) && 0 <= k < |d.fired|
        ensures d.armed[i].id != d.fired[k].id
      {
        var j := FireOfArm(d.armed, price, ts, n, i);
        var m := SameFire(level, news, j);
        assert fired[|d.fired| + m] == news[m] && fired[k] == d.fired[k];
      }
    }
    if EachOnce(d, price) {
      forall k, m | 0 <= k < |d.fired| && 0 <= m < |news| ensures d.fired[k].id != news[m].id {
        var j := SameFire(news, level, m);
        var i := ArmOfFire(d.armed, price, ts, n, j);
      }
    }
  }

  lemma {:induction false} PartsFireOnce(a: seq<Fire>, b: seq<Fire>)
    requires FiredOnce(a + b)
    ensures FiredOnce(a) && FiredOnce(b)
  {
    var c := a + b;
    assert forall i :: 0 <= i < |a| ==> a[i] == c[i];
    assert forall i :: 0 <= i < |b| ==> b[i] == c[|a| + i];
  }

  lemma {:induction false} SameFire(s: seq<Fire>, t: seq<Fire>, j: nat) returns (m: nat)
    requires multiset(s) == multiset(t) && j < |s|
    ensures m < |t| && t[m] == s[j]
  {
    assert s[j] in multiset(t);
    m :| 0 <= m < |t| && t[m] == s[j];
  }

  // ----- ticks after a rebuild -----

  ghost predicate AllTicks(ticks: seq<Event>) {
    forall i :: 0 <= i < |ticks| ==> ticks[i].Tick?
  }

  function Ticked(d: Desk, ticks: seq<Event>, n: nat): Desk
    requires n <= |ticks|
  {
    if n == 0 then d else Step(Ticked(d, ticks, n - 1), ticks[n - 1])
  }

  /** Firing reads the index, never the armed list. */
  ghost predicate SameIndex(d: Desk, e: Desk) {
    d.index == e.index && d.fired == e.fired
  }

  lemma {:induction false} FireAllReadsIndex(d: Desk, e: Desk, groups: map<GroupKey, seq<Armed>>, keys: seq<GroupKey>,
        i: nat, price: real, ts: int)
    requires SameIndex(d, e) && i <= |keys| && forall j :: 0 <= j < |keys| ==> keys[j] in groups
    ensures SameIndex(FireAll(d, groups, keys, i, price, ts), FireAll(e, groups, keys, i, price, ts))
    decreases |keys| - i
  {
    hide RemoveGroup, FiresOf, Ids, Disarmed;
    if i < |keys| {
      var members := groups[keys[i]];
      FireAllReadsIndex(FireGroup(d, keys[i], members, price, ts), FireGroup(e, keys[i], members, price, ts),
                        groups, keys, i + 1, price, ts);
    }
  }

  lemma {:induction false} TickReadsIndex(d: Desk, e: Desk, price: real, ts: int)
    requires SameIndex(d, e)
    ensures SameIndex(OnTick(d, price, ts), OnTick(e, price, ts))
  {
    hide CheckTriggers, FireAll;
    HitsAreKeys(d.index, price);
    FireAllReadsIndex(d, e, d.index.groups, CheckTriggers(d.index, price), 0, price, ts);
  }

  /** The arms that are indexed at all. */
  function Priced(armed: seq<Armed>, n: nat): seq<Armed>
    requires n <= |armed|
  {
    if n == 0 then [] else Priced(armed, n - 1) + if armed[n - 1].priced then [armed[n - 1]] else []
  }

  lemma {:induction false} PricedIsArmed(armed: seq<Armed>, n: nat, j: nat) returns (i: nat)
    requires n <= |armed| && j < |Priced(armed, n)|
    ensures j <= i < n && armed[i].priced && armed[i] == Priced(armed, n)[j]
  {
    PricedShrinks(armed, n - 1);
    if j < |Priced(armed, n - 1)| { i := PricedIsArmed(armed, n - 1, j); } else { i := n - 1; }
  }

  lemma {:induction false} PricedShrinks(armed: seq<Armed>, n: nat)
    requires n <= |armed|
    ensures |Priced(armed, n)| <= n
  {
    if n > 0 { PricedShrinks(armed, n - 1); }
  }

  lemma {:induction false} PricedUnique(armed: seq<Armed>, n: nat)
    requires n <= |armed| && !SharedId(armed)
    ensures Unique(Priced(armed, n))
  {
    if n > 0 {
      PricedUnique(armed, n - 1);
      var rest := Priced(armed, n - 1);
      if armed[n - 1].priced {
        forall j | 0 <= j < |rest| ensures rest[j].id != armed[n - 1].id {
          var i := PricedIsArmed(armed, n - 1, j);
        }
      }
    }
  }

  /** Two indexed arms share an id. */
  ghost predicate SharedId(armed: seq<Armed>) {
    exists i, j :: 0 <= i < j < |armed| && armed[i].priced && armed[j].priced && armed[i].id == armed[j].id
  }

  lemma {:induction false} RebuiltPrefix(a: seq<Armed>, b: seq<Armed>, n: nat)
    requires n <= |a| && n <= |b| && forall i :: 0 <= i < n ==> a[i] == b[i]
    ensures Rebuilt(a, n) == Rebuilt(b, n)
  {
    hide Add;
    if n > 0 { RebuiltPrefix(a, b, n - 1); }
  }

  lemma {:induction false} RebuiltFromPriced(armed: seq<Armed>, n: nat)
    requires n <= |armed|
    ensures Rebuilt(Priced(armed, n), |Priced(armed, n)|) == Rebuilt(armed, n)
  {
    hide KeyOf, InsertLevel;
    if n > 0 {
      RebuiltFromPriced(armed, n - 1);
      var rest := Priced(armed, n - 1);
      if armed[n - 1].priced {
        assert Priced(armed, n) == rest + [armed[n - 1]];
        RebuiltPrefix(rest, rest + [armed[n - 1]], |rest|);
      } else {
        assert Priced(armed, n) == rest;
      }
    }
  }

  /** What has fired stays queued. */
  lemma {:induction false} FireAllExtends(d: Desk, groups: map<GroupKey, seq<Armed>>, keys: seq<GroupKey>, i: nat,
        price: real, ts: int)
    requires i <= |keys| && forall j :: 0 <= j < |keys| ==> keys[j] in groups
    ensures d.fired <= FireAll(d, groups, keys, i, price, ts).fired
    decreases |keys| - i
  {
    hide RemoveGroup, FiresOf, Ids, Disarmed;
    if i < |keys| { FireAllExtends(FireGroup(d, keys[i], groups[keys[i]], price, ts), groups, keys, i + 1, price, ts); }
  }

  lemma {:induction false} TickExtends(d: Desk, price: real, ts: int)
    ensures d.fired <= OnTick(d, price, ts).fired
    ensures FiredOnce(OnTick(d, price, ts).fired) ==> FiredOnce(d.fired)
  {
    hide CheckTriggers, FireAll;
    HitsAreKeys(d.index, price);
    FireAllExtends(d, d.index.groups, CheckTriggers(d.index, price), 0, price, ts);
  }

  /** Ticks alone never fire a variant twice when no two indexed arms share an id. */
  lemma {:induction false} TicksFireOnce(d: Desk, s: Desk, ticks: seq<Event>, n: nat) returns (s1: Desk)
    requires n <= |ticks| && AllTicks(ticks) && SameIndex(d, s) && Kept(s) && Sync(s.armed, s.index)
    ensures SameIndex(Ticked(d, ticks, n), s1) && Kept(s1) && Sync(s1.armed, s1.index)
  {
    hide Kept, Sync, OnTick;
    s1 := s;
    if n > 0 {
      s1 := TicksFireOnce(d, s, ticks, n - 1);
      TickKeeps(s1, ticks[n - 1].price, ticks[n - 1].ts);
      TickReadsIndex(Ticked(d, ticks, n - 1), s1, ticks[n - 1].price, ticks[n - 1].ts);
      s1 := OnTick(s1, ticks[n - 1].price, ticks[n - 1].ts);
    }
  }

  // ----- what a tick leaves indexed -----

  /** The arms whose level the price has not reached. */
  function Unreached(armed: seq<Armed>, price: real, n: nat): seq<Armed>
    requires n <= |armed|
  {
    if n == 0 then [] else Unreached(armed, price, n - 1) + if InReach(armed[n - 1], price) then [] else [armed[n - 1]]
  }

  lemma {:induction false} MembersUnreached(armed: seq<Armed>, price: real, n: nat, k: GroupKey)
    requires n <= |armed|
    ensures var r := Unreached(armed, price, n);
            Members(r, k, |r|) == if k.Reached(price) then [] else Members(armed, k, n)
  {
    hide KeyOf, GroupKey.Reached;
    if n > 0 {
      var rest := Unreached(armed, price, n - 1);
      MembersUnreached(armed, price, n - 1, k);
      MembersAppend(rest, armed[n - 1], k);
      assert Unreached(armed, price, n) == if InReach(armed[n - 1], price) then rest else rest + [armed[n - 1]];
    }
  }

  lemma {:induction false} UnreachedStays(armed: seq<Armed>, price: real, n: nat, i: nat) returns (j: nat)
    requires i < n <= |armed| && !InReach(armed[i], price)
    ensures j < |Unreached(armed, price, n)| && Unreached(armed, price, n)[j] == armed[i]
  {
    hide InReach;
    if i < n - 1 { j := UnreachedStays(armed, price, n - 1, i); } else { j := |Unreached(armed, price, n - 1)|; }
  }

  ghost predicate RoundedKeys(keys: seq<GroupKey>) {
    forall j :: 0 <= j < |keys| ==> Round2(keys[j].level) == keys[j].level
  }

  lemma {:induction false} FireAllIndex(d: Desk, groups: map<GroupKey, seq<Armed>>, keys: seq<GroupKey>, i: nat,
        price: real, ts: int)
    requires Listed(d.index) && Distinct(keys) && i <= |keys| && RoundedKeys(keys)
    requires forall j :: 0 <= j < |keys| ==> keys[j] in groups
    requires forall j :: i <= j < |keys| ==> keys[j] in d.index.groups
    ensures var x := FireAll(d, groups, keys, i, price, ts).index;
            Listed(x) && x.groups == d.index.groups - set j | i <= j < |keys| :: keys[j]
    decreases |keys| - i
  {
    hide Listed, RemoveGroup, FiresOf, Ids, Disarmed, Round2;
    if i < |keys| {
      RemoveGroupLists(d.index, keys[i]);
      FireAllIndex(FireGroup(d, keys[i], groups[keys[i]], price, ts), groups, keys, i + 1, price, ts);
      assert (set j | i <= j < |keys| :: keys[j]) == {keys[i]} + set j | i + 1 <= j < |keys| :: keys[j];
    }
  }

  /** After a tick the index mirrors the arms it has not reached, whatever is left armed. */
  lemma {:induction false} TickLeavesUnreached(d: Desk, price: real, ts: int)
    requires Sync(d.armed, d.index)
    ensures Sync(Unreached(d.armed, price, |d.armed|), OnTick(d, price, ts).index)
  {
    hide CheckTriggers, FireAll, Listed, GroupKey.Reached, Round2, Unreached, HasKey, Members, KeyOf;
    var x, keys := d.index, CheckTriggers(d.index, price);
    HitsAreKeys(x, price);
    HitsAreExact(x, price);
    forall j | 0 <= j < |keys| ensures Round2(keys[j].level) == keys[j].level { LevelIsRounded(d.armed, x, keys[j]); }
    FireAllIndex(d, x.groups, keys, 0, price, ts);
    var y, r := OnTick(d, price, ts).index, Unreached(d.armed, price, |d.armed|);
    forall k
      ensures k in y.groups <==> HasKey(r, k, |r|)
      ensures k in y.groups ==> y.groups[k] == Members(r, k, |r|)
    {
      MembersUnreached(d.armed, price, |d.armed|, k);
      HasKeyIsMembers(r, k, |r|);
      HasKeyIsMembers(d.armed, k, |d.armed|);
      assert k in keys <==> k in (set j | 0 <= j < |keys| :: keys[j]);
    }
  }

  /** Two indexed arms of one id: a tick at each one's level fires the id twice. */
  lemma {:induction false} SharedIdFiresTwice(d: Desk, i: nat, j: nat)
    requires Sync(d.armed, d.index) && i < j < |d.armed|
    requires d.armed[i].priced && d.armed[j].priced && d.armed[i].id == d.armed[j].id
    ensures var d1 := OnTick(d, KeyOf(d.armed[i]).level, 0);
            !FiredOnce(OnTick(d1, KeyOf(d.armed[j]).level, 0).fired)
  {
    hide KeyOf, OnTick, Sync, Unreached, LevelFires;
    var p, q, n := KeyOf(d.armed[i]).level, KeyOf(d.armed[j]).level, |d.armed|;
    var d1 := OnTick(d, p, 0);
    TickExtends(d1, q, 0);
    FiresOnceIffArmedOnce(d, p, 0);
    if !InReach(d.armed[j], p) {
      TickLeavesUnreached(d, p, 0);
      var s := d1.(armed := Unreached(d.armed, p, n));
      TickReadsIndex(d1, s, q, 0);
      FiresOnceIffArmedOnce(s, q, 0);
      var m := UnreachedStays(d.armed, p, n, j);
      TickFiresTheLevels(d, p, 0);
      var f := FireOfArm(d.armed, p, 0, n, i);
      var g := SameFire(LevelFires(d.armed, p, 0, n), d1.fired[|d.fired|..], f);
      assert s.fired[|d.fired| + g].id == s.armed[m].id && InReach(s.armed[m], q);
    }
  }

  /** The exact condition of firing twice. Arm any list on any orderly run and rebuild: some
      ticks then fire a variant twice in the day if and only if two indexed arms share an id. */
  lemma {:induction false} FiresTwiceIffSharedId(es: seq<Event>, n: nat, news: seq<Armed>, limit: nat)
    requires n <= |es| && Orderly(es)
    ensures var d := Step(Step(Run(es, n), Arming(news, limit)), Rebuild);
            (exists ticks: seq<Event> :: AllTicks(ticks) && !FiredOnce(Ticked(d, ticks, |ticks|).fired))
            <==> SharedId(d.armed)
  {
    hide Kept, Sync, OnTick, Arm, Rebuilt, KeyOf, FiredOnce, Orderly, Run, SharedId, AllTicks, Priced, Unique;
    var d0 := Run(es, n);
    RunKeeps(es, n);
    var d := Step(Step(d0, Arming(news, limit)), Rebuild);
    if SharedId(d.armed) {
      var i, j := SharedArms(d.armed);
      RebuiltSync(d.armed);
      SharedIdFiresTwice(d, i, j);
      var ticks := [Tick(KeyOf(d.armed[i]).level, 0), Tick(KeyOf(d.armed[j]).level, 0)];
      TwoTicks(d, ticks);
    } else {
      var s := d.(armed := Priced(d.armed, |d.armed|));
      RebuiltFromPriced(d.armed, |d.armed|);
      RebuiltSync(s.armed);
      PricedKept(d0, news, limit, s);
      forall ticks: seq<Event> | AllTicks(ticks) ensures FiredOnce(Ticked(d, ticks, |ticks|).fired) {
        var s1 := TicksFireOnce(d, s, ticks, |ticks|);
        KeptFiredOnce(s1);
      }
    }
  }

  lemma {:induction false} SharedArms(armed: seq<Armed>) returns (i: nat, j: nat)
    requires SharedId(armed)
    ensures i < j < |armed| && armed[i].priced && armed[j].priced && armed[i].id == armed[j].id
  {
    i, j :| 0 <= i < j < |armed| && armed[i].priced && armed[j].priced && armed[i].id == armed[j].id;
  }

  lemma {:induction false} RebuiltSync(armed: seq<Armed>)
    ensures Sync(armed, Rebuilt(armed, |armed|))
  {
    RebuiltIsSync(armed, |armed|);
  }

  lemma {:induction false} TwoTicks(d: Desk, ticks: seq<Event>)
    requires |ticks| == 2 && ticks[0].Tick? && ticks[1].Tick?
    ensures AllTicks(ticks)
    ensures Ticked(d, ticks, 2) == OnTick(OnTick(d, ticks[0].price, ticks[0].ts), ticks[1].price, ticks[1].ts)
  {
    hide OnTick;
    assert Ticked(d, ticks, 0) == d;
    assert Ticked(d, ticks, 1) == Step(d, ticks[0]);
  }

  lemma {:induction false} KeptFiredOnce(d: Desk)
    requires Kept(d)
    ensures FiredOnce(d.fired)
  {
  }

  /** The indexed part of a newly armed list keeps the day's invariant if no two share an id. */
  lemma {:induction false} PricedKept(d: Desk, news: seq<Armed>, limit: nat, s: Desk)
    requires Kept(d) && s.fired == d.fired && s.triggered == d.triggered
    requires var armed := Arm(d, news, limit, 0); !SharedId(armed) && s.armed == Priced(armed, |armed|)
    ensures Kept(s)
  {
    hide FiredOnce;
    var armed := Arm(d, news, limit, 0);
    ArmedFresh(d, news, limit, 0);
    PricedUnique(armed, |armed|);
    forall j | 0 <= j < |s.armed| ensures s.armed[j].id !in s.triggered {
      var i := PricedIsArmed(armed, |armed|, j);
    }
  }

  ghost predicate Fresh(armed: seq<Armed>, triggered: set<string>) {
    forall i :: 0 <= i < |armed| ==> armed[i].id !in triggered
  }

  lemma {:induction false} ArmedFresh(d: Desk, news: seq<Armed>, limit: nat, n: nat)
    requires n <= |news| && Fresh(d.armed, d.triggered)
    ensures Fresh(Arm(d, news, limit, n), d.triggered)
    decreases |news| - n
  {
    if n == |news| || |d.armed| >= limit {
    } else if news[n].id in d.triggered {
      ArmedFresh(d, news, limit, n + 1);
    } else {
      ArmedFresh(d.(armed := d.armed + [news[n]]), news, limit, n + 1);
    }
  }

  /** One variant armed at two levels, both below the price. */
  function ArmedTwice(): seq<Armed> {
    [Armed("v", "5m", Long, true, 1.0, 0, 10), Armed("v", "5m", Long, true, 2.0, 0, 10)]
  }

  /** Arming does not reject a variant that is already armed; such a variant fires twice. */
  lemma {:induction false} ArmedTwiceFiresTwice()
    ensures var d := Step(Step(Desk([], {}, EMPTY, []), Arming(ArmedTwice(), 10)), Rebuild);
            var e := Step(d, Tick(3.0, 0));
            d.armed == ArmedTwice() && |e.fired| == 2 && !FiredOnce(e.fired)
  {
    hide OnTick, Rebuilt, Round2, LevelFires, Sync, Listed, Grouped, FiredOnce;
    var a := ArmedTwice();
    var d := Desk(a, {}, Rebuilt(a, 2), []);
    BothArmed();
    RebuiltIsSync(a, 2);
    SyncOf(a, Rebuilt(a, 2));
    TickFiresTheLevels(d, 3.0, 0);
    var f1, f2 := Fire("v", GroupKey(Long, 1.0), 3.0, 0), Fire("v", GroupKey(Long, 2.0), 3.0, 0);
    BothReached();
    var fired := OnTick(d, 3.0, 0).fired;
    assert fired[0..] == fired;
    TwoFires(fired, f1, f2);
  }

  lemma {:induction false} SyncOf(armed: seq<Armed>, x: Index)
    requires Listed(x) && Grouped(armed, |armed|, x)
    ensures Sync(armed, x)
  {
  }

  lemma {:induction false} BothArmed()
    ensures Arm(Desk([], {}, EMPTY, []), ArmedTwice(), 10, 0) == ArmedTwice()
  {
    var a := ArmedTwice();
    var d0 := Desk([], {}, EMPTY, []);
    assert Arm(d0.(armed := a), a, 10, 2) == a;
    assert [a[0]] + [a[1]] == a;
    assert Arm(d0.(armed := [a[0]]), a, 10, 1) == a;
    assert [] + [a[0]] == [a[0]];
  }

  lemma {:induction false} BothReached()
    ensures LevelFires(ArmedTwice(), 3.0, 0, 2) ==
              [Fire("v", GroupKey(Long, 1.0), 3.0, 0)] + [Fire("v", GroupKey(Long, 2.0), 3.0, 0)]
  {
    hide Round2;
    WholeLevels();
    assert LevelFires(ArmedTwice(), 3.0, 0, 0) == [];
    assert LevelFires(ArmedTwice(), 3.0, 0, 1) == [Fire("v", GroupKey(Long, 1.0), 3.0, 0)];
  }

  lemma {:induction false} WholeLevels()
    ensures Round2(1.0) == 1.0 && Round2(2.0) == 2.0
  {
    RoundWhole(100);
    RoundWhole(200);
  }

  lemma {:induction false} TwoFires(fired: seq<Fire>, f1: Fire, f2: Fire)
    requires multiset(fired) == multiset([f1] + [f2]) && f1.id == f2.id
    ensures |fired| == 2 && !FiredOnce(fired)
  {
    assert |multiset(fired)| == |multiset([f1] + [f2])| == 2;
    assert fired[0] in multiset(fired) && fired[1] in multiset(fired);
  }
}
