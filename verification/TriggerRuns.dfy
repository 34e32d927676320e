/** Whole runs of arming, cleaning, rebuilding and ticking. */
module TriggerRuns {
  import opened Prelude
  import opened ExitPlans
  import opened PositionSizing
  import opened TriggerDesk
  import opened TriggerLaws

  ghost predicate Unique(armed: seq<Armed>) {
    forall i, j :: 0 <= i < j < |armed| ==> armed[i].id != armed[j].id
  }

  ghost predicate FiredOnce(fired: seq<Fire>) {
    forall i, j :: 0 <= i < j < |fired| ==> fired[i].id != fired[j].id
  }

  // ----- what a group's members are -----

  lemma {:induction false} MembersPrefix(a: seq<Armed>, b: seq<Armed>, k: GroupKey, n: nat)
    requires n <= |a| && n <= |b| && forall i :: 0 <= i < n ==> a[i] == b[i]
    ensures Members(a, k, n) == Members(b, k, n)
  {
    if n > 0 { MembersPrefix(a, b, k, n - 1); }
  }

  lemma {:induction false} MembersAppend(s: seq<Armed>, a: Armed, k: GroupKey)
    ensures Members(s + [a], k, |s| + 1) == Members(s, k, |s|) + if a.priced && KeyOf(a) == k then [a] else []
  {
    MembersPrefix(s, s + [a], k, |s|);
  }

  lemma {:induction false} MemberIsArmed(armed: seq<Armed>, k: GroupKey, n: nat, j: nat) returns (i: nat)
    requires n <= |armed| && j < |Members(armed, k, n)|
    ensures i < n && armed[i] == Members(armed, k, n)[j] && armed[i].priced && KeyOf(armed[i]) == k
  {
    hide KeyOf;
    if j < |Members(armed, k, n - 1)| { i := MemberIsArmed(armed, k, n - 1, j); } else { i := n - 1; }
  }

  lemma {:induction false} ArmedIsMember(armed: seq<Armed>, k: GroupKey, n: nat, i: nat)
    requires i < n <= |armed| && armed[i].priced && KeyOf(armed[i]) == k
    ensures armed[i] in Members(armed, k, n)
  {
    hide KeyOf;
    if i < n - 1 {
      ArmedIsMember(armed, k, n - 1, i);
    } else {
      assert Members(armed, k, n) == Members(armed, k, n - 1) + [armed[i]];
    }
  }

  lemma {:induction false} HasKeyIsMembers(armed: seq<Armed>, k: GroupKey, n: nat)
    requires n <= |armed|
    ensures HasKey(armed, k, n) <==> Members(armed, k, n) != []
  {
    hide KeyOf;
    if HasKey(armed, k, n) {
      var i :| 0 <= i < n && armed[i].priced && KeyOf(armed[i]) == k;
      ArmedIsMember(armed, k, n, i);
    } else {
      NoMembers(armed, k, n);
    }
  }

  lemma {:induction false} MembersUnique(armed: seq<Armed>, k: GroupKey, n: nat)
    requires n <= |armed| && Unique(armed)
    ensures Unique(Members(armed, k, n))
  {
    hide KeyOf;
    if n > 0 {
      MembersUnique(armed, k, n - 1);
      var rest := Members(armed, k, n - 1);
      forall j | 0 <= j < |rest| ensures rest[j].id != armed[n - 1].id {
        var i := MemberIsArmed(armed, k, n - 1, j);
      }
    }
  }

  lemma {:induction false} IdsHold(members: seq<Armed>, n: nat, id: string)
    requires n <= |members|
    ensures id in Ids(members, n) <==> exists j :: 0 <= j < n && members[j].id == id
  {
    if n > 0 {
      IdsHold(members, n - 1, id);
      if id in Ids(members, n) {
        if id == members[n - 1].id {
          assert members[n - 1].id == id;
        } else {
          var j :| 0 <= j < n - 1 && members[j].id == id;
          assert j < n;
        }
      }
    }
  }

  /** `ids` are exactly the ids of the armed price-type variants at a key. */
  ghost predicate Targets(armed: seq<Armed>, ids: set<string>, key: GroupKey) {
    forall i :: 0 <= i < |armed| ==> (armed[i].id in ids <==> armed[i].priced && KeyOf(armed[i]) == key)
  }

  lemma {:induction false} IdsAreTargets(armed: seq<Armed>, key: GroupKey)
    requires Unique(armed)
    ensures var m := Members(armed, key, |armed|); Targets(armed, Ids(m, |m|), key)
  {
    hide KeyOf, Ids;
    var m := Members(armed, key, |armed|);
    forall i | 0 <= i < |armed| ensures armed[i].id in Ids(m, |m|) <==> armed[i].priced && KeyOf(armed[i]) == key {
      IdsHold(m, |m|, armed[i].id);
      if armed[i].id in Ids(m, |m|) {
        var j :| 0 <= j < |m| && m[j].id == armed[i].id;
        var i1 := MemberIsArmed(armed, key, |armed|, j);
      }
      if armed[i].priced && KeyOf(armed[i]) == key {
        ArmedIsMember(armed, key, |armed|, i);
      }
    }
  }

  // ----- disarming -----

  lemma {:induction false} DisarmedIsArmed(armed: seq<Armed>, ids: set<string>, n: nat, j: nat) returns (i: nat)
    requires n <= |armed| && j < |Disarmed(armed, ids, n)|
    ensures j <= i < n && armed[i] == Disarmed(armed, ids, n)[j] && armed[i].id !in ids
  {
    if j < |Disarmed(armed, ids, n - 1)| {
      i := DisarmedIsArmed(armed, ids, n - 1, j);
    } else {
      i := n - 1;
      DisarmedShrinks(armed, ids, n - 1);
    }
  }

  lemma {:induction false} DisarmedShrinks(armed: seq<Armed>, ids: set<string>, n: nat)
    requires n <= |armed|
    ensures |Disarmed(armed, ids, n)| <= n
  {
    if n > 0 { DisarmedShrinks(armed, ids, n - 1); }
  }

  lemma {:induction false} DisarmedUnique(armed: seq<Armed>, ids: set<string>, n: nat)
    requires n <= |armed| && Unique(armed)
    ensures Unique(Disarmed(armed, ids, n))
  {
    if n > 0 {
      DisarmedUnique(armed, ids, n - 1);
      var rest := Disarmed(armed, ids, n - 1);
      forall j | 0 <= j < |rest| ensures rest[j].id != armed[n - 1].id {
        var i := DisarmedIsArmed(armed, ids, n - 1, j);
      }
    }
  }

  /** Disarming a group's ids empties that group and leaves every other as it was. */
  lemma {:induction false} MembersAfter(armed: seq<Armed>, ids: set<string>, key: GroupKey, n: nat, k: GroupKey)
    requires n <= |armed| && Targets(armed, ids, key)
    ensures var r := Disarmed(armed, ids, n);
            Members(r, k, |r|) == if k == key then [] else Members(armed, k, n)
  {
    hide KeyOf;
    if n > 0 {
      var a, rest := armed[n - 1], Disarmed(armed, ids, n - 1);
      MembersAfter(armed, ids, key, n - 1, k);
      MembersAppend(rest, a, k);
      if a.id in ids {
        assert Disarmed(armed, ids, n) == rest;
      } else {
        assert Disarmed(armed, ids, n) == rest + [a];
      }
    }
  }

  // ----- removing a group from the index -----

  lemma {:induction false} RemoveLevelFacts(levels: seq<real>, level: real)
    requires Ascending(levels)
    ensures Ascending(RemoveLevel(levels, level))
    ensures forall l :: l in RemoveLevel(levels, level) <==> l in levels && l != level
  {
    if levels != [] {
      assert levels == [levels[0]] + levels[1..];
      if levels[0] == level {
        NotLater(levels, 0);
      } else {
        RemoveLevelFacts(levels[1..], level);
        var t := RemoveLevel(levels[1..], level);
        forall l | l in t ensures levels[0] < l {
          var i :| 0 <= i < |levels[1..]| && levels[1..][i] == l;
          assert levels[i + 1] == l;
        }
        AscendingCons(levels[0], t);
      }
    }
  }

  lemma {:induction false} RoundTwice(x: real)
    ensures Round2(Round2(x)) == Round2(x)
  {
    var n := RoundHalfEven(x * 100.0);
    assert Round2(x) * 100.0 == n as real;
    RoundWhole(n);
  }

  lemma {:induction false} RemoveGroupLists(x: Index, key: GroupKey)
    requires Listed(x) && key in x.groups && Round2(key.level) == key.level
    ensures var y := RemoveGroup(x, key); Listed(y) && y.groups == x.groups - {key}
  {
    hide Ascending, RemoveLevel, Round2;
    assert key == GroupKey(key.direction, key.level);
    if key.direction.Long? { RemoveLevelFacts(x.longs, key.level); } else { RemoveLevelFacts(x.shorts, key.level); }
  }

  lemma {:induction false} LevelIsRounded(armed: seq<Armed>, x: Index, key: GroupKey)
    requires Sync(armed, x) && key in x.groups
    ensures Round2(key.level) == key.level
  {
    hide Round2, Listed;
    assert HasKey(armed, key, |armed|);
    var i :| 0 <= i < |armed| && armed[i].priced && KeyOf(armed[i]) == key;
    RoundTwice(armed[i].trigger);
  }

  /** After firing a group the index still mirrors the armed list. */
  lemma {:induction false} FireKeepsSync(armed: seq<Armed>, x: Index, key: GroupKey, ids: set<string>)
    requires Sync(armed, x) && key in x.groups && Targets(armed, ids, key)
    ensures var r := Disarmed(armed, ids, |armed|); Sync(r, RemoveGroup(x, key))
  {
    hide KeyOf, Listed, HasKey, Members, Disarmed, RemoveGroup, Targets;
    var r := Disarmed(armed, ids, |armed|);
    LevelIsRounded(armed, x, key);
    RemoveGroupLists(x, key);
    var y := RemoveGroup(x, key);
    forall k
      ensures k in y.groups <==> HasKey(r, k, |r|)
      ensures k in y.groups ==> y.groups[k] == Members(r, k, |r|)
    {
      MembersAfter(armed, ids, key, |armed|, k);
      HasKeyIsMembers(r, k, |r|);
      HasKeyIsMembers(armed, k, |armed|);
    }
  }

  // ----- the invariant -----

  /** Ids are armed once and not after they fired; nothing fired twice since the last reset. */
  ghost predicate Kept(d: Desk) {
    && Unique(d.armed)
    && (forall i :: 0 <= i < |d.armed| ==> d.armed[i].id !in d.triggered)
    && FiredOnce(d.fired)
    && (forall i :: 0 <= i < |d.fired| ==> d.fired[i].id in d.triggered)
  }

  lemma {:induction false} FiresAt(members: seq<Armed>, n: nat, key: GroupKey, price: real, ts: int)
    requires n <= |members|
    ensures |FiresOf(members, n, key, price, ts)| == n
    ensures forall i :: 0 <= i < n ==> FiresOf(members, n, key, price, ts)[i] == Fire(members[i].id, key, price, ts)
  {
    if n > 0 { FiresAt(members, n - 1, key, price, ts); }
  }

  lemma {:induction false} FireKeeps(d: Desk, key: GroupKey, price: real, ts: int)
    requires Kept(d) && Sync(d.armed, d.index) && key in d.index.groups
    ensures var e := FireGroup(d, key, d.index.groups[key], price, ts);
            Kept(e) && Sync(e.armed, e.index) && e.index.groups == d.index.groups - {key}
  {
    hide KeyOf, Listed, HasKey, Disarmed, RemoveGroup, Targets, Ids, FiresOf, Unique, FiredOnce;
    var m := Members(d.armed, key, |d.armed|);
    assert d.index.groups[key] == m;
    var ids := Ids(m, |m|);
    IdsAreTargets(d.armed, key);
    FireKeepsSync(d.armed, d.index, key, ids);
    LevelIsRounded(d.armed, d.index, key);
    RemoveGroupLists(d.index, key);
    DisarmedUnique(d.armed, ids, |d.armed|);
    MembersUnique(d.armed, key, |d.armed|);
    DisarmedFree(d, ids);
    QueueKeeps(d, m, key, price, ts);
  }

  lemma {:induction false} DisarmedFree(d: Desk, ids: set<string>)
    requires forall i :: 0 <= i < |d.armed| ==> d.armed[i].id !in d.triggered
    ensures var r := Disarmed(d.armed, ids, |d.armed|);
            forall j :: 0 <= j < |r| ==> r[j].id !in d.triggered + ids
  {
    var r := Disarmed(d.armed, ids, |d.armed|);
    forall j | 0 <= j < |r| ensures r[j].id !in d.triggered + ids {
      var i := DisarmedIsArmed(d.armed, ids, |d.armed|, j);
    }
  }

  lemma {:induction false} QueueKeeps(d: Desk, m: seq<Armed>, key: GroupKey, price: real, ts: int)
    requires Kept(d) && Unique(m) && m == Members(d.armed, key, |d.armed|)
    ensures var queue := d.fired + FiresOf(m, |m|, key, price, ts);
            && FiredOnce(queue)
            && forall i :: 0 <= i < |queue| ==> queue[i].id in d.triggered + Ids(m, |m|)
  {
    hide KeyOf, Members;
    var fires := FiresOf(m, |m|, key, price, ts);
    FiresAt(m, |m|, key, price, ts);
    forall i | 0 <= i < |m| ensures m[i].id !in d.triggered && m[i].id in Ids(m, |m|) {
      var a := MemberIsArmed(d.armed, key, |d.armed|, i);
      IdsHold(m, |m|, m[i].id);
    }
  }

  lemma {:induction false} FireAllKeeps(d: Desk, groups: map<GroupKey, seq<Armed>>, keys: seq<GroupKey>, i: nat,
        price: real, ts: int)
    requires Kept(d) && Sync(d.armed, d.index) && Distinct(keys) && i <= |keys|
    requires forall j :: 0 <= j < |keys| ==> keys[j] in groups
    requires forall j :: i <= j < |keys| ==> keys[j] in d.index.groups && groups[keys[j]] == d.index.groups[keys[j]]
    ensures var e := FireAll(d, groups, keys, i, price, ts); Kept(e) && Sync(e.armed, e.index)
    decreases |keys| - i
  {
    hide Kept, Sync, FireGroup;
    if i < |keys| {
      FireKeeps(d, keys[i], price, ts);
      FireAllKeeps(FireGroup(d, keys[i], groups[keys[i]], price, ts), groups, keys, i + 1, price, ts);
    }
  }

  lemma {:induction false} TickKeeps(d: Desk, price: real, ts: int)
    requires Kept(d) && Sync(d.armed, d.index)
    ensures var e := OnTick(d, price, ts); Kept(e) && Sync(e.armed, e.index)
  {
    hide Kept, FireAll, CheckTriggers, Grouped, Distinct, Listed;
    HitsAreKeys(d.index, price);
    HitsAreExact(d.index, price);
    FireAllKeeps(d, d.index.groups, CheckTriggers(d.index, price), 0, price, ts);
  }

  /** New arms are armed at most once: distinct, and not armed already. */
  ghost predicate NewArms(d: Desk, news: seq<Armed>) {
    && Unique(news)
    && forall i, j :: 0 <= i < |news| && 0 <= j < |d.armed| ==> news[i].id != d.armed[j].id
  }

  lemma {:induction false} ArmKeeps(d: Desk, news: seq<Armed>, limit: nat, n: nat)
    requires Kept(d) && n <= |news| && Unique(news)
    requires forall i, j :: n <= i < |news| && 0 <= j < |d.armed| ==> news[i].id != d.armed[j].id
    ensures Kept(d.(armed := Arm(d, news, limit, n)))
    decreases |news| - n
  {
    hide FiredOnce;
    if n < |news| && |d.armed| < limit {
      if news[n].id in d.triggered {
        ArmKeeps(d, news, limit, n + 1);
      } else {
        var d1 := d.(armed := d.armed + [news[n]]);
        ArmKeeps(d1, news, limit, n + 1);
        assert d1.(armed := Arm(d1, news, limit, n + 1)) == d.(armed := Arm(d, news, limit, n));
      }
    }
  }

  lemma {:induction false} CleanedIsArmed(armed: seq<Armed>, candle: int, timeframe: Option<string>, n: nat, j: nat)
    returns (i: nat)
    requires n <= |armed| && j < |Cleaned(armed, candle, timeframe, n)|
    ensures i < n && armed[i] == Cleaned(armed, candle, timeframe, n)[j]
  {
    if j < |Cleaned(armed, candle, timeframe, n - 1)| {
      i := CleanedIsArmed(armed, candle, timeframe, n - 1, j);
    } else {
      i := n - 1;
    }
  }

  lemma {:induction false} CleanedUnique(armed: seq<Armed>, candle: int, timeframe: Option<string>, n: nat)
    requires n <= |armed| && Unique(armed)
    ensures Unique(Cleaned(armed, candle, timeframe, n))
  {
    if n > 0 {
      CleanedUnique(armed, candle, timeframe, n - 1);
      var rest := Cleaned(armed, candle, timeframe, n - 1);
      forall j | 0 <= j < |rest| ensures rest[j].id != armed[n - 1].id {
        var i := CleanedIsArmed(armed, candle, timeframe, n - 1, j);
      }
    }
  }

  lemma {:induction false} CleanupKeeps(d: Desk, candle: int, timeframe: Option<string>)
    requires Kept(d)
    ensures Kept(d.(armed := Cleaned(d.armed, candle, timeframe, |d.armed|)))
  {
    hide FiredOnce, Unique;
    CleanedUnique(d.armed, candle, timeframe, |d.armed|);
    var r := Cleaned(d.armed, candle, timeframe, |d.armed|);
    forall j | 0 <= j < |r| ensures r[j].id !in d.triggered {
      var i := CleanedIsArmed(d.armed, candle, timeframe, |d.armed|, j);
    }
  }

  /** Nothing armed or expired since the last rebuild. */
  predicate InStep(es: seq<Event>, n: nat)
    requires n <= |es|
  {
    n == 0 ||
    match es[n - 1]
    case Arming(_, _) => false
    case Cleanup(_, _) => false
    case Rebuild => true
    case Tick(_, _) => InStep(es, n - 1)
    case DailyReset => true
  }

  /** Ticks come only with the index in step, and each id is armed at most once. */
  ghost predicate Orderly(es: seq<Event>) {
    forall n :: 0 <= n < |es| ==>
      && (es[n].Tick? ==> InStep(es, n))
      && (es[n].Arming? ==> NewArms(Run(es, n), es[n].news))
  }

  /** Over every orderly run: armed and triggered stay disjoint, no variant fires twice in a
      day, and whenever the index is in step it mirrors the armed list. */
  lemma {:induction false} RunKeeps(es: seq<Event>, n: nat)
    requires n <= |es| && Orderly(es)
    ensures Kept(Run(es, n)) && (InStep(es, n) ==> Sync(Run(es, n).armed, Run(es, n).index))
  {
    hide Kept, Sync, OnTick, Arm, Cleaned, Rebuilt, NewArms, Orderly;
    if n == 0 {
      Nothing();
    } else {
      RunKeeps(es, n - 1);
      var d := Run(es, n - 1);
      InOrder(es, n - 1);
      match es[n - 1]
      case Arming(news, limit) => ArmsKeep(d, news, limit);
      case Cleanup(candle, timeframe) => CleanupKeeps(d, candle, timeframe);
      case Rebuild => RebuildKeeps(d);
      case Tick(price, ts) => TickKeeps(d, price, ts);
      case DailyReset => Nothing();
    }
  }

  lemma {:induction false} InOrder(es: seq<Event>, n: nat)
    requires Orderly(es) && n < |es|
    ensures es[n].Tick? ==> InStep(es, n)
    ensures es[n].Arming? ==> NewArms(Run(es, n), es[n].news)
  {
  }

  lemma {:induction false} Nothing()
    ensures Kept(Desk([], {}, EMPTY, [])) && Sync([], EMPTY)
  {
  }

  lemma {:induction false} ArmsKeep(d: Desk, news: seq<Armed>, limit: nat)
    requires Kept(d) && NewArms(d, news)
    ensures Kept(d.(armed := Arm(d, news, limit, 0)))
  {
    ArmKeeps(d, news, limit, 0);
  }

  lemma {:induction false} RebuildKeeps(d: Desk)
    requires Kept(d)
    ensures Kept(d.(index := Rebuilt(d.armed, |d.armed|))) && Sync(d.armed, Rebuilt(d.armed, |d.armed|))
  {
    hide Listed, Grouped, Unique, FiredOnce;
    RebuiltIsSync(d.armed, |d.armed|);
  }

  /** A tick of an orderly run fires what a full scan of the armed variants would exactly when
      the price lies between no variant's trigger and its rounded level. */
  lemma {:induction false} EveryTickFiresTheScan(es: seq<Event>, n: nat)
    requires Orderly(es) && n < |es| && es[n].Tick?
    ensures FiresTheScan(Run(es, n), es[n].price, es[n].ts) <==> NoneBetween(Run(es, n).armed, es[n].price)
    ensures Run(es, n + 1) == OnTick(Run(es, n), es[n].price, es[n].ts)
  {
    hide Kept, Sync, FiresTheScan, OnTick, Orderly;
    RunKeeps(es, n);
    InOrder(es, n);
    TickFiresTheScan(Run(es, n), es[n].price, es[n].ts);
  }

  // ----- runs whose triggers need no rounding -----

  lemma {:induction false} ArmOnGrid(d: Desk, news: seq<Armed>, limit: nat, n: nat)
    requires n <= |news| && OnGrid(d.armed) && OnGrid(news)
    ensures OnGrid(Arm(d, news, limit, n))
    decreases |news| - n
  {
    hide Round2;
    if n < |news| && |d.armed| < limit {
      ArmOnGrid(if news[n].id in d.triggered then d else d.(armed := d.armed + [news[n]]), news, limit, n + 1);
    }
  }

  lemma {:induction false} FilteredOnGrid(armed: seq<Armed>, ids: set<string>, candle: int, timeframe: Option<string>,
        n: nat)
    requires n <= |armed| && OnGrid(armed)
    ensures OnGrid(Disarmed(armed, ids, n)) && OnGrid(Cleaned(armed, candle, timeframe, n))
  {
    hide Round2;
    if n > 0 { FilteredOnGrid(armed, ids, candle, timeframe, n - 1); }
  }

  lemma {:induction false} FireAllOnGrid(d: Desk, groups: map<GroupKey, seq<Armed>>, keys: seq<GroupKey>, i: nat,
        price: real, ts: int)
    requires i <= |keys| && (forall j :: 0 <= j < |keys| ==> keys[j] in groups) && OnGrid(d.armed)
    ensures OnGrid(FireAll(d, groups, keys, i, price, ts).armed)
    decreases |keys| - i
  {
    hide OnGrid, RemoveGroup, FiresOf, Ids, Disarmed;
    if i < |keys| {
      var members := groups[keys[i]];
      FilteredOnGrid(d.armed, Ids(members, |members|), 0, None, |d.armed|);
      FireAllOnGrid(FireGroup(d, keys[i], members, price, ts), groups, keys, i + 1, price, ts);
    }
  }

  lemma {:induction false} RunOnGrid(es: seq<Event>, n: nat)
    requires n <= |es| && forall k :: 0 <= k < n && es[k].Arming? ==> OnGrid(es[k].news)
    ensures OnGrid(Run(es, n).armed)
  {
    hide Round2, FireAll, Arm, Cleaned, Rebuilt, CheckTriggers;
    if n > 0 {
      RunOnGrid(es, n - 1);
      var d := Run(es, n - 1);
      match es[n - 1]
      case Arming(news, limit) => ArmOnGrid(d, news, limit, 0);
      case Cleanup(candle, timeframe) => FilteredOnGrid(d.armed, {}, candle, timeframe, |d.armed|);
      case Rebuild =>
      case Tick(price, ts) =>
        HitsAreKeys(d.index, price);
        FireAllOnGrid(d, d.index.groups, CheckTriggers(d.index, price), 0, price, ts);
      case DailyReset =>
    }
  }

  /** An orderly run that arms only whole-hundredth triggers fires the scan at every tick. */
  lemma {:induction false} GridRunsFireTheScan(es: seq<Event>, n: nat)
    requires Orderly(es) && n < |es| && es[n].Tick?
    requires forall k :: 0 <= k < n && es[k].Arming? ==> OnGrid(es[k].news)
    ensures FiresTheScan(Run(es, n), es[n].price, es[n].ts)
  {
    hide Kept, Sync, FiresTheScan, OnGrid, Orderly;
    RunOnGrid(es, n);
    RunKeeps(es, n);
    InOrder(es, n);
    EveryPriceFiresTheScan(Run(es, n));
  }

  /** A long whose trigger rounds down, and a price that reaches only its level. */
  function RoundedDown(): seq<Event> {
    [Arming([Armed("v", "5m", Long, true, 100.004, 0, 10)], 10), Rebuild, Tick(100.0, 0)]
  }

  /** An orderly run that fires a variant whose trigger the price never reached. */
  lemma {:induction false} FiresBeforeItsTrigger()
    ensures var es := RoundedDown();
            && Orderly(es)
            && Run(es, 2).armed == es[0].news && es[2].price < es[0].news[0].trigger
            && |Run(es, 3).fired| == 1 && ScanFires(Run(es, 2).armed, es[2].price, 0, 1) == []
            && !FiresTheScan(Run(es, 2), es[2].price, 0)
  {
    hide OnTick, Rebuilt, Round2, LevelFires, ScanFires, Sync, FiresTheScan, Orderly;
    var es := RoundedDown();
    var a := es[0].news[0];
    RoundsToHundred();
    OneArmed(es, a);
    var d := Run(es, 2);
    EveryTickFiresTheScan(es, 2);
    RunKeeps(es, 2);
    TickFiresTheLevels(d, 100.0, 0);
    OneFires(a, 100.0);
    assert Between(a, 100.0);
    assert OnTick(d, 100.0, 0).fired[0..] == OnTick(d, 100.0, 0).fired;
    OnlyOne(OnTick(d, 100.0, 0).fired, Fire("v", GroupKey(Long, 100.0), 100.0, 0));
  }

  lemma {:induction false} RoundsToHundred()
    ensures Round2(100.004) == 100.0
  {
  }

  lemma {:induction false} OnlyOne(fired: seq<Fire>, f: Fire)
    requires multiset(fired) == multiset([f])
    ensures |fired| == 1
  {
    assert |multiset(fired)| == |multiset([f])|;
  }

  lemma {:induction false} OneFires(a: Armed, price: real)
    requires a.priced && Between(a, price) && a.direction.Long? && KeyOf(a).level <= price
    ensures LevelFires([a], price, 0, 1) == [Fire(a.id, KeyOf(a), price, 0)] && ScanFires([a], price, 0, 1) == []
  {
    hide Round2;
    assert LevelFires([a], price, 0, 0) == [] && ScanFires([a], price, 0, 0) == [];
  }

  lemma {:induction false} OneArmed(es: seq<Event>, a: Armed)
    requires |es| == 3 && es[0] == Arming([a], 10) && es[1] == Rebuild && es[2].Tick?
    ensures Orderly(es) && Run(es, 2).armed == [a] && Run(es, 2).fired == []
  {
    hide OnTick, Rebuilt;
    var d0 := Desk([], {}, EMPTY, []);
    assert Run(es, 0) == d0;
    assert [] + [a] == [a];
    assert Arm(d0.(armed := [a]), [a], 10, 1) == [a];
    assert Arm(d0, [a], 10, 0) == [a];
    assert Run(es, 1) == d0.(armed := [a]);
    assert Run(es, 2) == d0.(armed := [a], index := Rebuilt([a], 1));
  }
}
