/** The sorted level index with early exit fires exactly the variants whose rounded level is
    reached, and exactly what a scan of their triggers would wherever rounding does not matter. */
module TriggerLaws {
  import opened ExitPlans
  import opened PositionSizing
  import opened TriggerDesk

  // ----- the index mirrors the armed list -----

  function Members(armed: seq<Armed>, k: GroupKey, n: nat): seq<Armed>
    requires n <= |armed|
  {
    if n == 0 then []
    else Members(armed, k, n - 1) + if armed[n - 1].priced && KeyOf(armed[n - 1]) == k then [armed[n - 1]] else []
  }

  ghost predicate HasKey(armed: seq<Armed>, k: GroupKey, n: nat)
    requires n <= |armed|
  {
    exists i :: 0 <= i < n && armed[i].priced && KeyOf(armed[i]) == k
  }

  ghost predicate Ascending(levels: seq<real>) {
    forall i, j :: 0 <= i < j < |levels| ==> levels[i] < levels[j]
  }

  /** Levels are strictly sorted and are exactly the levels of the groups. */
  ghost predicate Listed(x: Index) {
    && Ascending(x.longs) && Ascending(x.shorts)
    && (forall l :: l in x.longs <==> GroupKey(Long, l) in x.groups)
    && (forall l :: l in x.shorts <==> GroupKey(Short, l) in x.groups)
  }

  /** The groups partition the first `n` armed price-type variants by rounded level. */
  ghost predicate Grouped(armed: seq<Armed>, n: nat, x: Index)
    requires n <= |armed|
  {
    && (forall k :: k in x.groups <==> HasKey(armed, k, n))
    && (forall k :: k in x.groups ==> x.groups[k] == Members(armed, k, n))
  }

  ghost predicate Sync(armed: seq<Armed>, x: Index) {
    Listed(x) && Grouped(armed, |armed|, x)
  }

  lemma {:induction false} HasKeyNext(armed: seq<Armed>, k: GroupKey, n: nat)
    requires n < |armed|
    ensures HasKey(armed, k, n + 1) <==> HasKey(armed, k, n) || (armed[n].priced && KeyOf(armed[n]) == k)
  {
    if HasKey(armed, k, n) {
      var i :| 0 <= i < n && armed[i].priced && KeyOf(armed[i]) == k;
      assert i < n + 1;
    }
  }

  lemma {:induction false} NoMembers(armed: seq<Armed>, k: GroupKey, n: nat)
    requires n <= |armed| && !HasKey(armed, k, n)
    ensures Members(armed, k, n) == []
  {
    hide KeyOf;
    if n > 0 {
      HasKeyNext(armed, k, n - 1);
      NoMembers(armed, k, n - 1);
    }
  }

  lemma {:induction false} AscendingCons(level: real, t: seq<real>)
    requires Ascending(t) && forall l :: l in t ==> level < l
    ensures Ascending([level] + t)
  {
    var s := [level] + t;
    forall i, j | 0 <= i < j < |s| ensures s[i] < s[j] {
      assert s[j] == t[j - 1] && t[j - 1] in t;
    }
  }

  lemma {:induction false} InsertKeepsAscending(levels: seq<real>, level: real)
    requires Ascending(levels) && level !in levels
    ensures Ascending(InsertLevel(levels, level))
    ensures forall l :: l in InsertLevel(levels, level) <==> l in levels || l == level
  {
    if levels != [] && level >= levels[0] {
      assert levels == [levels[0]] + levels[1..];
      InsertKeepsAscending(levels[1..], level);
      var t := InsertLevel(levels[1..], level);
      forall l | l in t ensures levels[0] < l {
        if l in levels[1..] {
          var i :| 0 <= i < |levels[1..]| && levels[1..][i] == l;
          assert levels[i + 1] == l;
        }
      }
      AscendingCons(levels[0], t);
    } else if levels != [] {
      forall l | l in levels ensures level < l {
        var i :| 0 <= i < |levels| && levels[i] == l;
      }
      AscendingCons(level, levels);
    }
  }

  lemma {:induction false} AddLists(x: Index, a: Armed)
    requires Listed(x)
    ensures Listed(Add(x, a))
  {
    hide KeyOf, InsertLevel, Ascending;
    var k := KeyOf(a);
    if a.priced && k !in x.groups {
      if k.direction.Long? {
        assert k == GroupKey(Long, k.level);
        InsertKeepsAscending(x.longs, k.level);
      } else {
        assert k == GroupKey(Short, k.level);
        InsertKeepsAscending(x.shorts, k.level);
      }
    }
  }

  lemma {:induction false} AddGroups(armed: seq<Armed>, n: nat, x: Index)
    requires n < |armed| && Grouped(armed, n, x)
    ensures Grouped(armed, n + 1, Add(x, armed[n]))
  {
    hide KeyOf, InsertLevel, HasKey;
    var a := armed[n];
    var y := Add(x, a);
    forall k ensures k in y.groups <==> HasKey(armed, k, n + 1) {
      HasKeyNext(armed, k, n);
    }
    forall k | k in y.groups ensures y.groups[k] == Members(armed, k, n + 1) {
      if k !in x.groups { NoMembers(armed, k, n); }
    }
  }

  /** A rebuild puts the index in step with the armed list. */
  lemma {:induction false} RebuiltIsSync(armed: seq<Armed>, n: nat)
    requires n <= |armed|
    ensures Listed(Rebuilt(armed, n)) && Grouped(armed, n, Rebuilt(armed, n))
  {
    hide Add;
    if n == 0 {
    } else {
      RebuiltIsSync(armed, n - 1);
      AddLists(Rebuilt(armed, n - 1), armed[n - 1]);
      AddGroups(armed, n - 1, Rebuilt(armed, n - 1));
    }
  }

  // ----- early exit -----

  lemma {:induction false} LongHitsExact(x: Index, i: nat, price: real, k: GroupKey)
    requires Listed(x) && i <= |x.longs|
    ensures k in LongHits(x, i, price) <==> k.direction.Long? && k.level <= price && k.level in x.longs[i..]
    decreases |x.longs| - i
  {
    hide Ascending;
    if i < |x.longs| {
      assert x.longs[i..] == [x.longs[i]] + x.longs[i + 1..];
      assert x.longs[i] in x.longs;
      if price < x.longs[i] {
        AllAbove(x.longs, i, price, k.level);
      } else {
        LongHitsExact(x, i + 1, price, k);
      }
    }
  }

  lemma {:induction false} AllAbove(levels: seq<real>, i: nat, price: real, level: real)
    requires Ascending(levels) && i < |levels| && price < levels[i]
    ensures level in levels[i..] ==> price < level
  {
    if level in levels[i..] {
      var j :| 0 <= j < |levels[i..]| && levels[i..][j] == level;
      assert levels[i + j] == level;
    }
  }

  lemma {:induction false} ShortHitsExact(x: Index, n: nat, price: real, k: GroupKey)
    requires Listed(x) && n <= |x.shorts|
    ensures k in ShortHits(x, n, price) <==> k.direction.Short? && price <= k.level && k.level in x.shorts[..n]
  {
    hide Ascending;
    if n > 0 {
      assert x.shorts[..n] == x.shorts[..n - 1] + [x.shorts[n - 1]];
      assert x.shorts[n - 1] in x.shorts;
      if price > x.shorts[n - 1] {
        AllBelow(x.shorts, n, price, k.level);
      } else {
        ShortHitsExact(x, n - 1, price, k);
      }
    }
  }

  lemma {:induction false} AllBelow(levels: seq<real>, n: nat, price: real, level: real)
    requires Ascending(levels) && 0 < n <= |levels| && levels[n - 1] < price
    ensures level in levels[..n] ==> level < price
  {
    if level in levels[..n] {
      var j :| 0 <= j < n && levels[j] == level;
    }
  }

  ghost predicate Distinct<T>(s: seq<T>) {
    forall i, j :: 0 <= i < j < |s| ==> s[i] != s[j]
  }

  lemma {:induction false} LongHitsDistinct(x: Index, i: nat, price: real)
    requires Listed(x) && i <= |x.longs|
    ensures Distinct(LongHits(x, i, price))
    decreases |x.longs| - i
  {
    if i < |x.longs| && price >= x.longs[i] {
      LongHitsDistinct(x, i + 1, price);
      var k := GroupKey(Long, x.longs[i]);
      LongHitsExact(x, i + 1, price, k);
      NotLater(x.longs, i);
    }
  }

  lemma {:induction false} NotLater(levels: seq<real>, i: nat)
    requires Ascending(levels) && i < |levels|
    ensures levels[i] !in levels[i + 1..]
    ensures levels[i] !in levels[..i]
  {
  }

  lemma {:induction false} ShortHitsDistinct(x: Index, n: nat, price: real)
    requires Listed(x) && n <= |x.shorts|
    ensures Distinct(ShortHits(x, n, price))
  {
    if n > 0 && price <= x.shorts[n - 1] {
      ShortHitsDistinct(x, n - 1, price);
      var k := GroupKey(Short, x.shorts[n - 1]);
      ShortHitsExact(x, n - 1, price, k);
      NotLater(x.shorts, n - 1);
    }
  }

  /** The early-exit walk finds every group the price has reached, once, and no other. */
  lemma {:induction false} HitsAreExact(x: Index, price: real)
    requires Listed(x)
    ensures Distinct(CheckTriggers(x, price))
    ensures forall k :: k in CheckTriggers(x, price) <==> k in x.groups && k.Reached(price)
  {
    hide LongHits, ShortHits, Distinct;
    var longs, shorts := LongHits(x, 0, price), ShortHits(x, |x.shorts|, price);
    LongHitsDistinct(x, 0, price);
    ShortHitsDistinct(x, |x.shorts|, price);
    assert x.longs[0..] == x.longs && x.shorts[..|x.shorts|] == x.shorts;
    forall k
      ensures k in longs <==> k.direction.Long? && k.level <= price && k.level in x.longs
      ensures k in shorts <==> k.direction.Short? && price <= k.level && k.level in x.shorts
    {
      LongHitsExact(x, 0, price, k);
      ShortHitsExact(x, |x.shorts|, price, k);
    }
    DistinctConcat(longs, shorts);
    NoneDistinct<GroupKey>();
    forall k ensures k in CheckTriggers(x, price) <==> k in x.groups && k.Reached(price) {
      assert k == GroupKey(k.direction, k.level);
      assert k in longs + shorts <==> k in longs || k in shorts;
    }
  }

  lemma {:induction false} NoneDistinct<T>()
    ensures Distinct<T>([])
  {
  }

  lemma {:induction false} DistinctConcat<T>(a: seq<T>, b: seq<T>)
    requires Distinct(a) && Distinct(b) && forall e :: e in a ==> e !in b
    ensures Distinct(a + b)
  {
    var c := a + b;
    forall i, j | 0 <= i < j < |c| ensures c[i] != c[j] {
      if i < |a| <= j {
        assert c[i] == a[i] && c[i] in a;
        assert c[j] == b[j - |a|] && c[j] in b;
      }
    }
  }

  // ----- the variants whose level is reached -----

  /** What every armed variant whose rounded level the price has reached would fire. */
  function LevelFires(armed: seq<Armed>, price: real, ts: int, n: nat): seq<Fire>
    requires n <= |armed|
  {
    if n == 0 then []
    else
      var a := armed[n - 1];
      LevelFires(armed, price, ts, n - 1) +
      if a.priced && KeyOf(a).Reached(price) then [Fire(a.id, KeyOf(a), price, ts)] else []
  }

  /** What the groups from the `i`-th key on fire. */
  function GroupFires(armed: seq<Armed>, n: nat, keys: seq<GroupKey>, i: nat, price: real, ts: int): seq<Fire>
    requires n <= |armed| && i <= |keys|
    decreases |keys| - i
  {
    if i == |keys| then []
    else
      var members := Members(armed, keys[i], n);
      FiresOf(members, |members|, keys[i], price, ts) + GroupFires(armed, n, keys, i + 1, price, ts)
  }

  lemma {:induction false} FiresAppend(members: seq<Armed>, a: Armed, key: GroupKey, price: real, ts: int)
    ensures FiresOf(members + [a], |members| + 1, key, price, ts) ==
              FiresOf(members, |members|, key, price, ts) + [Fire(a.id, key, price, ts)]
  {
    FiresPrefix(members, members + [a], |members|, key, price, ts);
  }

  lemma {:induction false} FiresPrefix(a: seq<Armed>, b: seq<Armed>, n: nat, key: GroupKey, price: real, ts: int)
    requires n <= |a| && n <= |b| && forall i :: 0 <= i < n ==> a[i] == b[i]
    ensures FiresOf(a, n, key, price, ts) == FiresOf(b, n, key, price, ts)
  {
    if n > 0 { FiresPrefix(a, b, n - 1, key, price, ts); }
  }

  /** What one group fires, as a multiset. */
  function GroupBag(armed: seq<Armed>, n: nat, key: GroupKey, price: real, ts: int): multiset<Fire>
    requires n <= |armed|
  {
    var members := Members(armed, key, n);
    multiset(FiresOf(members, |members|, key, price, ts))
  }

  lemma {:induction false} OneMoreMember(armed: seq<Armed>, n: nat, key: GroupKey, price: real, ts: int)
    requires n < |armed|
    ensures GroupBag(armed, n + 1, key, price, ts) ==
              GroupBag(armed, n, key, price, ts) + Own(armed[n], key, price, ts)
  {
    hide KeyOf;
    var m0, m1 := Members(armed, key, n), Members(armed, key, n + 1);
    if armed[n].priced && KeyOf(armed[n]) == key {
      FiresAppend(m0, armed[n], key, price, ts);
      assert m1 == m0 + [armed[n]];
    } else {
      assert m1 == m0;
    }
  }

  /** What the groups from the `i`-th key on fire, as a multiset. */
  function Bag(armed: seq<Armed>, n: nat, keys: seq<GroupKey>, i: nat, price: real, ts: int): multiset<Fire>
    requires n <= |armed| && i <= |keys|
  {
    multiset(GroupFires(armed, n, keys, i, price, ts))
  }

  lemma {:induction false} BagCons(armed: seq<Armed>, n: nat, keys: seq<GroupKey>, i: nat, price: real, ts: int)
    requires n <= |armed| && i < |keys|
    ensures Bag(armed, n, keys, i, price, ts) ==
              GroupBag(armed, n, keys[i], price, ts) + Bag(armed, n, keys, i + 1, price, ts)
  {
    var members := Members(armed, keys[i], n);
    assert GroupFires(armed, n, keys, i, price, ts) ==
      FiresOf(members, |members|, keys[i], price, ts) + GroupFires(armed, n, keys, i + 1, price, ts);
  }

  lemma {:induction false} Rearrange(a: multiset<Fire>, b: multiset<Fire>, c: multiset<Fire>, d: multiset<Fire>)
    ensures (a + b) + (c + d) == (a + c) + (b + d)
  {
  }

  /** The extra fire of the `n`-th armed variant over the keys from the `i`-th on. */
  function Extra(a: Armed, keys: seq<GroupKey>, i: nat, price: real, ts: int): multiset<Fire>
    requires i <= |keys|
  {
    if a.priced && KeyOf(a) in keys[i..] then multiset{Fire(a.id, KeyOf(a), price, ts)} else multiset{}
  }

  /** The `n`-th armed variant's own fire, if it belongs to one key. */
  function Own(a: Armed, key: GroupKey, price: real, ts: int): multiset<Fire> {
    if a.priced && KeyOf(a) == key then multiset{Fire(a.id, key, price, ts)} else multiset{}
  }

  lemma {:induction false} ExtraOnce(a: Armed, keys: seq<GroupKey>, i: nat, price: real, ts: int)
    requires i < |keys| && Distinct(keys)
    ensures Extra(a, keys, i, price, ts) ==
              Own(a, keys[i], price, ts) + Extra(a, keys, i + 1, price, ts)
  {
    hide KeyOf;
    assert keys[i..] == [keys[i]] + keys[i + 1..];
    assert keys[i] !in keys[i + 1..];
  }

  /** One more armed variant adds its own fire once, if its key is among the keys. */
  lemma {:induction false} OneMoreFire(armed: seq<Armed>, n: nat, keys: seq<GroupKey>, i: nat, price: real, ts: int)
    requires n < |armed| && i <= |keys| && Distinct(keys)
    ensures Bag(armed, n + 1, keys, i, price, ts) ==
              Bag(armed, n, keys, i, price, ts) + Extra(armed[n], keys, i, price, ts)
    decreases |keys| - i
  {
    hide KeyOf, Extra, Own, Distinct, GroupBag, Bag;
    if i == |keys| {
      NoExtra(armed[n], keys, price, ts);
      NoBag(armed, n, keys, price, ts);
      NoBag(armed, n + 1, keys, price, ts);
    } else {
      BagCons(armed, n, keys, i, price, ts);
      BagCons(armed, n + 1, keys, i, price, ts);
      OneMoreFire(armed, n, keys, i + 1, price, ts);
      OneMoreMember(armed, n, keys[i], price, ts);
      ExtraOnce(armed[n], keys, i, price, ts);
      Rearrange(GroupBag(armed, n, keys[i], price, ts), Own(armed[n], keys[i], price, ts),
                Bag(armed, n, keys, i + 1, price, ts), Extra(armed[n], keys, i + 1, price, ts));
    }
  }

  lemma {:induction false} NoBag(armed: seq<Armed>, n: nat, keys: seq<GroupKey>, price: real, ts: int)
    requires n <= |armed|
    ensures Bag(armed, n, keys, |keys|, price, ts) == multiset{}
  {
  }

  lemma {:induction false} NoExtra(a: Armed, keys: seq<GroupKey>, price: real, ts: int)
    ensures Extra(a, keys, |keys|, price, ts) == multiset{}
  {
  }

  function LevelBag(armed: seq<Armed>, price: real, ts: int, n: nat): multiset<Fire>
    requires n <= |armed|
  {
    multiset(LevelFires(armed, price, ts, n))
  }

  lemma {:induction false} LevelNext(armed: seq<Armed>, price: real, ts: int, n: nat)
    requires n < |armed|
    ensures var a := armed[n];
            LevelBag(armed, price, ts, n + 1) == LevelBag(armed, price, ts, n) +
              if a.priced && KeyOf(a).Reached(price) then multiset{Fire(a.id, KeyOf(a), price, ts)} else multiset{}
  {
    hide KeyOf;
  }

  lemma {:induction false} GroupsFireTheLevels(armed: seq<Armed>, n: nat, keys: seq<GroupKey>, price: real, ts: int)
    requires n <= |armed| && Distinct(keys)
    requires forall i :: 0 <= i < n && armed[i].priced ==> (KeyOf(armed[i]) in keys <==> KeyOf(armed[i]).Reached(price))
    ensures Bag(armed, n, keys, 0, price, ts) == LevelBag(armed, price, ts, n)
  {
    hide KeyOf, Distinct, GroupKey.Reached, Bag, LevelBag;
    if n == 0 {
      NoneArmed(armed, keys, price, ts);
    } else {
      GroupsFireTheLevels(armed, n - 1, keys, price, ts);
      OneMoreFire(armed, n - 1, keys, 0, price, ts);
      LevelNext(armed, price, ts, n - 1);
      assert keys[0..] == keys;
    }
  }

  lemma {:induction false} NoneArmed(armed: seq<Armed>, keys: seq<GroupKey>, price: real, ts: int)
    ensures Bag(armed, 0, keys, 0, price, ts) == LevelBag(armed, price, ts, 0)
  {
    NothingToFire(armed, keys, 0, price, ts);
  }

  lemma {:induction false} NothingToFire(armed: seq<Armed>, keys: seq<GroupKey>, i: nat, price: real, ts: int)
    requires i <= |keys|
    ensures GroupFires(armed, 0, keys, i, price, ts) == []
    decreases |keys| - i
  {
    if i < |keys| { NothingToFire(armed, keys, i + 1, price, ts); }
  }

  /** What the firing loop queues, whatever it does to the armed list and the index. */
  lemma {:induction false} QueueOfFireAll(d: Desk, groups: map<GroupKey, seq<Armed>>, armed: seq<Armed>,
        keys: seq<GroupKey>, i: nat, price: real, ts: int)
    requires i <= |keys| && forall j :: 0 <= j < |keys| ==> keys[j] in groups
    requires forall k :: k in groups ==> groups[k] == Members(armed, k, |armed|)
    ensures FireAll(d, groups, keys, i, price, ts).fired == d.fired + GroupFires(armed, |armed|, keys, i, price, ts)
    decreases |keys| - i
  {
    hide Members, FiresOf, Disarmed, RemoveGroup, Ids;
    if i < |keys| {
      QueueOfFireAll(FireGroup(d, keys[i], groups[keys[i]], price, ts), groups, armed, keys, i + 1, price, ts);
    }
  }

  /** One tick queues exactly the fires of the variants whose level is reached, each as often. */
  lemma {:induction false} TickFiresTheLevels(d: Desk, price: real, ts: int)
    requires Sync(d.armed, d.index)
    ensures var d1 := OnTick(d, price, ts);
            && |d1.fired| >= |d.fired| && d1.fired[..|d.fired|] == d.fired
            && multiset(d1.fired[|d.fired|..]) == multiset(LevelFires(d.armed, price, ts, |d.armed|))
  {
    hide KeyOf, Listed, FireAll, CheckTriggers, Members, GroupKey.Reached, LevelFires;
    HitsAreKeys(d.index, price);
    HitsAreExact(d.index, price);
    var keys := CheckTriggers(d.index, price);
    QueueOfFireAll(d, d.index.groups, d.armed, keys, 0, price, ts);
    forall i | 0 <= i < |d.armed| && d.armed[i].priced
      ensures KeyOf(d.armed[i]) in keys <==> KeyOf(d.armed[i]).Reached(price)
    {
      assert HasKey(d.armed, KeyOf(d.armed[i]), |d.armed|);
    }
    GroupsFireTheLevels(d.armed, |d.armed|, keys, price, ts);
    assert multiset(GroupFires(d.armed, |d.armed|, keys, 0, price, ts)) ==
      multiset(LevelFires(d.armed, price, ts, |d.armed|));
    assert OnTick(d, price, ts).fired == d.fired + GroupFires(d.armed, |d.armed|, keys, 0, price, ts);
  }

  // ----- the full scan -----

  /** What scanning every armed variant against its own trigger would fire. */
  function ScanFires(armed: seq<Armed>, price: real, ts: int, n: nat): seq<Fire>
    requires n <= |armed|
  {
    if n == 0 then []
    else
      var a := armed[n - 1];
      ScanFires(armed, price, ts, n - 1) +
      if a.priced && a.Triggers(price) then [Fire(a.id, KeyOf(a), price, ts)] else []
  }

  /** The tick appends to the queue exactly what the scan would fire. */
  ghost predicate FiresTheScan(d: Desk, price: real, ts: int) {
    var d1 := OnTick(d, price, ts);
    && |d1.fired| >= |d.fired| && d1.fired[..|d.fired|] == d.fired
    && multiset(d1.fired[|d.fired|..]) == multiset(ScanFires(d.armed, price, ts, |d.armed|))
  }

  /** The price lies between a variant's trigger and the level it is indexed under. */
  predicate Between(a: Armed, price: real) {
    var level := KeyOf(a).level;
    && a.priced
    && if a.direction.Long? then level <= price < a.trigger || a.trigger <= price < level
       else a.trigger < price <= level || level < price <= a.trigger
  }

  ghost predicate NoneBetween(armed: seq<Armed>, price: real) {
    forall i :: 0 <= i < |armed| ==> !Between(armed[i], price)
  }

  lemma {:induction false} BetweenParts(a: Armed, price: real)
    requires a.priced
    ensures Between(a, price) <==> KeyOf(a).Reached(price) != a.Triggers(price)
  {
    hide Round2;
  }

  lemma {:induction false} SameScan(armed: seq<Armed>, price: real, ts: int, n: nat)
    requires n <= |armed| && NoneBetween(armed, price)
    ensures LevelFires(armed, price, ts, n) == ScanFires(armed, price, ts, n)
  {
    hide KeyOf, Between, GroupKey.Reached, Armed.Triggers;
    if n > 0 {
      SameScan(armed, price, ts, n - 1);
      if armed[n - 1].priced { BetweenParts(armed[n - 1], price); }
    }
  }

  function ScanBag(armed: seq<Armed>, price: real, ts: int, n: nat): multiset<Fire>
    requires n <= |armed|
  {
    multiset(ScanFires(armed, price, ts, n))
  }

  lemma {:induction false} ScanNext(armed: seq<Armed>, price: real, ts: int, n: nat)
    requires n < |armed|
    ensures var a := armed[n];
            ScanBag(armed, price, ts, n + 1) == ScanBag(armed, price, ts, n) +
              if a.priced && a.Triggers(price) then multiset{Fire(a.id, KeyOf(a), price, ts)} else multiset{}
  {
    hide KeyOf, Armed.Triggers;
  }

  /** Where a level is reached, the scan fires no more at it than the index, and less if some
      variant there has not triggered. */
  lemma {:induction false} ScanFiresLess(armed: seq<Armed>, price: real, ts: int, n: nat, i: nat, f: Fire)
    requires n <= |armed| && f.key.Reached(price)
    ensures ScanBag(armed, price, ts, n)[f] <= LevelBag(armed, price, ts, n)[f]
    ensures i < n && armed[i].priced && !armed[i].Triggers(price)
            && f == Fire(armed[i].id, KeyOf(armed[i]), price, ts) ==>
              ScanBag(armed, price, ts, n)[f] < LevelBag(armed, price, ts, n)[f]
  {
    hide KeyOf, GroupKey.Reached, Armed.Triggers, ScanBag, LevelBag;
    if n == 0 {
      NothingScanned(armed, price, ts);
    } else {
      ScanFiresLess(armed, price, ts, n - 1, i, f);
      ScanNext(armed, price, ts, n - 1);
      LevelNext(armed, price, ts, n - 1);
    }
  }

  lemma {:induction false} NothingScanned(armed: seq<Armed>, price: real, ts: int)
    ensures ScanBag(armed, price, ts, 0) == LevelBag(armed, price, ts, 0) == multiset{}
  {
  }

  /** Where a level is not reached, the index fires nothing at it; the scan fires what has
      triggered. */
  lemma {:induction false} ScanFiresMore(armed: seq<Armed>, price: real, ts: int, n: nat, i: nat, f: Fire)
    requires n <= |armed| && !f.key.Reached(price)
    ensures LevelBag(armed, price, ts, n)[f] == 0
    ensures i < n && armed[i].priced && armed[i].Triggers(price)
            && f == Fire(armed[i].id, KeyOf(armed[i]), price, ts) ==>
              ScanBag(armed, price, ts, n)[f] > 0
  {
    hide KeyOf, GroupKey.Reached, Armed.Triggers, ScanBag, LevelBag;
    if n == 0 {
      NothingScanned(armed, price, ts);
    } else {
      ScanFiresMore(armed, price, ts, n - 1, i, f);
      ScanNext(armed, price, ts, n - 1);
      LevelNext(armed, price, ts, n - 1);
    }
  }

  lemma {:induction false} ScanDiffers(armed: seq<Armed>, price: real, ts: int, i: nat)
    requires i < |armed| && Between(armed[i], price)
    ensures multiset(LevelFires(armed, price, ts, |armed|)) != multiset(ScanFires(armed, price, ts, |armed|))
  {
    hide KeyOf, GroupKey.Reached, Armed.Triggers, LevelFires, ScanFires;
    var f := Fire(armed[i].id, KeyOf(armed[i]), price, ts);
    BetweenParts(armed[i], price);
    if f.key.Reached(price) {
      ScanFiresLess(armed, price, ts, |armed|, i, f);
    } else {
      ScanFiresMore(armed, price, ts, |armed|, i, f);
    }
    assert ScanBag(armed, price, ts, |armed|)[f] != LevelBag(armed, price, ts, |armed|)[f];
  }

  /** One tick fires the scan exactly when the price lies between no variant's trigger and its
      level. */
  lemma {:induction false} TickFiresTheScan(d: Desk, price: real, ts: int)
    requires Sync(d.armed, d.index)
    ensures FiresTheScan(d, price, ts) <==> NoneBetween(d.armed, price)
  {
    hide Sync, OnTick, LevelFires, ScanFires, Between;
    TickFiresTheLevels(d, price, ts);
    if NoneBetween(d.armed, price) {
      SameScan(d.armed, price, ts, |d.armed|);
    } else {
      var i :| 0 <= i < |d.armed| && Between(d.armed[i], price);
      ScanDiffers(d.armed, price, ts, i);
    }
  }

  /** Every price-type trigger is a whole number of hundredths. */
  ghost predicate OnGrid(armed: seq<Armed>) {
    forall i :: 0 <= i < |armed| && armed[i].priced ==> Round2(armed[i].trigger) == armed[i].trigger
  }

  /** No trigger is rounded to a price reached sooner. */
  ghost predicate RoundedAway(armed: seq<Armed>) {
    forall i :: 0 <= i < |armed| && armed[i].priced ==>
        armed[i].direction.Gain(armed[i].trigger, Round2(armed[i].trigger)) >= 0.0
  }

  /** The index fires the scan at every price exactly when rounding changes no trigger. */
  lemma {:induction false} EveryPriceFiresTheScan(d: Desk)
    requires Sync(d.armed, d.index)
    ensures (forall price: real, ts: int :: FiresTheScan(d, price, ts)) <==> OnGrid(d.armed)
  {
    hide Sync, FiresTheScan, Round2;
    forall price: real, ts: int ensures FiresTheScan(d, price, ts) <==> NoneBetween(d.armed, price) {
      TickFiresTheScan(d, price, ts);
    }
    if !OnGrid(d.armed) {
      var i :| 0 <= i < |d.armed| && d.armed[i].priced && Round2(d.armed[i].trigger) != d.armed[i].trigger;
      var a := d.armed[i];
      var level := Round2(a.trigger);
      var price := if a.direction.Gain(a.trigger, level) > 0.0 then a.trigger else level;
      assert Between(a, price);
      assert !FiresTheScan(d, price, 0);
    }
  }

  /** At whole-hundredth prices, exactly when no trigger is rounded to a price reached sooner. */
  lemma {:induction false} EveryWholePriceFiresTheScan(d: Desk)
    requires Sync(d.armed, d.index)
    ensures (forall price: real, ts: int | Hundredths(price) :: FiresTheScan(d, price, ts)) <==> RoundedAway(d.armed)
  {
    hide Sync, FiresTheScan, Round2, Hundredths;
    forall price: real, ts: int ensures FiresTheScan(d, price, ts) <==> NoneBetween(d.armed, price) {
      TickFiresTheScan(d, price, ts);
    }
    if RoundedAway(d.armed) {
      forall price: real | Hundredths(price) ensures NoneBetween(d.armed, price) {
        forall i | 0 <= i < |d.armed| ensures !Between(d.armed[i], price) {
          NothingBelowRounded(d.armed[i].trigger, price);
        }
      }
    } else {
      var i :| 0 <= i < |d.armed| && d.armed[i].priced
               && d.armed[i].direction.Gain(d.armed[i].trigger, Round2(d.armed[i].trigger)) < 0.0;
      var price := Round2(d.armed[i].trigger);
      RoundedIsWhole(d.armed[i].trigger);
      assert Between(d.armed[i], price);
      assert !FiresTheScan(d, price, 0);
    }
  }

  lemma {:induction false} RoundedIsWhole(x: real)
    ensures Hundredths(Round2(x))
  {
    hide RoundHalfEven;
    var n := RoundHalfEven(x * 100.0);
    assert Round2(x) * 100.0 == n as real;
    assert (n as real).Floor == n;
  }

  /** No whole number lies between a number and the whole number nearest to it. */
  lemma {:induction false} NoneNearer(y: real, m: int, n: int)
    requires m as real - 0.5 <= y <= m as real + 0.5
    ensures !(y <= n as real < m as real) && !(m as real < n as real <= y)
  {
    if n < m { assert n as real <= m as real - 1.0; }
    if m < n { assert m as real <= n as real - 1.0; }
  }

  /** No whole-hundredth price lies between a number and its rounding, the rounding excluded. */
  lemma {:induction false} NothingBelowRounded(x: real, price: real)
    requires Hundredths(price)
    ensures !(x <= price < Round2(x)) && !(Round2(x) < price <= x)
  {
    hide RoundHalfEven;
    var m, n := RoundHalfEven(x * 100.0), (price * 100.0).Floor;
    RoundNearest(x * 100.0);
    NoneNearer(x * 100.0, m, n);
  }
}
