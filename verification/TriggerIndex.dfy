/** Tick triggering of app/execution: the armed list (armed_state.py), the sorted level index
    over it (grouping.py) and the firing loop (tick_engine.py), for one instrument. */
module TriggerDesk {
  import opened Prelude
  import opened ExitPlans
  import opened PositionSizing

  /** An armed variant; `priced` if its trigger is a price level or a structure level. */
  datatype Armed = Armed(
    id: string, timeframe: string, direction: Direction, priced: bool, trigger: real, armedAt: int, expiry: int)
  {
    predicate Expired(candle: int) { candle - armedAt >= expiry }

    /** The price has reached the variant's own trigger. */
    predicate Triggers(price: real) {
      if direction.Long? then price >= trigger else price <= trigger
    }
  }

  datatype GroupKey = GroupKey(direction: Direction, level: real)
  {
    predicate Reached(price: real) {
      if direction.Long? then price >= level else price <= level
    }
  }

  function KeyOf(a: Armed): GroupKey { GroupKey(a.direction, Round2(a.trigger)) }

  datatype Index = Index(longs: seq<real>, shorts: seq<real>, groups: map<GroupKey, seq<Armed>>)

  const EMPTY := Index([], [], map[])

  /** Insert a level after every level not above it. */
  function InsertLevel(levels: seq<real>, level: real): seq<real> {
    if levels == [] || level < levels[0] then [level] + levels else [levels[0]] + InsertLevel(levels[1..], level)
  }

  /** Add one armed variant: a new key also gets its level listed. */
  function Add(x: Index, a: Armed): Index {
    if !a.priced then x
    else
      var k := KeyOf(a);
      if k in x.groups then x.(groups := x.groups[k := x.groups[k] + [a]])
      else if k.direction.Long? then x.(longs := InsertLevel(x.longs, k.level), groups := x.groups[k := [a]])
      else x.(shorts := InsertLevel(x.shorts, k.level), groups := x.groups[k := [a]])
  }

  function Rebuilt(armed: seq<Armed>, n: nat): Index
    requires n <= |armed|
  {
    if n == 0 then EMPTY else Add(Rebuilt(armed, n - 1), armed[n - 1])
  }

  /** Ascending levels from the `i`-th on, up to the price: the first one above ends the walk. */
  function LongHits(x: Index, i: nat, price: real): seq<GroupKey>
    requires i <= |x.longs|
    decreases |x.longs| - i
  {
    if i == |x.longs| || price < x.longs[i] then []
    else
      var k := GroupKey(Long, x.longs[i]);
      (if k in x.groups then [k] else []) + LongHits(x, i + 1, price)
  }

  /** Descending levels below the `n`-th, down to the price. */
  function ShortHits(x: Index, n: nat, price: real): seq<GroupKey>
    requires n <= |x.shorts|
  {
    if n == 0 || price > x.shorts[n - 1] then []
    else
      var k := GroupKey(Short, x.shorts[n - 1]);
      (if k in x.groups then [k] else []) + ShortHits(x, n - 1, price)
  }

  function CheckTriggers(x: Index, price: real): seq<GroupKey> {
    if x.groups == map[] then [] else LongHits(x, 0, price) + ShortHits(x, |x.shorts|, price)
  }

  /** Drop the first occurrence of a level, if there is one. */
  function RemoveLevel(levels: seq<real>, level: real): seq<real> {
    if levels == [] then []
    else if levels[0] == level then levels[1..]
    else [levels[0]] + RemoveLevel(levels[1..], level)
  }

  function RemoveGroup(x: Index, key: GroupKey): Index {
    var k := GroupKey(key.direction, Round2(key.level));
    var y := x.(groups := x.groups - {k});
    if k.direction.Long? then y.(longs := RemoveLevel(x.longs, k.level))
    else y.(shorts := RemoveLevel(x.shorts, k.level))
  }

  datatype Fire = Fire(id: string, key: GroupKey, price: real, ts: int)

  /** Everything the engine holds; `fired` is the queue of trades since the last daily reset. */
  datatype Desk = Desk(armed: seq<Armed>, triggered: set<string>, index: Index, fired: seq<Fire>)

  function FiresOf(members: seq<Armed>, n: nat, key: GroupKey, price: real, ts: int): seq<Fire>
    requires n <= |members|
  {
    if n == 0 then [] else FiresOf(members, n - 1, key, price, ts) + [Fire(members[n - 1].id, key, price, ts)]
  }

  function Ids(members: seq<Armed>, n: nat): set<string>
    requires n <= |members|
  {
    if n == 0 then {} else Ids(members, n - 1) + {members[n - 1].id}
  }

  /** The armed variants whose id is not among `ids`. */
  function Disarmed(armed: seq<Armed>, ids: set<string>, n: nat): seq<Armed>
    requires n <= |armed|
  {
    if n == 0 then []
    else Disarmed(armed, ids, n - 1) + if armed[n - 1].id in ids then [] else [armed[n - 1]]
  }

  /** Fire every member of a group, disarm them and drop the group. */
  function FireGroup(d: Desk, key: GroupKey, members: seq<Armed>, price: real, ts: int): Desk {
    var ids := Ids(members, |members|);
    Desk(Disarmed(d.armed, ids, |d.armed|), d.triggered + ids, RemoveGroup(d.index, key),
         d.fired + FiresOf(members, |members|, key, price, ts))
  }

  /** Fire the groups from the `i`-th on, with the members they had when the tick arrived. */
  function FireAll(d: Desk, groups: map<GroupKey, seq<Armed>>, keys: seq<GroupKey>, i: nat, price: real, ts: int): Desk
    requires i <= |keys| && forall j :: 0 <= j < |keys| ==> keys[j] in groups
    decreases |keys| - i
  {
    if i == |keys| then d
    else FireAll(FireGroup(d, keys[i], groups[keys[i]], price, ts), groups, keys, i + 1, price, ts)
  }

  lemma {:induction false} HitsAreKeys(x: Index, price: real)
    ensures forall j :: 0 <= j < |CheckTriggers(x, price)| ==> CheckTriggers(x, price)[j] in x.groups
  {
    LongHitsAreKeys(x, 0, price);
    ShortHitsAreKeys(x, |x.shorts|, price);
  }

  lemma {:induction false} LongHitsAreKeys(x: Index, i: nat, price: real)
    requires i <= |x.longs|
    ensures forall j :: 0 <= j < |LongHits(x, i, price)| ==> LongHits(x, i, price)[j] in x.groups
    decreases |x.longs| - i
  {
    if i < |x.longs| && price >= x.longs[i] { LongHitsAreKeys(x, i + 1, price); }
  }

  lemma {:induction false} ShortHitsAreKeys(x: Index, n: nat, price: real)
    requires n <= |x.shorts|
    ensures forall j :: 0 <= j < |ShortHits(x, n, price)| ==> ShortHits(x, n, price)[j] in x.groups
  {
    if n > 0 && price <= x.shorts[n - 1] { ShortHitsAreKeys(x, n - 1, price); }
  }

  function OnTick(d: Desk, price: real, ts: int): Desk {
    HitsAreKeys(d.index, price);
    FireAll(d, d.index.groups, CheckTriggers(d.index, price), 0, price, ts)
  }

  /** Arm variants until the list is full, skipping those that already triggered today. */
  function Arm(d: Desk, news: seq<Armed>, limit: nat, n: nat): seq<Armed>
    requires n <= |news|
    decreases |news| - n
  {
    if n == |news| || |d.armed| >= limit then d.armed
    else if news[n].id in d.triggered then Arm(d, news, limit, n + 1)
    else Arm(d.(armed := d.armed + [news[n]]), news, limit, n + 1)
  }

  /** Drop expired variants, of one timeframe or of all. */
  function Cleaned(armed: seq<Armed>, candle: int, timeframe: Option<string>, n: nat): seq<Armed>
    requires n <= |armed|
  {
    if n == 0 then []
    else
      var a := armed[n - 1];
      Cleaned(armed, candle, timeframe, n - 1) +
      if (timeframe.None? || a.timeframe == timeframe.value) && a.Expired(candle) then [] else [a]
  }

  datatype Event =
    | Arming(news: seq<Armed>, limit: nat)
    | Cleanup(candle: int, timeframe: Option<string>)
    | Rebuild
    | Tick(price: real, ts: int)
    | DailyReset

  function Step(d: Desk, e: Event): Desk {
    match e
    case Arming(news, limit) => d.(armed := Arm(d, news, limit, 0))
    case Cleanup(candle, timeframe) => d.(armed := Cleaned(d.armed, candle, timeframe, |d.armed|))
    case Rebuild => d.(index := Rebuilt(d.armed, |d.armed|))
    case Tick(price, ts) => OnTick(d, price, ts)
    case DailyReset => Desk([], {}, EMPTY, [])
  }

  function Run(es: seq<Event>, n: nat): Desk
    requires n <= |es|
  {
    if n == 0 then Desk([], {}, EMPTY, []) else Step(Run(es, n - 1), es[n - 1])
  }
}

module TriggerEngines {
  import opened Prelude
  import opened ExitPlans
  import opened PositionSizing
  import opened TriggerDesk

  class ArmedStateManager {
    const limit: nat
    var armed: seq<Armed>
    var triggered: set<string>

    constructor (limit: nat)
      ensures armed == [] && triggered == {} && this.limit == limit
    {
      this.limit := limit;
      armed, triggered := [], {};
    }

    /** How many were added; the list is bounded and fired variants are not re-armed. */
    method Arm(news: seq<Armed>) returns (added: nat)
      modifies this`armed
      ensures armed == TriggerDesk.Arm(Desk(old(armed), triggered, EMPTY, []), news, limit, 0)
      ensures |armed| == |old(armed)| + added && old(armed) <= armed
    {
      added := 0;
      ghost var d := Desk(old(armed), triggered, EMPTY, []);
      for n := 0 to |news|
        invariant TriggerDesk.Arm(d.(armed := armed), news, limit, n) == TriggerDesk.Arm(d, news, limit, 0)
        invariant |armed| == |old(armed)| + added && old(armed) <= armed
      {
        if |armed| >= limit {
          break;
        }
        if news[n].id !in triggered {
          armed := armed + [news[n]];
          added := added + 1;
        }
      }
    }

    method DisarmTriggered(ids: set<string>)
      modifies this
      ensures armed == Disarmed(old(armed), ids, |old(armed)|) && triggered == old(triggered) + ids
    {
      triggered := triggered + ids;
      var kept: seq<Armed> := [];
      for n := 0 to |armed|
        invariant armed == old(armed) && triggered == old(triggered) + ids && kept == Disarmed(armed, ids, n)
      {
        if armed[n].id !in ids {
          kept := kept + [armed[n]];
        }
      }
      armed := kept;
    }

    method CleanupExpired(candle: int, timeframe: Option<string>) returns (expired: int)
      modifies this`armed
      ensures armed == Cleaned(old(armed), candle, timeframe, |old(armed)|) && expired == |old(armed)| - |armed|
    {
      var kept: seq<Armed> := [];
      for n := 0 to |armed|
        invariant armed == old(armed) && kept == Cleaned(armed, candle, timeframe, n)
      {
        var a := armed[n];
        if !((timeframe.None? || a.timeframe == timeframe.value) && a.Expired(candle)) {
          kept := kept + [a];
        }
      }
      expired := |armed| - |kept|;
      armed := kept;
    }

    method ResetDaily()
      modifies this
      ensures armed == [] && triggered == {}
    {
      armed, triggered := [], {};
    }
  }

  class GroupingEngine {
    var longs: seq<real>
    var shorts: seq<real>
    var groups: map<GroupKey, seq<Armed>>

    constructor ()
      ensures View() == EMPTY
    {
      longs, shorts, groups := [], [], map[];
    }

    function View(): Index
      reads this
    {
      Index(longs, shorts, groups)
    }

    method Rebuild(armed: seq<Armed>) returns (count: nat)
      modifies this
      ensures View() == Rebuilt(armed, |armed|) && count == |groups|
    {
      hide InsertLevel, Round2;
      longs, shorts, groups := [], [], map[];
      for n := 0 to |armed|
        invariant View() == Rebuilt(armed, n)
      {
        AddVariant(armed[n]);
      }
      count := |groups|;
    }

    method AddVariant(a: Armed)
      modifies this
      ensures View() == Add(old(View()), a)
    {
      hide InsertLevel, KeyOf;
      if !a.priced {
        return;
      }
      var key := KeyOf(a);
      if key in groups {
        groups := groups[key := groups[key] + [a]];
        return;
      }
      groups := groups[key := [a]];
      if key.direction.Long? {
        longs := InsertLevel(longs, key.level);
      } else {
        shorts := InsertLevel(shorts, key.level);
      }
    }

    /** The reached groups, longs from the lowest level up and shorts from the highest down;
        each walk stops at the first level not reached. */
    method CheckTriggers(price: real) returns (hits: seq<GroupKey>)
      ensures hits == TriggerDesk.CheckTriggers(View(), price)
    {
      hits := [];
      if groups == map[] {
        return;
      }
      var longHits := LongWalk(price);
      var shortHits := ShortWalk(price);
      hits := longHits + shortHits;
    }

    method LongWalk(price: real) returns (hits: seq<GroupKey>)
      ensures hits == LongHits(View(), 0, price)
    {
      hits := [];
      ghost var x := View();
      var i := 0;
      while i < |longs| && price >= longs[i]
        invariant i <= |longs| && hits + LongHits(x, i, price) == LongHits(x, 0, price)
      {
        var key := GroupKey(Long, longs[i]);
        if key in groups {
          hits := hits + [key];
        }
        i := i + 1;
      }
    }

    method ShortWalk(price: real) returns (hits: seq<GroupKey>)
      ensures hits == ShortHits(View(), |shorts|, price)
    {
      hits := [];
      ghost var x := View();
      var n: nat := |shorts|;
      while n > 0 && price <= shorts[n - 1]
        invariant n <= |shorts| && hits + ShortHits(x, n, price) == ShortHits(x, |shorts|, price)
      {
        var key := GroupKey(Short, shorts[n - 1]);
        if key in groups {
          hits := hits + [key];
        }
        n := n - 1;
      }
    }

    method RemoveGroup(key: GroupKey)
      modifies this
      ensures View() == TriggerDesk.RemoveGroup(old(View()), key)
    {
      hide RemoveLevel, Round2;
      var k := GroupKey(key.direction, Round2(key.level));
      groups := groups - {k};
      if k.direction.Long? {
        longs := RemoveLevel(longs, k.level);
      } else {
        shorts := RemoveLevel(shorts, k.level);
      }
    }

    method Clear()
      modifies this
      ensures View() == EMPTY
    {
      longs, shorts, groups := [], [], map[];
    }
  }

  class TickTriggerEngine {
    const state: ArmedStateManager
    const grouping: GroupingEngine
    var queue: seq<Fire>

    constructor (state: ArmedStateManager, grouping: GroupingEngine)
      ensures this.state == state && this.grouping == grouping && queue == []
    {
      this.state, this.grouping, queue := state, grouping, [];
    }

    function View(): Desk
      reads this, state, grouping
    {
      Desk(state.armed, state.triggered, grouping.View(), queue)
    }

    /** How many trades the tick created. */
    method OnTick(price: real, ts: int) returns (trades: nat)
      modifies this, state, grouping
      ensures View() == TriggerDesk.OnTick(old(View()), price, ts)
      ensures |queue| == |old(queue)| + trades
    {
      hide FireGroup, TriggerDesk.CheckTriggers;
      ghost var start := View();
      var groups := grouping.groups;
      var hits := grouping.CheckTriggers(price);
      HitsAreKeys(start.index, price);
      trades := 0;
      for i := 0 to |hits|
        invariant FireAll(View(), groups, hits, i, price, ts) == FireAll(start, groups, hits, 0, price, ts)
        invariant |queue| == |old(queue)| + trades
      {
        var fired := Fire(hits[i], groups[hits[i]], price, ts);
        trades := trades + fired;
      }
    }

    method Fire(key: GroupKey, members: seq<Armed>, price: real, ts: int) returns (fired: nat)
      modifies this, state, grouping
      ensures View() == FireGroup(old(View()), key, members, price, ts)
      ensures fired == |members| && |queue| == |old(queue)| + fired
    {
      hide TriggerDesk.RemoveGroup, Disarmed;
      var ids: set<string> := {};
      var fires: seq<Fire> := [];
      for n := 0 to |members|
        invariant ids == Ids(members, n) && fires == FiresOf(members, n, key, price, ts) && |fires| == n
        invariant View() == old(View())
      {
        fires := fires + [TriggerDesk.Fire(members[n].id, key, price, ts)];
        ids := ids + {members[n].id};
      }
      queue := queue + fires;
      state.DisarmTriggered(ids);
      grouping.RemoveGroup(key);
      fired := |members|;
    }
  }
}
