/** Small shared vocabulary: optional values, real-valued minimum and maximum,
    and the stable sort that Python's `sorted`, `list.sort` and numpy's stable
    `argsort` all provide. */
module Prelude {

  datatype Option<+T> = None | Some(value: T) {
    function GetOr(default: T): T {
      if Some? then value else default
    }
  }

  function Max(a: real, b: real): real { if a >= b then a else b }

  function Min(a: real, b: real): real { if a <= b then a else b }

  function Abs(a: real): real { if a < 0.0 then -a else a }

  lemma {:induction false} ScaleUp(a: real, b: real, c: real)
    requires c > 0.0
    ensures a <= b <==> a * c <= b * c
  {
    if a > b { assert (a - b) * c > 0.0; }
    if a <= b { assert (b - a) * c >= 0.0; }
  }

  /** Insert `x` before the first element whose key is not smaller. */
  function Insert<T>(x: T, s: seq<T>, key: T -> real): seq<T> {
    if s == [] || key(x) <= key(s[0]) then [x] + s
    else [s[0]] + Insert(x, s[1..], key)
  }

  function StableSort<T>(s: seq<T>, key: T -> real): seq<T> {
    if s == [] then [] else Insert(s[0], StableSort(s[1..], key), key)
  }

  ghost predicate SortedBy<T>(s: seq<T>, key: T -> real) {
    forall i, j :: 0 <= i < j < |s| ==> key(s[i]) <= key(s[j])
  }

  /** Strict order by the pair (key, rank). */
  ghost predicate Before<T>(x: T, y: T, key: T -> real, rank: T -> int) {
    key(x) < key(y) || (key(x) == key(y) && rank(x) < rank(y))
  }

  ghost predicate Ordered<T>(s: seq<T>, key: T -> real, rank: T -> int) {
    forall i, j :: 0 <= i < j < |s| ==> Before(s[i], s[j], key, rank)
  }

  /** Elements with equal keys appear in increasing rank. */
  ghost predicate RankedTies<T>(s: seq<T>, key: T -> real, rank: T -> int) {
    forall i, j :: 0 <= i < j < |s| && key(s[i]) == key(s[j]) ==> rank(s[i]) < rank(s[j])
  }

  lemma {:induction false} OrderedCons<T>(x: T, s: seq<T>, key: T -> real, rank: T -> int)
    requires Ordered(s, key, rank)
    requires forall e :: e in s ==> Before(x, e, key, rank)
    ensures Ordered([x] + s, key, rank)
  {
    var r := [x] + s;
    forall i, j | 0 <= i < j < |r| ensures Before(r[i], r[j], key, rank) {
      assert r[j] == s[j - 1];
      if i > 0 { assert r[i] == s[i - 1]; }
    }
  }

  lemma {:induction false} InsertOrders<T>(x: T, s: seq<T>, key: T -> real, rank: T -> int)
    requires Ordered(s, key, rank)
    requires forall e :: e in s && key(e) == key(x) ==> rank(x) < rank(e)
    ensures Ordered(Insert(x, s, key), key, rank)
    ensures multiset(Insert(x, s, key)) == multiset(s) + multiset{x}
  {
    if s == [] {
    } else if key(x) <= key(s[0]) {
      forall e | e in s ensures Before(x, e, key, rank) {
        var i :| 0 <= i < |s| && s[i] == e;
        assert i > 0 ==> Before(s[0], s[i], key, rank);
      }
      OrderedCons(x, s, key, rank);
    } else {
      assert s == [s[0]] + s[1..];
      var t := Insert(x, s[1..], key);
      InsertOrders(x, s[1..], key, rank);
      forall e | e in t ensures Before(s[0], e, key, rank) {
        assert e in multiset(t);
        if e != x {
          assert e in s[1..];
        }
      }
      OrderedCons(s[0], t, key, rank);
    }
  }

  /** The sort is a permutation, ordered by key, and keeps the input order of ties. */
  lemma {:induction false} StableSortOrders<T>(s: seq<T>, key: T -> real, rank: T -> int)
    requires RankedTies(s, key, rank)
    ensures Ordered(StableSort(s, key), key, rank)
    ensures multiset(StableSort(s, key)) == multiset(s)
  {
    if s != [] {
      assert s == [s[0]] + s[1..];
      StableSortOrders(s[1..], key, rank);
      var t := StableSort(s[1..], key);
      forall e | e in t && key(e) == key(s[0]) ensures rank(s[0]) < rank(e) {
        assert e in multiset(t);
        assert e in s[1..];
        var i :| 0 <= i < |s[1..]| && s[1..][i] == e;
        assert s[i + 1] == e;
      }
      InsertOrders(s[0], t, key, rank);
    }
  }

  /** Sorting an already sorted sequence changes nothing. */
  lemma {:induction false} StableSortOfSorted<T>(s: seq<T>, key: T -> real)
    requires SortedBy(s, key)
    ensures StableSort(s, key) == s
  {
    if s != [] {
      StableSortOfSorted(s[1..], key);
      assert s == [s[0]] + s[1..];
    }
  }

  lemma {:induction false} SortedCons<T>(x: T, s: seq<T>, key: T -> real)
    requires SortedBy(s, key) && forall e :: e in s ==> key(x) <= key(e)
    ensures SortedBy([x] + s, key)
  {
    var r := [x] + s;
    forall i, j | 0 <= i < j < |r| ensures key(r[i]) <= key(r[j]) {
      assert r[j] == s[j - 1] && s[j - 1] in s;
    }
  }

  lemma {:induction false} InsertAdds<T>(x: T, s: seq<T>, key: T -> real)
    ensures multiset(Insert(x, s, key)) == multiset(s) + multiset{x}
  {
    if s == [] || key(x) <= key(s[0]) {
    } else {
      assert s == [s[0]] + s[1..];
      InsertAdds(x, s[1..], key);
    }
  }

  lemma {:induction false} SortedTail<T>(s: seq<T>, key: T -> real)
    requires SortedBy(s, key) && s != []
    ensures SortedBy(s[1..], key)
    ensures forall e :: e in s ==> key(s[0]) <= key(e)
  {
    forall e | e in s ensures key(s[0]) <= key(e) {
      var i :| 0 <= i < |s| && s[i] == e;
      assert i > 0 ==> key(s[0]) <= key(s[i]);
    }
  }

  lemma {:induction false} InsertSorts<T>(x: T, s: seq<T>, key: T -> real)
    requires SortedBy(s, key)
    ensures SortedBy(Insert(x, s, key), key)
  {
    hide SortedBy;
    if s == [] {
      SingleSorted(x, key);
    } else {
      SortedTail(s, key);
      if key(x) <= key(s[0]) {
        SortedCons(x, s, key);
      } else {
        var t := Insert(x, s[1..], key);
        InsertSorts(x, s[1..], key);
        InsertAdds(x, s[1..], key);
        forall e | e in t ensures key(s[0]) <= key(e) {
          assert e in multiset(t);
          assert e == x || e in s[1..];
        }
        SortedCons(s[0], t, key);
      }
    }
  }

  lemma {:induction false} SingleSorted<T>(x: T, key: T -> real)
    ensures SortedBy([x] + [], key)
  {
  }

  /** Whatever the key, the sort is a permutation in ascending order of keys. */
  lemma {:induction false} SortSorts<T>(s: seq<T>, key: T -> real)
    ensures SortedBy(StableSort(s, key), key) && multiset(StableSort(s, key)) == multiset(s)
  {
    if s != [] {
      assert s == [s[0]] + s[1..];
      SortSorts(s[1..], key);
      InsertSorts(s[0], StableSort(s[1..], key), key);
      InsertAdds(s[0], StableSort(s[1..], key), key);
    }
  }

  lemma {:induction false} CountedTwice<T>(s: seq<T>, i: nat, j: nat)
    requires i < j < |s| && s[i] == s[j]
    ensures multiset(s)[s[i]] >= 2
  {
    assert s == s[..j] + s[j..];
    assert s[..j][i] == s[i] && s[j..][0] == s[i];
    assert s[i] in multiset(s[..j]) && s[i] in multiset(s[j..]);
  }

  lemma {:induction false} TwoPlaces<T>(s: seq<T>, x: T) returns (i: nat, j: nat)
    requires multiset(s)[x] >= 2
    ensures i < j < |s| && s[i] == s[j] == x
  {
    assert s == [s[0]] + s[1..];
    if s[0] == x {
      assert x in multiset(s[1..]);
      i, j := 0, 1;
      var k :| 0 <= k < |s[1..]| && s[1..][k] == x;
      j := k + 1;
    } else {
      i, j := TwoPlaces(s[1..], x);
      i, j := i + 1, j + 1;
    }
  }

  /** Two places of a sequence are two places of any permutation of it. */
  lemma {:induction false} PlacesAfter<T>(s: seq<T>, t: seq<T>, a: nat, b: nat) returns (i: nat, j: nat)
    requires multiset(s) == multiset(t) && a < b < |s|
    ensures i < |t| && j < |t| && i != j && t[i] == s[a] && t[j] == s[b]
  {
    if s[a] == s[b] {
      CountedTwice(s, a, b);
      i, j := TwoPlaces(t, s[a]);
    } else {
      assert s[a] in multiset(t) && s[b] in multiset(t);
      i :| 0 <= i < |t| && t[i] == s[a];
      j :| 0 <= j < |t| && t[j] == s[b];
    }
  }
}
