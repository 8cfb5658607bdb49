/** The proximity ranking of engineers (src/api/mockApi.ts, the comparator
    passed to `sort`): ascending planar distance from a target point, ties
    kept in their original order, as `Array.prototype.sort` is stable. The
    comparator compares square roots of squared distances; the square root
    is monotone, so ranking by the squared distance gives the same order. */
module Ranking {
  import opened SampleData
  import opened Seqs

  /** No element comes after one with a smaller key. */
  ghost predicate SortedBy<T>(s: seq<T>, key: T -> real) {
    forall i, j :: 0 <= i < j < |s| ==> key(s[i]) <= key(s[j])
  }

  /** The elements of `s` whose key is exactly `k`, in their order in `s`. */
  function WithKey<T(!new)>(s: seq<T>, key: T -> real, k: real): seq<T> {
    Filter(s, x => key(x) == k)
  }

  /** A key class is a filter by any predicate that picks the same elements. */
  lemma WithKeyAsFilter<T(!new)>(s: seq<T>, key: T -> real, k: real, q: T -> bool)
    requires forall x :: q(x) == (key(x) == k)
    ensures WithKey(s, key, k) == Filter(s, q)
  {
    FilterExtensional(s, x => key(x) == k, q);
  }

  /** Places `x` into a sorted sequence in front of every element with the
      same or a greater key. */
  function Insert<T(!new)>(x: T, sorted: seq<T>, key: T -> real): (r: seq<T>)
    requires SortedBy(sorted, key)
    ensures SortedBy(r, key)
    ensures multiset(r) == multiset(sorted) + multiset{x}
    decreases |sorted|
  {
    if |sorted| == 0 || key(x) <= key(sorted[0]) then
      [x] + sorted
    else
      var rest := Insert(x, sorted[1..], key);
      ConsSorted(x, sorted, rest, key);
      [sorted[0]] + rest
  }

  /** Putting the head of a sorted sequence in front of its tail with `x`
      inserted keeps it sorted, when `x` belongs after the head. */
  lemma ConsSorted<T>(x: T, sorted: seq<T>, rest: seq<T>, key: T -> real)
    requires SortedBy(sorted, key) && |sorted| > 0 && key(sorted[0]) < key(x)
    requires SortedBy(rest, key) && multiset(rest) == multiset(sorted[1..]) + multiset{x}
    ensures SortedBy([sorted[0]] + rest, key)
    ensures multiset([sorted[0]] + rest) == multiset(sorted) + multiset{x}
  {
    forall j | 0 <= j < |rest|
      ensures key(sorted[0]) <= key(rest[j])
    {
      assert rest[j] in multiset(rest);
      if rest[j] != x {
        assert rest[j] in multiset(sorted[1..]);
      }
    }
    assert sorted == [sorted[0]] + sorted[1..];
  }

  /** A stable sort by ascending key: an insertion sort that inserts each
      element in front of the later elements it ties with. */
  function SortBy<T(!new)>(s: seq<T>, key: T -> real): (r: seq<T>)
    ensures SortedBy(r, key)
    ensures multiset(r) == multiset(s)
    decreases |s|
  {
    if |s| == 0 then []
    else
      assert s == [s[0]] + s[1..];
      Insert(s[0], SortBy(s[1..], key), key)
  }

  /** Inserting `x` adds it at the head of its own key class and leaves the
      other classes as they were. */
  lemma {:induction false} InsertWithKey<T(!new)>(x: T, sorted: seq<T>, key: T -> real, k: real)
    requires SortedBy(sorted, key)
    ensures WithKey(Insert(x, sorted, key), key, k)
         == (if key(x) == k then [x] else []) + WithKey(sorted, key, k)
    decreases |sorted|
  {
    if |sorted| == 0 || key(x) <= key(sorted[0]) {
      WithKeyCons(x, sorted, key, k);
    } else {
      SortedTail(sorted, key);
      var rest := Insert(x, sorted[1..], key);
      assert Insert(x, sorted, key) == [sorted[0]] + rest;
      InsertWithKey(x, sorted[1..], key, k);
      InsertWithKeyStep(x, sorted, rest, key, k);
    }
  }

  lemma SortedTail<T>(s: seq<T>, key: T -> real)
    requires SortedBy(s, key) && |s| > 0
    ensures SortedBy(s[1..], key)
  {
    forall i, j | 0 <= i < j < |s| - 1
      ensures key(s[1..][i]) <= key(s[1..][j])
    {
      assert s[1..][i] == s[i + 1] && s[1..][j] == s[j + 1];
    }
  }

  /** The inductive step of `InsertWithKey`: `x` passed the head, which
      therefore has a different key when `x` is in the class. */
  lemma InsertWithKeyStep<T(!new)>(x: T, sorted: seq<T>, rest: seq<T>, key: T -> real, k: real)
    requires |sorted| > 0 && key(sorted[0]) < key(x)
    requires WithKey(rest, key, k) == (if key(x) == k then [x] else []) + WithKey(sorted[1..], key, k)
    ensures WithKey([sorted[0]] + rest, key, k)
         == (if key(x) == k then [x] else []) + WithKey(sorted, key, k)
  {
    if key(x) == k {
      StepInClass(x, sorted, rest, key, k);
    } else {
      assert [] + WithKey(sorted[1..], key, k) == WithKey(sorted[1..], key, k);
      StepOutOfClass(x, sorted, rest, key, k);
    }
  }

  lemma StepInClass<T(!new)>(x: T, sorted: seq<T>, rest: seq<T>, key: T -> real, k: real)
    requires |sorted| > 0 && key(sorted[0]) < key(x) && key(x) == k
    requires WithKey(rest, key, k) == [x] + WithKey(sorted[1..], key, k)
    ensures WithKey([sorted[0]] + rest, key, k) == [x] + WithKey(sorted, key, k)
  {
    WithKeyCons(sorted[0], rest, key, k);
    WithKeyCons(sorted[0], sorted[1..], key, k);
    SplitHead(sorted, []);
  }

  lemma StepOutOfClass<T(!new)>(x: T, sorted: seq<T>, rest: seq<T>, key: T -> real, k: real)
    requires |sorted| > 0
    requires WithKey(rest, key, k) == WithKey(sorted[1..], key, k)
    ensures WithKey([sorted[0]] + rest, key, k) == WithKey(sorted, key, k)
  {
    WithKeyCons(sorted[0], rest, key, k);
    WithKeyCons(sorted[0], sorted[1..], key, k);
    SplitHead(sorted, []);
  }

  /** The key class of a sequence with a known head. */
  lemma WithKeyCons<T(!new)>(x: T, s: seq<T>, key: T -> real, k: real)
    ensures WithKey([x] + s, key, k) == (if key(x) == k then [x] else []) + WithKey(s, key, k)
  {
    var q := y => key(y) == k;
    WithKeyAsFilter([x] + s, key, k, q);
    WithKeyAsFilter(s, key, k, q);
    FilterCons(x, s, q);
  }

  /** Stability: within every key class the sort keeps the original
      relative order. */
  lemma {:induction false} SortIsStable<T(!new)>(s: seq<T>, key: T -> real, k: real)
    ensures WithKey(SortBy(s, key), key, k) == WithKey(s, key, k)
    decreases |s|
  {
    if |s| > 0 {
      SortIsStable(s[1..], key, k);
      InsertWithKey(s[0], SortBy(s[1..], key), key, k);
    }
  }

  function Square(x: real): (r: real)
    ensures r >= 0.0
    ensures x == 0.0 ==> r == 0.0
  {
    if x < 0.0 then
      assert x * x == (-x) * (-x);
      x * x
    else x * x
  }

  /** Squared planar distance from an engineer to the point (lat, lng), on
      raw degree differences. */
  function SqDistance(e: Engineer, lat: real, lng: real): (d: real)
    ensures d >= 0.0
    ensures e.lat == lat && e.lng == lng ==> d == 0.0
  {
    Square(e.lat - lat) + Square(e.lng - lng)
  }

  /** No engineer comes after a farther one. */
  ghost predicate SortedByDistance(s: seq<Engineer>, lat: real, lng: real) {
    SortedBy(s, (e: Engineer) => SqDistance(e, lat, lng))
  }

  /** The engineers of `s` at squared distance exactly `d`, in their order. */
  function AtDistance(s: seq<Engineer>, lat: real, lng: real, d: real): seq<Engineer> {
    Filter(s, e => SqDistance(e, lat, lng) == d)
  }

  /** The source's `sort` by distance to (lat, lng). */
  function SortByDistance(s: seq<Engineer>, lat: real, lng: real): (r: seq<Engineer>)
    ensures SortedByDistance(r, lat, lng)
    ensures multiset(r) == multiset(s)
  {
    SortBy(s, e => SqDistance(e, lat, lng))
  }

  /** Engineers at the same distance leave the ranking in catalog order. */
  lemma SortByDistanceIsStable(s: seq<Engineer>, lat: real, lng: real, d: real)
    ensures AtDistance(SortByDistance(s, lat, lng), lat, lng, d) == AtDistance(s, lat, lng, d)
  {
    var key := e => SqDistance(e, lat, lng);
    var sorted := SortBy(s, key);
    assert SortByDistance(s, lat, lng) == sorted;
    var q := e => SqDistance(e, lat, lng) == d;
    SortIsStable(s, key, d);
    WithKeyAsFilter(sorted, key, d, q);
    WithKeyAsFilter(s, key, d, q);
  }

  /** A prefix of a ranking is a ranking. */
  lemma PrefixSortedByDistance(a: seq<Engineer>, b: seq<Engineer>, lat: real, lng: real)
    requires a <= b && SortedByDistance(b, lat, lng)
    ensures SortedByDistance(a, lat, lng)
  {
    assert forall i :: 0 <= i < |a| ==> a[i] == b[i];
  }

  /** An engineer left out of the first `n` of a ranking is no nearer than
      the last one kept, and the cut kept exactly `n`. */
  lemma OmittedIsNoNearer(sorted: seq<Engineer>, lat: real, lng: real, n: nat, e: Engineer)
    requires SortedByDistance(sorted, lat, lng)
    requires n > 0 && e in sorted && e !in Take(sorted, n)
    ensures |Take(sorted, n)| == n
    ensures SqDistance(Take(sorted, n)[n - 1], lat, lng) <= SqDistance(e, lat, lng)
  {
    var r := Take(sorted, n);
    var j :| 0 <= j < |sorted| && sorted[j] == e;
    assert forall k :: 0 <= k < |r| ==> r[k] == sorted[k] && r[k] in r;
    assert j >= |r|;
    assert r == sorted[..n];
  }

  lemma RankingHeadsAgree(a: seq<Engineer>, b: seq<Engineer>, lat: real, lng: real)
    requires SortedByDistance(a, lat, lng) && SortedByDistance(b, lat, lng)
    requires multiset(a) == multiset(b) && |a| > 0
    requires forall i, j :: 0 <= i < j < |a| ==> SqDistance(a[i], lat, lng) != SqDistance(a[j], lat, lng)
    ensures |b| > 0 && a[0] == b[0]
  {
    assert b[0] in multiset(a) by {
      assert |b| == |multiset(b)| == |a|;
    }
    var m :| 0 <= m < |a| && a[m] == b[0];
    assert a[0] in multiset(b);
    var k :| 0 <= k < |b| && b[k] == a[0];
    assert SqDistance(a[m], lat, lng) == SqDistance(a[0], lat, lng);
  }

  lemma MultisetTails<T>(a: seq<T>, b: seq<T>)
    requires |a| > 0 && |b| > 0 && a[0] == b[0] && multiset(a) == multiset(b)
    ensures multiset(a[1..]) == multiset(b[1..])
  {
    assert a == [a[0]] + a[1..];
    assert b == [b[0]] + b[1..];
    assert multiset(a) == multiset{a[0]} + multiset(a[1..]);
    assert multiset(b) == multiset{a[0]} + multiset(b[1..]);
    assert multiset(a[1..]) == multiset(a) - multiset{a[0]};
    assert multiset(b[1..]) == multiset(b) - multiset{a[0]};
  }

  /** When no two engineers of `a` are at the same distance, `a` is the only
      ranking of its engineers. */
  lemma {:induction false} RankingIsUnique(a: seq<Engineer>, b: seq<Engineer>, lat: real, lng: real)
    requires SortedByDistance(a, lat, lng) && SortedByDistance(b, lat, lng)
    requires multiset(a) == multiset(b)
    requires forall i, j :: 0 <= i < j < |a| ==> SqDistance(a[i], lat, lng) != SqDistance(a[j], lat, lng)
    ensures a == b
    decreases |a|
  {
    assert |a| == |multiset(a)| == |multiset(b)| == |b|;
    if |a| > 0 {
      RankingHeadsAgree(a, b, lat, lng);
      MultisetTails(a, b);
      RankingIsUnique(a[1..], b[1..], lat, lng);
      assert a == [a[0]] + a[1..];
      assert b == [b[0]] + b[1..];
    }
  }

  /** A single engineer is its own ranking. */
  lemma RankingOfOne(e: Engineer, lat: real, lng: real)
    ensures SortByDistance([e], lat, lng) == [e]
  {
    var sorted := SortByDistance([e], lat, lng);
    assert multiset(sorted) == multiset{e};
    assert |sorted| == 1 && sorted[0] in multiset(sorted);
  }

  /** Three engineers at distinct distances are ranked nearest first. */
  lemma RankingOfThree(a: Engineer, b: Engineer, c: Engineer, lat: real, lng: real)
    requires SqDistance(a, lat, lng) < SqDistance(c, lat, lng) < SqDistance(b, lat, lng)
    ensures SortByDistance([a, b, c], lat, lng) == [a, c, b]
  {
    var expected := [a, c, b];
    IncreasingThree(expected, lat, lng);
    SwapLastTwo(a, b, c);
    RankingIsUnique(expected, SortByDistance([a, b, c], lat, lng), lat, lng);
  }

  lemma IncreasingThree(s: seq<Engineer>, lat: real, lng: real)
    requires |s| == 3
    requires SqDistance(s[0], lat, lng) < SqDistance(s[1], lat, lng) < SqDistance(s[2], lat, lng)
    ensures SortedByDistance(s, lat, lng)
    ensures forall i, j :: 0 <= i < j < |s| ==> SqDistance(s[i], lat, lng) != SqDistance(s[j], lat, lng)
  {
  }

  lemma SwapLastTwo<T>(a: T, b: T, c: T)
    ensures multiset([a, c, b]) == multiset([a, b, c])
  {
  }
}
