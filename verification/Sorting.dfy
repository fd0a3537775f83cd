/**
 Array.prototype.sort with a comparator, as a stable insertion sort, and the facts
 about it that the other modules need.
 */
module Sorting {
  predicate SortedBy<T>(s: seq<T>, le: (T, T) -> bool) {
    forall i, j | 0 <= i < j < |s| :: le(s[i], s[j])
  }

  /** `le` orders the elements of `s`: any two are comparable, and it is transitive. */
  ghost predicate Orders<T(!new)>(s: seq<T>, le: (T, T) -> bool) {
    && (forall x, y | x in s && y in s :: le(x, y) || le(y, x))
    && (forall x, y, z | x in s && y in s && z in s && le(x, y) && le(y, z) :: le(x, z))
  }

  /** No two different elements of `s` are ranked equal. */
  ghost predicate Separates<T(!new)>(s: seq<T>, le: (T, T) -> bool) {
    forall x, y | x in s && y in s && le(x, y) && le(y, x) :: x == y
  }

  function Insert<T>(x: T, s: seq<T>, le: (T, T) -> bool): (r: seq<T>)
    ensures multiset(r) == multiset{x} + multiset(s)
  {
    if s == [] || le(x, s[0]) then [x] + s
    else
      assert s == [s[0]] + s[1..];
      [s[0]] + Insert(x, s[1..], le)
  }

  function SortBy<T>(s: seq<T>, le: (T, T) -> bool): (r: seq<T>)
    ensures multiset(r) == multiset(s)
    ensures |r| == |s|
  {
    if s == [] then []
    else
      assert s == [s[0]] + s[1..];
      var r := Insert(s[0], SortBy(s[1..], le), le);
      assert |multiset(r)| == |r| && |multiset(s)| == |s|;
      r
  }

  lemma SameMembers<T>(s: seq<T>, t: seq<T>)
    requires multiset(s) == multiset(t)
    ensures forall x :: x in s <==> x in t
    ensures |s| == |t|
  {
    assert forall x :: x in s <==> x in multiset(s);
    assert forall x :: x in t <==> x in multiset(t);
    assert |multiset(s)| == |s| && |multiset(t)| == |t|;
  }

  lemma OrdersSubset<T(!new)>(s: seq<T>, t: seq<T>, le: (T, T) -> bool)
    requires Orders(s, le) && forall y | y in t :: y in s
    ensures Orders(t, le)
  {
  }

  lemma HeadFirst<T(!new)>(h: T, t: seq<T>, le: (T, T) -> bool)
    requires SortedBy(t, le) && forall y | y in t :: le(h, y)
    ensures SortedBy([h] + t, le)
  {
  }

  lemma {:induction false} InsertKeepsSorted<T(!new)>(x: T, s: seq<T>, le: (T, T) -> bool)
    requires SortedBy(s, le) && Orders([x] + s, le)
    ensures SortedBy(Insert(x, s, le), le)
  {
    if s == [] {
    } else if le(x, s[0]) {
      forall y | y in s ensures le(x, y) {
        var j :| 0 <= j < |s| && s[j] == y;
        assert x in [x] + s && s[0] in [x] + s && y in [x] + s;
      }
      HeadFirst(x, s, le);
    } else {
      assert x in [x] + s && s[0] in [x] + s;
      var t := Insert(x, s[1..], le);
      assert SortedBy(t, le) by {
        OrdersSubset([x] + s, [x] + s[1..], le);
        InsertKeepsSorted(x, s[1..], le);
      }
      SameMembers(t, [x] + s[1..]);
      HeadFirst(s[0], t, le);
    }
  }

  lemma TailFacts<T(!new)>(a: seq<T>, le: (T, T) -> bool)
    requires a != []
    ensures SortedBy(a, le) ==> SortedBy(a[1..], le)
    ensures Separates(a, le) ==> Separates(a[1..], le)
    ensures Orders(a, le) ==> Orders(a[1..], le)
    ensures multiset(a[1..]) == multiset(a) - multiset{a[0]}
  {
    assert a == [a[0]] + a[1..];
    assert forall y | y in a[1..] :: y in a;
  }

  lemma {:induction false} SortBySorts<T(!new)>(s: seq<T>, le: (T, T) -> bool)
    requires Orders(s, le)
    ensures SortedBy(SortBy(s, le), le)
  {
    if s != [] {
      assert s == [s[0]] + s[1..];
      TailFacts(s, le);
      SortBySorts(s[1..], le);
      SameMembers([s[0]] + SortBy(s[1..], le), s);
      InsertKeepsSorted(s[0], SortBy(s[1..], le), le);
    }
  }

  lemma SameHead<T(!new)>(a: seq<T>, b: seq<T>, le: (T, T) -> bool)
    requires SortedBy(a, le) && SortedBy(b, le) && multiset(a) == multiset(b) && a != []
    requires Separates(a, le)
    ensures b != [] && a[0] == b[0]
  {
    SameMembers(a, b);
    assert a[0] in b && b[0] in a;
    var i :| 0 <= i < |b| && b[i] == a[0];
    var j :| 0 <= j < |a| && a[j] == b[0];
    if i != 0 && j != 0 {
      assert le(b[0], b[i]) && le(a[0], a[j]);
    }
  }

  /** A collection of rows has one sorted arrangement, so the input order does not matter. */
  lemma {:induction false} SortedIsUnique<T(!new)>(a: seq<T>, b: seq<T>, le: (T, T) -> bool)
    requires SortedBy(a, le) && SortedBy(b, le) && multiset(a) == multiset(b)
    requires Separates(a, le)
    ensures a == b
  {
    SameMembers(a, b);
    if a != [] {
      SameHead(a, b, le);
      TailFacts(a, le);
      TailFacts(b, le);
      SortedIsUnique(a[1..], b[1..], le);
      assert a[..1] + a[1..] == b[..1] + b[1..];
      assert a == a[..1] + a[1..] && b == b[..1] + b[1..];
    }
  }

  lemma SortByPermutation<T(!new)>(s: seq<T>, t: seq<T>, le: (T, T) -> bool)
    requires multiset(s) == multiset(t)
    requires Orders(s, le) && Separates(s, le)
    ensures SortBy(s, le) == SortBy(t, le)
  {
    SortBySorts(s, le);
    SameMembers(s, t);
    SortBySorts(t, le);
    SameMembers(SortBy(s, le), s);
    SortedIsUnique(SortBy(s, le), SortBy(t, le), le);
  }

  lemma SortOfSorted<T(!new)>(s: seq<T>, t: seq<T>, le: (T, T) -> bool)
    requires multiset(s) == multiset(t) && SortedBy(t, le)
    requires Orders(s, le) && Separates(s, le)
    ensures SortBy(s, le) == t
  {
    SortBySorts(s, le);
    SameMembers(SortBy(s, le), s);
    SortedIsUnique(SortBy(s, le), t, le);
  }

  /** Sorting by a numeric key, as `(a, b) => key(a) - key(b)` does. */
  function SortByKey<T>(s: seq<T>, key: T -> int): (r: seq<T>)
    ensures multiset(r) == multiset(s) && |r| == |s|
  {
    SortBy(s, (a: T, b: T) => key(a) <= key(b))
  }

  lemma SortByKeySorts<T(!new)>(s: seq<T>, key: T -> int)
    ensures forall i, j | 0 <= i < j < |s| :: key(SortByKey(s, key)[i]) <= key(SortByKey(s, key)[j])
    ensures forall x :: x in SortByKey(s, key) <==> x in s
  {
    var le := (a: T, b: T) => key(a) <= key(b);
    SortBySorts(s, le);
    SameMembers(SortByKey(s, key), s);
    var r := SortByKey(s, key);
    forall i, j | 0 <= i < j < |s| ensures key(r[i]) <= key(r[j]) {
      assert le(r[i], r[j]);
    }
  }

  predicate DistinctKeys<T>(s: seq<T>, key: T -> int) {
    forall i, j | 0 <= i < j < |s| :: key(s[i]) != key(s[j])
  }

  /** With distinct keys the order is strict. */
  lemma SortByKeyIsStrict<T(!new)>(s: seq<T>, key: T -> int)
    requires DistinctKeys(s, key)
    ensures forall i, j | 0 <= i < j < |s| :: key(SortByKey(s, key)[i]) < key(SortByKey(s, key)[j])
    ensures forall x :: x in SortByKey(s, key) <==> x in s
  {
    SortByKeySorts(s, key);
    var r := SortByKey(s, key);
    assert NoRepeats(s);
    NoRepeatsPermutation(s, r);
    forall i, j | 0 <= i < j < |s| ensures key(r[i]) < key(r[j]) {
      assert r[i] in s && r[j] in s && r[i] != r[j];
    }
  }

  /** With distinct keys the input order does not matter. */
  lemma SortByKeyPermutation<T(!new)>(s: seq<T>, t: seq<T>, key: T -> int)
    requires DistinctKeys(s, key) && multiset(s) == multiset(t)
    ensures SortByKey(s, key) == SortByKey(t, key)
  {
    var le := (a: T, b: T) => key(a) <= key(b);
    assert Separates(s, le);
    SortByPermutation(s, t, le);
  }

  /** A list already in order is left alone. */
  lemma SortByKeyOfSorted<T(!new)>(s: seq<T>, t: seq<T>, key: T -> int)
    requires multiset(s) == multiset(t) && forall i, j | 0 <= i < j < |t| :: key(t[i]) < key(t[j])
    ensures SortByKey(s, key) == t
  {
    var le := (a: T, b: T) => key(a) <= key(b);
    SameMembers(s, t);
    assert Separates(s, le);
    SortOfSorted(s, t, le);
  }

  /** Array.prototype.filter. */
  function Filter<T(!new)>(s: seq<T>, p: T -> bool): (r: seq<T>)
    ensures forall x :: x in r <==> x in s && p(x)
    ensures |r| <= |s|
  {
    if s == [] then []
    else if p(s[0]) then [s[0]] + Filter(s[1..], p) else Filter(s[1..], p)
  }

  lemma {:induction false} FilterOfAppend<T(!new)>(s: seq<T>, x: T, p: T -> bool)
    ensures Filter(s + [x], p) == Filter(s, p) + (if p(x) then [x] else [])
  {
    if s == [] {
      assert s + [x] == [x];
    } else {
      assert (s + [x])[1..] == s[1..] + [x];
      FilterOfAppend(s[1..], x, p);
    }
  }

  lemma {:induction false} FilterCongruence<T(!new)>(s: seq<T>, p: T -> bool, q: T -> bool)
    requires forall x | x in s :: p(x) == q(x)
    ensures Filter(s, p) == Filter(s, q)
  {
    if s != [] {
      FilterCongruence(s[1..], p, q);
    }
  }

  lemma {:induction false} EverythingPasses<T(!new)>(s: seq<T>, p: T -> bool)
    requires forall x | x in s :: p(x)
    ensures Filter(s, p) == s
  {
    if s != [] {
      EverythingPasses(s[1..], p);
      assert s == [s[0]] + s[1..];
    }
  }

  lemma {:induction false} NothingPasses<T(!new)>(s: seq<T>, p: T -> bool)
    requires forall x | x in s :: !p(x)
    ensures Filter(s, p) == []
  {
    if s != [] {
      NothingPasses(s[1..], p);
    }
  }

  lemma {:induction false} FilterTwice<T(!new)>(s: seq<T>, p: T -> bool, q: T -> bool)
    ensures Filter(Filter(s, p), q) == Filter(s, (x: T) => p(x) && q(x))
  {
    if s != [] {
      FilterTwice(s[1..], p, q);
    }
  }

  lemma {:induction false} FilterOfMap<T(!new), U(!new)>(s: seq<T>, f: T -> U, p: U -> bool, q: T -> bool)
    requires forall x | x in s :: p(f(x)) == q(x)
    ensures |Filter(Map(s, f), p)| == |Filter(s, q)|
  {
    if s != [] {
      FilterOfMap(s[1..], f, p, q);
      assert Map(s, f)[1..] == Map(s[1..], f);
    }
  }

  lemma {:induction false} FilterMonotone<T(!new)>(s: seq<T>, p: T -> bool, q: T -> bool)
    requires forall x | x in s && p(x) :: q(x)
    ensures |Filter(s, p)| <= |Filter(s, q)|
    ensures (exists x | x in s :: q(x) && !p(x)) ==> |Filter(s, p)| < |Filter(s, q)|
  {
    if s != [] {
      FilterMonotone(s[1..], p, q);
    }
  }

  lemma {:induction false} FilterKeepsDistinct<T(!new)>(s: seq<T>, p: T -> bool, key: T -> int)
    requires DistinctKeys(s, key)
    ensures DistinctKeys(Filter(s, p), key)
  {
    if s != [] {
      FilterKeepsDistinct(s[1..], p, key);
      assert forall x | x in s[1..] :: key(x) != key(s[0]);
      var rest := Filter(s[1..], p);
      assert forall i | 0 <= i < |rest| :: rest[i] in rest && rest[i] in s[1..];
    }
  }

  lemma FilterOfPrefix<T(!new)>(s: seq<T>, k: nat, p: T -> bool)
    requires k < |s|
    ensures Filter(s[..k + 1], p) == Filter(s[..k], p) + (if p(s[k]) then [s[k]] else [])
  {
    assert s[..k + 1] == s[..k] + [s[k]];
    FilterOfAppend(s[..k], s[k], p);
  }

  /** Where each kept element stands: filter keeps the order. */
  lemma FilterKeepsOrder<T(!new)>(s: seq<T>, p: T -> bool) returns (at: seq<nat>)
    ensures |at| == |Filter(s, p)|
    ensures forall k | 0 <= k < |at| :: at[k] < |s| && Filter(s, p)[k] == s[at[k]]
    ensures forall j, k | 0 <= j < k < |at| :: at[j] < at[k]
  {
    at := [];
    for k := 0 to |s|
      invariant |at| == |Filter(s[..k], p)|
      invariant forall i | 0 <= i < |at| :: at[i] < k && Filter(s[..k], p)[i] == s[at[i]]
      invariant forall i, j | 0 <= i < j < |at| :: at[i] < at[j]
    {
      FilterOfPrefix(s, k, p);
      if p(s[k]) {
        at := at + [k];
      }
    }
    assert s[..|s|] == s;
  }

  function SetOf<T>(s: seq<T>): set<T> {
    set x | x in s
  }

  lemma PickFrom<T>(s: set<T>) returns (x: T)
    requires s != {}
    ensures x in s
  {
    x :| x in s;
  }

  predicate NoRepeats<T(==)>(s: seq<T>) {
    forall i, j | 0 <= i < j < |s| :: s[i] != s[j]
  }

  lemma {:induction false} NoRepeatsCount<T>(s: seq<T>)
    requires NoRepeats(s)
    ensures multiset(s) == multiset(SetOf(s))
    ensures |SetOf(s)| == |s|
  {
    if s != [] {
      assert s == [s[0]] + s[1..];
      NoRepeatsCount(s[1..]);
      assert SetOf(s) == {s[0]} + SetOf(s[1..]);
      assert |multiset(SetOf(s))| == |SetOf(s)|;
    }
  }

  lemma OnceEach<T>(s: seq<T>, k: nat, l: nat)
    requires k < l < |s| && multiset(s) == multiset(SetOf(s))
    ensures s[k] != s[l]
  {
    assert s == s[..l] + [s[l]] + s[l + 1..];
    assert s[..l][k] == s[k];
    assert s[k] in multiset(s[..l]);
    assert multiset(s)[s[l]] == 1;
    assert multiset(s) == multiset(s[..l]) + multiset{s[l]} + multiset(s[l + 1..]);
  }

  lemma NoRepeatsPermutation<T>(s: seq<T>, t: seq<T>)
    requires NoRepeats(s) && multiset(s) == multiset(t)
    ensures NoRepeats(t) && SetOf(t) == SetOf(s) && |t| == |s|
  {
    NoRepeatsCount(s);
    SameMembers(s, t);
    assert SetOf(t) == SetOf(s);
    forall i, j | 0 <= i < j < |t| ensures t[i] != t[j] {
      OnceEach(t, i, j);
    }
  }

  /** The keys of a Map, largest first, as `[...keys].sort((a, b) => b - a)` gives them. */
  function Descending(s: seq<int>): (r: seq<int>)
    ensures multiset(r) == multiset(s) && |r| == |s|
  {
    SortByKey(s, (x: int) => -x)
  }

  lemma DescendingSorts(s: seq<int>)
    requires NoRepeats(s)
    ensures forall i, j | 0 <= i < j < |s| :: Descending(s)[i] > Descending(s)[j]
    ensures forall x :: x in Descending(s) <==> x in s
  {
    SortByKeyIsStrict(s, (x: int) => -x);
  }

  /** Array.prototype.map. */
  function Map<T, U>(s: seq<T>, f: T -> U): (r: seq<U>)
    ensures |r| == |s| && forall k | 0 <= k < |s| :: r[k] == f(s[k])
  {
    seq(|s|, k requires 0 <= k < |s| => f(s[k]))
  }

  lemma RemoveAt<T>(t: seq<T>, k: nat)
    requires k < |t|
    ensures multiset(t) == multiset(t[..k] + t[k + 1..]) + multiset{t[k]}
    ensures multiset(t[..k] + t[k + 1..]) == multiset(t) - multiset{t[k]}
  {
    assert t == t[..k] + ([t[k]] + t[k + 1..]);
  }

  lemma MapAround<T, U>(t: seq<T>, k: nat, f: T -> U)
    requires k < |t|
    ensures multiset(Map(t, f)) == multiset(Map(t[..k] + t[k + 1..], f)) + multiset{f(t[k])}
  {
    RemoveAt(Map(t, f), k);
    assert Map(t[..k] + t[k + 1..], f) == Map(t, f)[..k] + Map(t, f)[k + 1..];
  }

  lemma {:induction false} MapPermutation<T, U>(s: seq<T>, t: seq<T>, f: T -> U)
    requires multiset(s) == multiset(t)
    ensures multiset(Map(s, f)) == multiset(Map(t, f))
  {
    SameMembers(s, t);
    if s != [] {
      assert s[0] in t;
      var k :| 0 <= k < |t| && t[k] == s[0];
      var s1, t1 := s[..0] + s[1..], t[..k] + t[k + 1..];
      assert multiset(s1) == multiset(t1) by {
        RemoveAt(s, 0);
        RemoveAt(t, k);
      }
      MapPermutation(s1, t1, f);
      assert multiset(Map(s, f)) == multiset(Map(s1, f)) + multiset{f(s[0])} by {
        MapAround(s, 0, f);
      }
      assert multiset(Map(t, f)) == multiset(Map(t1, f)) + multiset{f(t[k])} by {
        MapAround(t, k, f);
      }
    }
  }

  /** `s.reduce((sum, x) => sum + x, 0)` */
  function Sum(s: seq<int>): int {
    if s == [] then 0 else Sum(s[..|s| - 1]) + s[|s| - 1]
  }

  lemma {:induction false} SumOfPairs(a: seq<int>, b: seq<int>, c: seq<int>)
    requires |a| == |b| == |c| && forall k | 0 <= k < |a| :: a[k] == b[k] + c[k]
    ensures Sum(a) == Sum(b) + Sum(c)
  {
    if a != [] {
      var n := |a| - 1;
      SumOfPairs(a[..n], b[..n], c[..n]);
    }
  }

  lemma {:induction false} SumOfConcat(a: seq<int>, b: seq<int>)
    ensures Sum(a + b) == Sum(a) + Sum(b)
  {
    if b == [] {
      assert a + b == a;
    } else {
      assert (a + b)[..|a + b| - 1] == a + b[..|b| - 1];
      SumOfConcat(a, b[..|b| - 1]);
    }
  }

  lemma SumOfOne(x: int)
    ensures Sum([x]) == x
  {
  }

  lemma SumAround(before: seq<int>, x: int, after: seq<int>)
    ensures Sum(before + [x] + after) == Sum(before + after) + x
  {
    SumOfConcat(before + [x], after);
    SumOfConcat(before, [x]);
    SumOfConcat(before, after);
    SumOfOne(x);
  }

  lemma SumWithout(s: seq<int>, k: nat)
    requires k < |s|
    ensures Sum(s) == Sum(s[..k] + s[k + 1..]) + s[k]
  {
    SplitAround(s, k);
    SumAround(s[..k], s[k], s[k + 1..]);
  }

  lemma SplitAround<T>(s: seq<T>, k: nat)
    requires k < |s|
    ensures s == s[..k] + [s[k]] + s[k + 1..]
  {
  }

  lemma {:induction false} SumPermutation(s: seq<int>, t: seq<int>)
    requires multiset(s) == multiset(t)
    ensures Sum(s) == Sum(t)
  {
    SameMembers(s, t);
    if s != [] {
      assert s[0] in t;
      var k :| 0 <= k < |t| && t[k] == s[0];
      var s1, t1 := s[..0] + s[1..], t[..k] + t[k + 1..];
      assert multiset(s1) == multiset(t1) by {
        RemoveAt(s, 0);
        RemoveAt(t, k);
      }
      SumPermutation(s1, t1);
      SumWithout(s, 0);
      SumWithout(t, k);
    }
  }

  lemma {:induction false} SumOfZeros(s: seq<int>)
    requires forall k | 0 <= k < |s| :: s[k] == 0
    ensures Sum(s) == 0
  {
    if s != [] {
      SumOfZeros(s[..|s| - 1]);
    }
  }

  lemma SumOfMapFirst<T>(s: seq<T>, f: T -> int)
    requires s != []
    ensures Sum(Map(s, f)) == f(s[0]) + Sum(Map(s[1..], f))
  {
    SumWithout(Map(s, f), 0);
    assert Map(s, f)[..0] + Map(s, f)[1..] == Map(s[1..], f);
  }

  lemma SumOfMapLast<T>(s: seq<T>, f: T -> int)
    requires s != []
    ensures Sum(Map(s, f)) == Sum(Map(s[..|s| - 1], f)) + f(s[|s| - 1])
  {
    assert Map(s, f)[..|s| - 1] == Map(s[..|s| - 1], f);
  }

  lemma SumOfMaps<T>(s: seq<T>, f: T -> int, g: T -> int, h: T -> int)
    requires forall k | 0 <= k < |s| :: f(s[k]) == g(s[k]) + h(s[k])
    ensures Sum(Map(s, f)) == Sum(Map(s, g)) + Sum(Map(s, h))
  {
    SumOfPairs(Map(s, f), Map(s, g), Map(s, h));
  }
}
