/** Sequences up to reordering: sums, distinct keys, and sorting by a key. */
module Bags {
  import opened Options

  function Sum<T>(s: seq<T>, f: T -> nat): nat {
    if s == [] then 0 else Sum(s[..|s| - 1], f) + f(s[|s| - 1])
  }

  lemma {:induction false} SumAppend<T>(a: seq<T>, b: seq<T>, f: T -> nat)
    ensures Sum(a + b, f) == Sum(a, f) + Sum(b, f)
  {
    if b == [] {
      assert a + b == a;
    } else {
      assert (a + b)[..|a + b| - 1] == a + b[..|b| - 1];
      SumAppend(a, b[..|b| - 1], f);
    }
  }

  function Without<T>(s: seq<T>, k: nat): seq<T>
    requires k < |s|
  {
    s[..k] + s[k + 1..]
  }

  lemma WithoutBag<T>(s: seq<T>, k: nat)
    requires k < |s|
    ensures multiset(s) == multiset(Without(s, k)) + multiset{s[k]}
    ensures multiset(Without(s, k)) == multiset(s) - multiset{s[k]}
  {
    assert s == s[..k] + [s[k]] + s[k + 1..];
  }

  lemma SumMiddle<T>(l: seq<T>, x: T, r: seq<T>, f: T -> nat)
    ensures Sum(l + [x] + r, f) == Sum(l + r, f) + f(x)
  {
    SumAppend(l + [x], r, f);
    SumAppend(l, [x], f);
    SumAppend(l, r, f);
    assert [x][..0] == [];
  }

  lemma SumWithout<T>(s: seq<T>, k: nat, f: T -> nat)
    requires k < |s|
    ensures Sum(s, f) == Sum(Without(s, k), f) + f(s[k])
  {
    hide Sum;
    SumMiddle(s[..k], s[k], s[k + 1..], f);
    assert s == s[..k] + [s[k]] + s[k + 1..];
  }

  lemma {:induction false} SumOfBag<T>(a: seq<T>, b: seq<T>, f: T -> nat)
    requires multiset(a) == multiset(b)
    ensures Sum(a, f) == Sum(b, f)
    decreases |a|
  {
    hide Sum;
    if a == [] {
      assert |b| == |multiset(b)| == 0;
    } else {
      assert a[0] in multiset(a) && a[0] in b;
      var k :| 0 <= k < |b| && b[k] == a[0];
      WithoutBag(a, 0);
      WithoutBag(b, k);
      SumOfBag(Without(a, 0), Without(b, k), f);
      SumWithout(a, 0, f);
      SumWithout(b, k, f);
    }
  }

  lemma BagMembers<T>(a: seq<T>, b: seq<T>)
    requires multiset(a) == multiset(b)
    ensures |a| == |b| && forall x :: x in a <==> x in b
  {
    assert |a| == |multiset(a)| && |b| == |multiset(b)|;
    forall x ensures x in a <==> x in b {
      assert x in multiset(a) <==> x in multiset(b);
    }
  }

  predicate DistinctBy<T, K(==)>(s: seq<T>, key: T -> K) {
    forall i, j :: 0 <= i < j < |s| ==> key(s[i]) != key(s[j])
  }

  // Two positions of a bag that hold two of its elements.
  lemma TwoPlaces<T>(s: seq<T>, x: T, y: T) returns (p: nat, q: nat)
    requires multiset{x, y} <= multiset(s)
    ensures p < |s| && q < |s| && p != q && s[p] == x && s[q] == y
  {
    assert multiset(s)[x] >= multiset{x, y}[x] >= 1 && x in s;
    p :| 0 <= p < |s| && s[p] == x;
    WithoutBag(s, p);
    var rest := Without(s, p);
    assert multiset(s)[y] >= multiset{x, y}[y];
    assert multiset(rest)[y] >= 1 && y in rest;
    var k :| 0 <= k < |rest| && rest[k] == y;
    q := if k < p then k else k + 1;
  }

  lemma PairInBag<T>(s: seq<T>, i: nat, j: nat)
    requires i < j < |s|
    ensures multiset{s[i], s[j]} <= multiset(s)
  {
    WithoutBag(s, j);
    WithoutBag(Without(s, j), i);
    assert multiset(s) == multiset(Without(Without(s, j), i)) + multiset{s[i]} + multiset{s[j]};
  }

  lemma DistinctInBag<T, K>(a: seq<T>, b: seq<T>, key: T -> K)
    requires multiset(a) == multiset(b) && DistinctBy(a, key)
    ensures DistinctBy(b, key)
  {
    forall i, j | 0 <= i < j < |b| ensures key(b[i]) != key(b[j]) {
      PairInBag(b, i, j);
      var p, q := TwoPlaces(a, b[i], b[j]);
      assert key(a[p]) != key(a[q]);
    }
  }

  // ---- stable sorting by a pair of numbers ----

  type Key = (int, int)

  predicate Before(a: Key, b: Key) {
    a.0 < b.0 || (a.0 == b.0 && a.1 < b.1)
  }

  function Sorted<T>(s: seq<T>, key: T -> Key): (r: seq<T>) {
    if s == [] then [] else Insert(s[|s| - 1], Sorted(s[..|s| - 1], key), key)
  }

  function Insert<T>(x: T, s: seq<T>, key: T -> Key): (r: seq<T>) {
    if s == [] || Before(key(x), key(s[0])) then [x] + s else [s[0]] + Insert(x, s[1..], key)
  }

  predicate Ascending<T>(s: seq<T>, key: T -> Key) {
    forall i, j :: 0 <= i < j < |s| ==> !Before(key(s[j]), key(s[i]))
  }

  lemma {:induction false} InsertKeepsBag<T>(x: T, s: seq<T>, key: T -> Key)
    ensures multiset(Insert(x, s, key)) == multiset(s) + multiset{x}
  {
    if s != [] && !Before(key(x), key(s[0])) {
      InsertKeepsBag(x, s[1..], key);
      assert s == [s[0]] + s[1..];
    }
  }

  predicate AllAtLeast<T>(s: seq<T>, bound: Key, key: T -> Key) {
    forall k :: 0 <= k < |s| ==> !Before(key(s[k]), bound)
  }

  lemma Prepend<T>(x: T, s: seq<T>, key: T -> Key)
    requires Ascending(s, key) && AllAtLeast(s, key(x), key)
    ensures Ascending([x] + s, key)
  {
  }

  lemma {:induction false} InsertAtLeast<T>(x: T, s: seq<T>, bound: Key, key: T -> Key)
    requires AllAtLeast(s, bound, key) && !Before(key(x), bound)
    ensures AllAtLeast(Insert(x, s, key), bound, key)
  {
    if s != [] && !Before(key(x), key(s[0])) {
      InsertAtLeast(x, s[1..], bound, key);
    }
  }

  lemma {:induction false} InsertSorts<T>(x: T, s: seq<T>, key: T -> Key)
    requires Ascending(s, key)
    ensures Ascending(Insert(x, s, key), key)
  {
    if s == [] || Before(key(x), key(s[0])) {
      Prepend(x, s, key);
    } else {
      InsertSorts(x, s[1..], key);
      InsertAtLeast(x, s[1..], key(s[0]), key);
      Prepend(s[0], Insert(x, s[1..], key), key);
    }
  }

  lemma NothingToSort<T>(s: seq<T>, key: T -> Key)
    requires s == []
    ensures Ascending(s, key)
  {
  }

  lemma {:induction false} SortedSorts<T>(s: seq<T>, key: T -> Key)
    ensures Ascending(Sorted(s, key), key)
    ensures multiset(Sorted(s, key)) == multiset(s)
  {
    hide Ascending, Insert;
    if s == [] {
      NothingToSort(s, key);
    } else {
      SortedSorts(s[..|s| - 1], key);
      InsertSorts(s[|s| - 1], Sorted(s[..|s| - 1], key), key);
      InsertKeepsBag(s[|s| - 1], Sorted(s[..|s| - 1], key), key);
      assert s == s[..|s| - 1] + [s[|s| - 1]];
    }
  }

  lemma TailBag<T>(s: seq<T>)
    requires s != []
    ensures multiset(s[1..]) == multiset(s) - multiset{s[0]} && s == [s[0]] + s[1..]
  {
    assert s == [s[0]] + s[1..];
  }

  // Equal keys mean equal elements.
  ghost predicate KeyTells<T(!new)>(s: seq<T>, key: T -> Key) {
    forall x, y :: x in s && y in s && key(x) == key(y) ==> x == y
  }

  lemma TailKeys<T(!new)>(s: seq<T>, key: T -> Key)
    requires s != []
    ensures Ascending(s, key) ==> Ascending(s[1..], key)
    ensures KeyTells(s, key) ==> KeyTells(s[1..], key)
  {
  }

  // A bag whose keys tell its elements apart has one ascending order.
  lemma {:induction false} OneOrder<T(!new)>(a: seq<T>, b: seq<T>, key: T -> Key)
    requires multiset(a) == multiset(b) && KeyTells(a, key)
    requires Ascending(a, key) && Ascending(b, key)
    ensures a == b
  {
    hide Ascending, KeyTells;
    BagMembers(a, b);
    if a != [] {
      LeastFirst(a, b, key);
      TailBag(a);
      TailBag(b);
      TailKeys(a, key);
      TailKeys(b, key);
      OneOrder(a[1..], b[1..], key);
    }
  }

  lemma LeastFirst<T(!new)>(a: seq<T>, b: seq<T>, key: T -> Key)
    requires multiset(a) == multiset(b) && KeyTells(a, key) && a != [] && b != []
    requires Ascending(a, key) && Ascending(b, key)
    ensures a[0] == b[0]
  {
    BagMembers(a, b);
    assert a[0] in b && b[0] in a;
    var p :| 0 <= p < |a| && a[p] == b[0];
    var q :| 0 <= q < |b| && b[q] == a[0];
    FirstIsLeast(a, key, p);
    FirstIsLeast(b, key, q);
  }

  lemma FirstIsLeast<T>(s: seq<T>, key: T -> Key, p: nat)
    requires Ascending(s, key) && p < |s|
    ensures !Before(key(s[p]), key(s[0]))
  {
  }

  /** Sorting a bag whose keys tell its elements apart forgets the order it came in. */
  lemma SortForgetsOrder<T(!new)>(a: seq<T>, b: seq<T>, key: T -> Key)
    requires multiset(a) == multiset(b) && KeyTells(a, key)
    ensures Sorted(a, key) == Sorted(b, key)
  {
    SortedSorts(a, key);
    SortedSorts(b, key);
    BagMembers(a, Sorted(a, key));
    OneOrder(Sorted(a, key), Sorted(b, key), key);
  }

  // ---- ties ----

  lemma {:induction false} InsertAlike<T>(x: T, s: seq<T>, key: T -> Key, finer: T -> Key)
    requires forall k :: 0 <= k < |s| ==> (Before(key(x), key(s[k])) <==> Before(finer(x), finer(s[k])))
    ensures Insert(x, s, key) == Insert(x, s, finer)
  {
    if s != [] {
      InsertAlike(x, s[1..], key, finer);
    }
  }

  // No later element moves before an earlier one under one key but not under the other.
  ghost predicate TieBroken<T(!new)>(s: seq<T>, key: T -> Key, finer: T -> Key) {
    forall i, j :: 0 <= i < j < |s| ==> (Before(key(s[j]), key(s[i])) <==> Before(finer(s[j]), finer(s[i])))
  }

  /** A stable sort by a key is the sort by a finer key that breaks its ties in the order of arrival. */
  lemma {:induction false} StableSort<T(!new)>(s: seq<T>, key: T -> Key, finer: T -> Key)
    requires TieBroken(s, key, finer)
    ensures Sorted(s, key) == Sorted(s, finer)
  {
    if s != [] {
      var init, x := s[..|s| - 1], s[|s| - 1];
      StableSort(init, key, finer);
      SortedSorts(init, key);
      var r := Sorted(init, key);
      BagMembers(init, r);
      forall k | 0 <= k < |r| ensures Before(key(x), key(r[k])) <==> Before(finer(x), finer(r[k])) {
        assert r[k] in init;
        var i :| 0 <= i < |init| && init[i] == r[k];
        assert s[i] == r[k];
      }
      InsertAlike(x, r, key, finer);
    }
  }

  // ---- collecting what a partial function finds ----

  function Collect<T, U>(s: seq<T>, f: T -> Option<U>): seq<U> {
    if s == [] then []
    else
      Collect(s[..|s| - 1], f) + Found(f(s[|s| - 1]))
  }

  lemma CollectNext<T, U>(s: seq<T>, n: nat, f: T -> Option<U>)
    requires n < |s|
    ensures Collect(s[..n + 1], f) == Collect(s[..n], f) + Found(f(s[n]))
  {
    assert s[..n + 1][..n] == s[..n];
  }

  lemma {:induction false} CollectAppend<T, U>(a: seq<T>, b: seq<T>, f: T -> Option<U>)
    ensures Collect(a + b, f) == Collect(a, f) + Collect(b, f)
  {
    if b == [] {
      assert a + b == a;
    } else {
      assert (a + b)[..|a + b| - 1] == a + b[..|b| - 1];
      CollectAppend(a, b[..|b| - 1], f);
    }
  }

  lemma {:induction false} CollectMembers<T, U>(s: seq<T>, f: T -> Option<U>, y: U)
    ensures y in Collect(s, f) <==> exists i :: 0 <= i < |s| && f(s[i]) == Some(y)
  {
    if s != [] {
      CollectMembers(s[..|s| - 1], f, y);
      assert forall i :: 0 <= i < |s| - 1 ==> s[..|s| - 1][i] == s[i];
    }
  }

  function Found<U>(found: Option<U>): seq<U> {
    if found.Some? then [found.value] else []
  }

  lemma CollectMiddle<T, U>(l: seq<T>, x: T, r: seq<T>, f: T -> Option<U>)
    ensures Collect(l + [x] + r, f) == Collect(l, f) + Found(f(x)) + Collect(r, f)
    ensures Collect(l + r, f) == Collect(l, f) + Collect(r, f)
  {
    CollectAppend(l + [x], r, f);
    CollectAppend(l, [x], f);
    CollectAppend(l, r, f);
    assert [x][..0] == [];
  }

  lemma CollectWithout<T, U>(s: seq<T>, k: nat, f: T -> Option<U>)
    requires k < |s|
    ensures multiset(Collect(s, f)) == multiset(Collect(Without(s, k), f)) + multiset(Found(f(s[k])))
  {
    hide Collect, Found;
    CollectMiddle(s[..k], s[k], s[k + 1..], f);
    assert s == s[..k] + [s[k]] + s[k + 1..];
  }

  lemma {:induction false} CollectOfBag<T, U>(a: seq<T>, b: seq<T>, f: T -> Option<U>)
    requires multiset(a) == multiset(b)
    ensures multiset(Collect(a, f)) == multiset(Collect(b, f))
    decreases |a|
  {
    hide Collect, Found;
    if a == [] {
      assert |b| == |multiset(b)| == 0;
    } else {
      assert a[0] in multiset(a) && a[0] in b;
      var k :| 0 <= k < |b| && b[k] == a[0];
      WithoutBag(a, 0);
      WithoutBag(b, k);
      CollectOfBag(Without(a, 0), Without(b, k), f);
      CollectWithout(a, 0, f);
      CollectWithout(b, k, f);
    }
  }

  lemma {:induction false} CollectAlike<T, U>(s: seq<T>, f: T -> Option<U>, g: T -> Option<U>)
    requires forall i :: 0 <= i < |s| ==> f(s[i]) == g(s[i])
    ensures Collect(s, f) == Collect(s, g)
  {
    if s != [] {
      CollectAlike(s[..|s| - 1], f, g);
    }
  }

  lemma {:induction false} CollectNone<T, U>(s: seq<T>, f: T -> Option<U>)
    ensures Collect(s, f) == [] <==> forall i :: 0 <= i < |s| ==> f(s[i]).None?
  {
    if s != [] {
      CollectNone(s[..|s| - 1], f);
      assert forall i :: 0 <= i < |s| - 1 ==> s[..|s| - 1][i] == s[i];
    }
  }

  // First one partial function, then another on what it finds.
  function Through<T, U, V>(f: T -> Option<U>, g: U -> Option<V>): T -> Option<V> {
    (x: T) => if f(x).Some? then g(f(x).value) else None
  }

  lemma {:induction false} CollectThrough<T, U, V>(s: seq<T>, f: T -> Option<U>, g: U -> Option<V>)
    ensures Collect(Collect(s, f), g) == Collect(s, Through(f, g))
  {
    if s != [] {
      var init, x := s[..|s| - 1], s[|s| - 1];
      CollectThrough(init, f, g);
      CollectAppend(Collect(init, f), Found(f(x)), g);
      if f(x).Some? {
        assert [f(x).value][..0] == [];
      }
    }
  }
}
