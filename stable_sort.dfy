/** Python's `sorted(xs, key=key)`: a stable sort that compares only keys.
    `sorted(..., reverse=True)` keeps equal keys in their input order too, so
    it is the same sort under the reversed comparison. */
module StableSort {

  /** `lt` is a strict total order on keys: irreflexive, transitive, and any
      two distinct keys are comparable. */
  ghost predicate StrictTotalOrder<K(!new)>(lt: (K, K) -> bool) {
    && (forall a :: !lt(a, a))
    && (forall a, b, c :: lt(a, b) && lt(b, c) ==> lt(a, c))
    && (forall a, b :: a != b ==> lt(a, b) || lt(b, a))
  }

  /** No element's key is below the key of an element before it. */
  ghost predicate SortedBy<T, K>(s: seq<T>, key: T -> K, lt: (K, K) -> bool) {
    forall i, j | 0 <= i < j < |s| :: !lt(key(s[j]), key(s[i]))
  }

  /** The elements of `s` whose key is `k`, in their order in `s`. */
  function WithKey<T, K(==)>(s: seq<T>, key: T -> K, k: K): seq<T> {
    if s == [] then [] else (if key(s[0]) == k then [s[0]] else []) + WithKey(s[1..], key, k)
  }

  /** Places `x` after every element whose key is not above its own. */
  function Insert<T, K>(x: T, s: seq<T>, key: T -> K, lt: (K, K) -> bool): (r: seq<T>)
    ensures multiset(r) == multiset(s) + multiset{x}
  {
    if s == [] then [x]
    else if lt(key(x), key(s[0])) then [x] + s
    else
      assert s == [s[0]] + s[1..];
      [s[0]] + Insert(x, s[1..], key, lt)
  }

  /** `sorted(xs, key=key)` under the key ordering `lt`. */
  function Sort<T, K>(xs: seq<T>, key: T -> K, lt: (K, K) -> bool): (r: seq<T>)
    ensures multiset(r) == multiset(xs)
    ensures |r| == |xs|
  {
    if xs == [] then []
    else
      assert xs == xs[..|xs| - 1] + [xs[|xs| - 1]];
      var r := Insert(xs[|xs| - 1], Sort(xs[..|xs| - 1], key, lt), key, lt);
      assert |r| == |multiset(r)|;
      r
  }

  lemma {:induction false} InsertSorted<T, K(!new)>(x: T, s: seq<T>, key: T -> K, lt: (K, K) -> bool)
    requires StrictTotalOrder(lt)
    requires SortedBy(s, key, lt)
    ensures SortedBy(Insert(x, s, key, lt), key, lt)
  {
    if s != [] && !lt(key(x), key(s[0])) {
      InsertSorted(x, s[1..], key, lt);
      var rest := Insert(x, s[1..], key, lt);
      forall i | 0 <= i < |rest|
        ensures !lt(key(rest[i]), key(s[0]))
      {
        assert rest[i] in multiset(rest);
      }
    }
  }

  /** The result is ordered by key. */
  lemma {:induction false} SortSorted<T, K(!new)>(xs: seq<T>, key: T -> K, lt: (K, K) -> bool)
    requires StrictTotalOrder(lt)
    ensures SortedBy(Sort(xs, key, lt), key, lt)
  {
    if xs != [] {
      SortSorted(xs[..|xs| - 1], key, lt);
      InsertSorted(xs[|xs| - 1], Sort(xs[..|xs| - 1], key, lt), key, lt);
    }
  }

  lemma {:induction false} WithKeyAppend<T, K>(a: seq<T>, b: seq<T>, key: T -> K, k: K)
    ensures WithKey(a + b, key, k) == WithKey(a, key, k) + WithKey(b, key, k)
  {
    if a == [] {
      assert a + b == b;
    } else {
      var head := if key(a[0]) == k then [a[0]] else [];
      assert (a + b)[0] == a[0];
      assert (a + b)[1..] == a[1..] + b;
      WithKeyAppend(a[1..], b, key, k);
      assert WithKey(a + b, key, k) == head + WithKey(a[1..] + b, key, k);
      assert WithKey(a, key, k) == head + WithKey(a[1..], key, k);
    }
  }

  /** In a sorted sequence that starts above `key(x)`, nothing has the key
      of `x`. */
  lemma {:induction false} NoneWithKeyAbove<T, K(!new)>(x: T, s: seq<T>, key: T -> K, lt: (K, K) -> bool)
    requires StrictTotalOrder(lt)
    requires SortedBy(s, key, lt)
    requires s != [] && lt(key(x), key(s[0]))
    ensures WithKey(s, key, key(x)) == []
  {
    if |s| > 1 {
      assert !lt(key(s[1]), key(s[0]));
      NoneWithKeyAbove(x, s[1..], key, lt);
    }
  }

  lemma WithKeyCons<T, K>(y: T, rest: seq<T>, key: T -> K, k: K)
    ensures WithKey([y] + rest, key, k) == (if key(y) == k then [y] else []) + WithKey(rest, key, k)
  {
    assert ([y] + rest)[1..] == rest;
  }

  /** Inserting `x` puts it after every element that shares its key. */
  lemma {:induction false} InsertWithKey<T, K(!new)>(x: T, s: seq<T>, key: T -> K, lt: (K, K) -> bool, k: K)
    requires StrictTotalOrder(lt)
    requires SortedBy(s, key, lt)
    ensures WithKey(Insert(x, s, key, lt), key, k) == WithKey(s, key, k) + (if key(x) == k then [x] else [])
  {
    if s == [] {
      WithKeyCons(x, [], key, k);
    } else if lt(key(x), key(s[0])) {
      WithKeyCons(x, s, key, k);
      if key(x) == k {
        NoneWithKeyAbove(x, s, key, lt);
      }
    } else {
      InsertWithKey(x, s[1..], key, lt, k);
      InsertPastHead(x, s, key, lt, k);
    }
  }

  /** The step of `InsertWithKey` where `x` goes past the head of `s`. */
  lemma InsertPastHead<T, K>(x: T, s: seq<T>, key: T -> K, lt: (K, K) -> bool, k: K)
    requires s != [] && !lt(key(x), key(s[0]))
    requires WithKey(Insert(x, s[1..], key, lt), key, k) == WithKey(s[1..], key, k) + (if key(x) == k then [x] else [])
    ensures WithKey(Insert(x, s, key, lt), key, k) == WithKey(s, key, k) + (if key(x) == k then [x] else [])
  {
    var rest := Insert(x, s[1..], key, lt);
    var head := if key(s[0]) == k then [s[0]] else [];
    var tail := if key(x) == k then [x] else [];
    assert Insert(x, s, key, lt) == [s[0]] + rest;
    WithKeyCons(s[0], rest, key, k);
    WithKeyCons(s[0], s[1..], key, k);
    assert [s[0]] + s[1..] == s;
    AppendAssociates(head, WithKey(s[1..], key, k), tail);
  }

  lemma AppendAssociates<T>(a: seq<T>, b: seq<T>, c: seq<T>)
    ensures a + (b + c) == (a + b) + c
  {
  }

  /** Stability: among elements with equal keys the input order is kept. */
  lemma {:induction false} SortStable<T, K(!new)>(xs: seq<T>, key: T -> K, lt: (K, K) -> bool, k: K)
    requires StrictTotalOrder(lt)
    ensures WithKey(Sort(xs, key, lt), key, k) == WithKey(xs, key, k)
  {
    if xs != [] {
      var init, last := xs[..|xs| - 1], xs[|xs| - 1];
      var sorted := Sort(init, key, lt);
      var tail := if key(last) == k then [last] else [];
      assert xs == init + [last];
      calc {
        WithKey(Sort(xs, key, lt), key, k);
        WithKey(Insert(last, sorted, key, lt), key, k);
        { SortSorted(init, key, lt); InsertWithKey(last, sorted, key, lt, k); }
        WithKey(sorted, key, k) + tail;
        { SortStable(init, key, lt, k); }
        WithKey(init, key, k) + tail;
        { assert [last][1..] == []; }
        WithKey(init, key, k) + WithKey([last], key, k);
        { WithKeyAppend(init, [last], key, k); }
        WithKey(xs, key, k);
      }
    }
  }
}
