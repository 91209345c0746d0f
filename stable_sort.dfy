/** Python's `sorted(xs, key=f)` / `xs.sort(key=f)` (and `reverse=True`),
    which are stable: items with equal keys keep their relative order. Keys are
    compared with a total order `le`; for `reverse=True` it is the reversed
    order, which Python also applies stably. */
module StableSort {

  /** `le` is a total order on keys: total, antisymmetric and transitive. */
  ghost predicate TotalOrder<K(!new)>(le: (K, K) -> bool) {
    && (forall a, b :: le(a, b) || le(b, a))
    && (forall a, b :: le(a, b) && le(b, a) ==> a == b)
    && (forall a, b, c :: le(a, b) && le(b, c) ==> le(a, c))
  }

  predicate SortedBy<T, K>(s: seq<T>, key: T -> K, le: (K, K) -> bool) {
    forall i, j :: 0 <= i < j < |s| ==> le(key(s[i]), key(s[j]))
  }

  /** The items of `s` whose key is `k`, in their order in `s`. */
  function WithKey<T, K(==)>(s: seq<T>, key: T -> K, k: K): (r: seq<T>)
    ensures |r| <= |s|
  {
    if s == [] then []
    else (if key(s[0]) == k then [s[0]] else []) + WithKey(s[1..], key, k)
  }

  /** Places `x` before the first item whose key is not below it. */
  function Insert<T, K>(x: T, t: seq<T>, key: T -> K, le: (K, K) -> bool): seq<T> {
    if t == [] then [x]
    else if le(key(x), key(t[0])) then [x] + t
    else [t[0]] + Insert(x, t[1..], key, le)
  }

  function Sort<T, K>(s: seq<T>, key: T -> K, le: (K, K) -> bool): seq<T> {
    if s == [] then [] else Insert(s[0], Sort(s[1..], key, le), key, le)
  }

  lemma {:induction false} InsertPermutes<T, K>(x: T, t: seq<T>, key: T -> K, le: (K, K) -> bool)
    ensures multiset(Insert(x, t, key, le)) == multiset([x]) + multiset(t)
  {
    if t != [] && !le(key(x), key(t[0])) {
      InsertPermutes(x, t[1..], key, le);
      assert t == [t[0]] + t[1..];
    }
  }

  lemma {:induction false} InsertSorted<T, K(!new)>(x: T, t: seq<T>, key: T -> K, le: (K, K) -> bool)
    requires TotalOrder(le) && SortedBy(t, key, le)
    ensures SortedBy(Insert(x, t, key, le), key, le)
  {
    if t != [] && !le(key(x), key(t[0])) {
      InsertSorted(x, t[1..], key, le);
      InsertPermutes(x, t[1..], key, le);
      var r := Insert(x, t[1..], key, le);
      forall y | y in r ensures le(key(t[0]), key(y)) {
        assert y in multiset(r);
        if y != x {
          assert y in t[1..];
        }
      }
    }
  }

  /** The result holds the same items and is ordered by key. */
  lemma {:induction false} SortPermutesAndOrders<T, K(!new)>(s: seq<T>, key: T -> K, le: (K, K) -> bool)
    requires TotalOrder(le)
    ensures multiset(Sort(s, key, le)) == multiset(s)
    ensures SortedBy(Sort(s, key, le), key, le)
  {
    if s != [] {
      SortPermutesAndOrders(s[1..], key, le);
      InsertPermutes(s[0], Sort(s[1..], key, le), key, le);
      InsertSorted(s[0], Sort(s[1..], key, le), key, le);
      assert s == [s[0]] + s[1..];
    }
  }

  lemma {:induction false} WithKeyInsert<T, K(!new)>(x: T, t: seq<T>, key: T -> K, le: (K, K) -> bool, k: K)
    requires TotalOrder(le)
    ensures WithKey(Insert(x, t, key, le), key, k) ==
      (if key(x) == k then [x] else []) + WithKey(t, key, k)
  {
    if t != [] && !le(key(x), key(t[0])) {
      WithKeyInsert(x, t[1..], key, le, k);
      // t[0] sorts strictly after x's key, so it cannot share it
      assert le(key(x), key(x));
      assert key(t[0]) != key(x);
      var r := Insert(x, t, key, le);
      assert r == [t[0]] + Insert(x, t[1..], key, le);
      assert r[0] == t[0] && r[1..] == Insert(x, t[1..], key, le);
      assert WithKey(r, key, k) ==
        (if key(t[0]) == k then [t[0]] else []) + WithKey(Insert(x, t[1..], key, le), key, k);
    }
  }

  /** Stability: for every key, the items carrying it appear in the result in
      the order they had in the input. */
  lemma {:induction false} SortIsStable<T, K(!new)>(s: seq<T>, key: T -> K, le: (K, K) -> bool, k: K)
    requires TotalOrder(le)
    ensures WithKey(Sort(s, key, le), key, k) == WithKey(s, key, k)
  {
    if s != [] {
      SortIsStable(s[1..], key, le, k);
      WithKeyInsert(s[0], Sort(s[1..], key, le), key, le, k);
    }
  }
}
