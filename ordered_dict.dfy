/** A Python dict as the backend builds it with `d[k] = d.get(k, 0) + n`:
    insertion-ordered entries with distinct keys. Iterating `.items()` or
    `.values()` walks the entries in this order. Counts are reals, since
    the backend adds ints and floats into the same entries. */
module OrderedDict {

  predicate DistinctKeys<K(==), V>(d: seq<(K, V)>) {
    forall i, j :: 0 <= i < j < |d| ==> d[i].0 != d[j].0
  }

  function Keys<K, V>(d: seq<(K, V)>): (ks: seq<K>)
    ensures |ks| == |d| && forall i :: 0 <= i < |d| ==> ks[i] == d[i].0
  {
    seq(|d|, i requires 0 <= i < |d| => d[i].0)
  }

  function Values<K, V>(d: seq<(K, V)>): (vs: seq<V>)
    ensures |vs| == |d| && forall i :: 0 <= i < |d| ==> vs[i] == d[i].1
  {
    seq(|d|, i requires 0 <= i < |d| => d[i].1)
  }

  /** The position of `k`, or -1. */
  function Find<K(==), V>(d: seq<(K, V)>, k: K): (i: int)
    ensures -1 <= i < |d|
    ensures i >= 0 ==> d[i].0 == k && forall j :: 0 <= j < i ==> d[j].0 != k
    ensures i == -1 ==> forall j :: 0 <= j < |d| ==> d[j].0 != k
  {
    if |d| == 0 then -1
    else if d[|d| - 1].0 == k && Find(d[..|d| - 1], k) == -1 then |d| - 1
    else Find(d[..|d| - 1], k)
  }

  /** `d.get(k, default)`. */
  function Get<K(==), V>(d: seq<(K, V)>, k: K, default: V): V {
    var i := Find(d, k);
    if i >= 0 then d[i].1 else default
  }

  /** `d[k] = v`: an existing key keeps its position, a new one goes last. */
  function Put<K(==), V>(d: seq<(K, V)>, k: K, v: V): (r: seq<(K, V)>)
    requires DistinctKeys(d)
    ensures DistinctKeys(r)
    ensures Find(d, k) >= 0 ==> Keys(r) == Keys(d)
    ensures Find(d, k) < 0 ==> Keys(r) == Keys(d) + [k]
    ensures Find(r, k) >= 0 && r[Find(r, k)].1 == v
    ensures forall j :: 0 <= j < |d| && d[j].0 != k ==> r[j] == d[j]
  {
    var i := Find(d, k);
    if i >= 0 then d[i := (k, v)] else d + [(k, v)]
  }

  /** `d[k] = d.get(k, 0) + n`. */
  function Bump<K(==)>(d: seq<(K, real)>, k: K, n: real): (r: seq<(K, real)>)
    requires DistinctKeys(d)
    ensures DistinctKeys(r)
    ensures Get(r, k, 0.0) == Get(d, k, 0.0) + n
    ensures Keys(r) == Keys(d) || Keys(r) == Keys(d) + [k]
  {
    Put(d, k, Get(d, k, 0.0) + n)
  }

  /** `d.get(k, default)` in a dict with distinct keys: the value stored
      with `k`, wherever it sits, or the default when no entry has `k`. */
  lemma GetStored<K, V>(d: seq<(K, V)>, k: K, default: V)
    requires DistinctKeys(d)
    ensures forall i :: 0 <= i < |d| && d[i].0 == k ==> Get(d, k, default) == d[i].1
    ensures (forall i :: 0 <= i < |d| ==> d[i].0 != k) ==> Get(d, k, default) == default
  {
    var f := Find(d, k);
    forall i | 0 <= i < |d| && d[i].0 == k
      ensures Get(d, k, default) == d[i].1
    {
      assert f >= 0 && d[f].0 == d[i].0;
    }
  }

  /** `sum(d.values())`. */
  function Total<K>(d: seq<(K, real)>): real {
    if |d| == 0 then 0.0 else Total(d[..|d| - 1]) + d[|d| - 1].1
  }

  /** A sum of counts is never negative and never below any one count. */
  lemma {:induction false} TotalBoundsEach<K>(d: seq<(K, real)>)
    requires forall i :: 0 <= i < |d| ==> d[i].1 >= 0.0
    ensures Total(d) >= 0.0
    ensures forall i :: 0 <= i < |d| ==> d[i].1 <= Total(d)
  {
    if |d| > 0 {
      var init := d[..|d| - 1];
      assert forall i :: 0 <= i < |init| ==> init[i] == d[i];
      TotalBoundsEach(init);
    }
  }

  /** Replacing one entry changes the sum by the difference of the values. */
  lemma {:induction false} TotalUpdate<K>(d: seq<(K, real)>, i: nat, e: (K, real))
    requires i < |d|
    ensures Total(d[i := e]) == Total(d) - d[i].1 + e.1
  {
    var last := |d| - 1;
    if i == last {
      assert d[i := e][..last] == d[..last];
    } else {
      assert d[i := e][..last] == d[..last][i := e];
      TotalUpdate(d[..last], i, e);
    }
  }

  /** Bumping a key by n raises the sum of all values by exactly n. */
  lemma TotalAfterBump<K>(d: seq<(K, real)>, k: K, n: real)
    requires DistinctKeys(d)
    ensures Total(Bump(d, k, n)) == Total(d) + n
  {
    TotalAfterPut(d, k, Get(d, k, 0.0) + n);
  }

  /** Setting a key changes the sum by the difference between the new
      value and the old one (0 for a new key). */
  lemma TotalAfterPut<K>(d: seq<(K, real)>, k: K, v: real)
    requires DistinctKeys(d)
    ensures Total(Put(d, k, v)) == Total(d) - Get(d, k, 0.0) + v
  {
    var i := Find(d, k);
    if i >= 0 {
      PutPresent(d, k, v);
      TotalUpdate(d, i, (k, v));
    } else {
      PutAbsent(d, k, v);
      assert (d + [(k, v)])[..|d|] == d;
    }
  }

  /** Setting a present key rewrites its entry in place. */
  lemma PutPresent<K, V>(d: seq<(K, V)>, k: K, v: V)
    requires DistinctKeys(d) && Find(d, k) >= 0
    ensures Put(d, k, v) == d[Find(d, k) := (k, v)]
  {
  }

  /** Setting an absent key appends its entry. */
  lemma PutAbsent<K, V>(d: seq<(K, V)>, k: K, v: V)
    requires DistinctKeys(d) && Find(d, k) < 0
    ensures Put(d, k, v) == d + [(k, v)]
  {
  }

  /** With distinct keys, the one entry holding `k` is the one found. */
  lemma FindUnique<K, V>(d: seq<(K, V)>, k: K, j: nat)
    requires DistinctKeys(d) && j < |d| && d[j].0 == k
    ensures Find(d, k) == j
  {
  }

  /** Setting one key leaves every other key's value alone. */
  lemma PutOther<K, V>(d: seq<(K, V)>, x: K, v: V, k: K, default: V)
    requires DistinctKeys(d) && k != x
    ensures Get(Put(d, x, v), k, default) == Get(d, k, default)
  {
    var r := Put(d, x, v);
    var j := Find(d, k);
    if j >= 0 {
      assert r[j] == d[j];
      FindUnique(r, k, j);
    } else {
      assert Keys(r) == Keys(d) || Keys(r) == Keys(d) + [x];
      forall i | 0 <= i < |r|
        ensures r[i].0 != k
      {
        assert r[i].0 == Keys(r)[i];
      }
    }
  }

  /** Reading back the key just set gives its new value. */
  lemma PutSame<K, V>(d: seq<(K, V)>, k: K, v: V, default: V)
    requires DistinctKeys(d)
    ensures Get(Put(d, k, v), k, default) == v
  {
  }

  /** Bumping one key leaves every other key's value alone. */
  lemma BumpOther<K>(d: seq<(K, real)>, x: K, n: real, k: K)
    requires DistinctKeys(d) && k != x
    ensures Get(Bump(d, x, n), k, 0.0) == Get(d, k, 0.0)
  {
    PutOther(d, x, Get(d, x, 0.0) + n, k, 0.0);
  }

  lemma PutKeepsOthers<K, V>(d: seq<(K, V)>, x: K, v: V, default: V)
    requires DistinctKeys(d)
    ensures forall k :: k != x ==> Get(Put(d, x, v), k, default) == Get(d, k, default)
  {
    forall k | k != x
      ensures Get(Put(d, x, v), k, default) == Get(d, k, default)
    {
      PutOther(d, x, v, k, default);
    }
  }

  lemma BumpKeepsOthers<K>(d: seq<(K, real)>, x: K, n: real)
    requires DistinctKeys(d)
    ensures forall k :: k != x ==> Get(Bump(d, x, n), k, 0.0) == Get(d, k, 0.0)
  {
    forall k | k != x
      ensures Get(Bump(d, x, n), k, 0.0) == Get(d, k, 0.0)
    {
      BumpOther(d, x, n, k);
    }
  }
}
