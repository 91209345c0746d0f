/** Python's slice `s[i:j]` on lists, including negative and out-of-range
    bounds, and the offset pagination the list endpoints build from it. */
module PySlice {

  function Min(a: int, b: int): int {
    if a < b then a else b
  }

  /** How Python normalises one slice bound against a length `n`: a negative
      bound counts from the end, and the result is clamped to [0, n]. */
  function Bound(i: int, n: nat): (b: nat)
    ensures b <= n
    ensures 0 <= i <= n ==> b == i
    ensures i > n ==> b == n
    ensures i < 0 && i + n >= 0 ==> b == n + i
    ensures i + n < 0 ==> b == 0
  {
    if i < 0 then (if i + n < 0 then 0 else i + n)
    else if i > n then n
    else i
  }

  /** `s[i:j]`. */
  function Slice<T>(s: seq<T>, i: int, j: int): (r: seq<T>)
    ensures |r| <= |s|
    ensures Bound(i, |s|) < Bound(j, |s|) ==> r == s[Bound(i, |s|)..Bound(j, |s|)]
    ensures Bound(i, |s|) >= Bound(j, |s|) ==> r == []
  {
    var lo, hi := Bound(i, |s|), Bound(j, |s|);
    if lo < hi then s[lo..hi] else []
  }

  /** `s[:n]`, the first `n` elements (all of them when there are fewer). */
  function Take<T>(s: seq<T>, n: nat): (r: seq<T>)
    ensures r == s[..Min(n, |s|)]
  {
    Slice(s, 0, n)
  }

  /** `s[(page - 1) * limit : (page - 1) * limit + limit]`: never more
      than `limit` items, nor more than the list holds. */
  function Page<T>(s: seq<T>, page: int, limit: int): (r: seq<T>)
    ensures |r| <= |s|
    ensures limit >= 0 ==> |r| <= limit
  {
    var start := (page - 1) * limit;
    Slice(s, start, start + limit)
  }

  /** Page 0 is always empty (its window is [-limit, 0)). */
  lemma PageZeroIsEmpty<T>(s: seq<T>, limit: nat)
    ensures Page(s, 0, limit) == []
  {
    assert (0 - 1) * limit == 0 - limit as int;
  }

  /** For page >= 1 the page is the window [(page-1)*limit, page*limit) of
      `s`, cut off at its end. */
  lemma PageWindow<T>(s: seq<T>, page: int, limit: nat)
    requires page >= 1
    ensures (page - 1) * limit >= 0
    ensures Page(s, page, limit) ==
      s[Min((page - 1) * limit, |s|)..Min(page * limit, |s|)]
  {
    var start := (page - 1) * limit;
    assert start >= 0 by { MulNonNegative(page - 1, limit); }
    assert start + limit == page * limit;
    MulNonNegative(page, limit);
  }

  /** A page offset `(page - 1) * limit` of naturals is never negative. */
  lemma MulNonNegative(a: nat, b: nat)
    ensures a * b >= 0
  {
  }

  /** Pages 1..k, concatenated. */
  function Pages<T>(s: seq<T>, limit: nat, k: nat): seq<T> {
    if k == 0 then [] else Pages(s, limit, k - 1) + Page(s, k, limit)
  }

  /** Consecutive pages tile the list: pages 1..k together are exactly its
      first k*limit items, so no item is on two pages and none is skipped. */
  lemma {:induction false} PagesArePrefix<T>(s: seq<T>, limit: nat, k: nat)
    ensures k * limit >= 0
    ensures Pages(s, limit, k) == s[..Min(k * limit, |s|)]
  {
    MulNonNegative(k, limit);
    if k > 0 {
      PagesArePrefix(s, limit, k - 1);
      PageWindow(s, k, limit);
      var a, b := Min((k - 1) * limit, |s|), Min(k * limit, |s|);
      assert (k - 1) * limit <= k * limit;
      assert s[..a] + s[a..b] == s[..b];
    }
  }

  /** A negative limit is not rejected: page 1 with limit -1 is the window
      [0, -1), everything but the last item. */
  lemma NegativeLimitDropsLast<T>(s: seq<T>)
    requires |s| >= 1
    ensures Page(s, 1, -1) == s[..|s| - 1]
  {
  }
}
