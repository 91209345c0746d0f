/** Python's `<=` on `str`: lexicographic order on code points, with a
    proper prefix before the longer string. */
module StringOrder {
  import StableSort

  predicate Le(a: string, b: string) {
    if a == [] then true
    else if b == [] then false
    else if a[0] != b[0] then a[0] < b[0]
    else Le(a[1..], b[1..])
  }

  lemma LeTotal(a: string, b: string)
    ensures Le(a, b) || Le(b, a)
  {
  }

  lemma {:induction false} LeAntisymmetric(a: string, b: string)
    requires Le(a, b) && Le(b, a)
    ensures a == b
  {
    if a != [] && b != [] {
      LeAntisymmetric(a[1..], b[1..]);
      assert a == [a[0]] + a[1..] && b == [b[0]] + b[1..];
    }
  }

  lemma {:induction false} LeTransitive(a: string, b: string, c: string)
    requires Le(a, b) && Le(b, c)
    ensures Le(a, c)
  {
    if a != [] && b != [] && c != [] && a[0] == b[0] == c[0] {
      LeTransitive(a[1..], b[1..], c[1..]);
    }
  }

  lemma LeIsTotalOrder()
    ensures StableSort.TotalOrder(Le)
  {
    forall a: string, b: string ensures Le(a, b) || Le(b, a) {
      LeTotal(a, b);
    }
    forall a: string, b: string | Le(a, b) && Le(b, a) ensures a == b {
      LeAntisymmetric(a, b);
    }
    forall a: string, b: string, c: string | Le(a, b) && Le(b, c) ensures Le(a, c) {
      LeTransitive(a, b, c);
    }
  }
}
