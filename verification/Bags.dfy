// Option values, and sums over the entries of a finite map, used to count the owners of an object.
module Bags {

  datatype Option<+T> = None | Some(value: T)

  ghost function Total<K(!new)>(m: map<K, nat>): nat
  {
    if |m| == 0 then 0 else m[Pick(m)] + Total(m - {Pick(m)})
  }

  ghost function Pick<K(!new)>(m: map<K, nat>): (k: K)
    requires |m| > 0
    ensures k in m
  {
    var k :| k in m.Keys;
    k
  }

  // The sum of f over all entries of m.
  ghost function Sum<K(!new), V(!new)>(m: map<K, V>, f: (K, V) -> nat): nat {
    Total(Image(m, f))
  }

  ghost function Image<K(!new), V(!new)>(m: map<K, V>, f: (K, V) -> nat): map<K, nat> {
    map k | k in m :: f(k, m[k])
  }

  lemma {:induction false} TotalRemove<K(!new)>(m: map<K, nat>, k: K)
    requires k in m.Keys
    ensures Total(m) == m[k] + Total(m - {k})
    decreases |m|
  {
    var j := Pick(m);
    if j != k {
      TotalRemove(m - {j}, k);
      TotalRemove(m - {k}, j);
      assert m - {j} - {k} == m - {k} - {j};
    }
  }

  lemma {:induction false} TotalSource<K(!new)>(m: map<K, nat>) returns (k: K)
    requires Total(m) > 0
    ensures k in m && m[k] > 0
    decreases |m|
  {
    var j := Pick(m);
    if m[j] > 0 {
      k := j;
    } else {
      k := TotalSource(m - {j});
    }
  }

  lemma SumRemove<K(!new), V(!new)>(m: map<K, V>, f: (K, V) -> nat, k: K)
    requires k in m.Keys
    ensures Sum(m, f) == f(k, m[k]) + Sum(m - {k}, f)
  {
    TotalRemove(Image(m, f), k);
    assert Image(m - {k}, f) == Image(m, f) - {k};
  }

  // Writing v at key k takes the old entry out of the sum and puts v in.
  lemma SumPut<K(!new), V(!new)>(m: map<K, V>, f: (K, V) -> nat, k: K, v: V)
    ensures Sum(m[k := v], f) + (if k in m then f(k, m[k]) else 0) == Sum(m, f) + f(k, v)
  {
    SumRemove(m[k := v], f, k);
    assert m[k := v] - {k} == m - {k};
    if k in m {
      SumRemove(m, f, k);
    } else {
      assert m - {k} == m;
    }
  }

  // A positive sum has a positive entry.
  lemma SumSource<K(!new), V(!new)>(m: map<K, V>, f: (K, V) -> nat) returns (k: K)
    requires Sum(m, f) > 0
    ensures k in m && f(k, m[k]) > 0
  {
    k := TotalSource(Image(m, f));
  }

  lemma {:induction false} TotalLe<K(!new)>(m: map<K, nat>, m': map<K, nat>)
    requires m.Keys == m'.Keys && forall k <- m :: m[k] <= m'[k]
    ensures Total(m) <= Total(m')
    decreases |m|
  {
    if |m| > 0 {
      var k := Pick(m);
      TotalRemove(m', k);
      TotalLe(m - {k}, m' - {k});
    } else {
      assert |m'| == |m'.Keys| == 0;
    }
  }

  lemma SumEmpty<K(!new), V(!new)>(f: (K, V) -> nat)
    ensures Sum(map[], f) == 0
  {
    assert |Image(map[], f)| == |Image(map[], f).Keys| == 0;
  }

  lemma SumSame<K(!new), V(!new)>(m: map<K, V>, m': map<K, V>, f: (K, V) -> nat)
    requires m.Keys == m'.Keys && forall k <- m :: f(k, m[k]) == f(k, m'[k])
    ensures Sum(m, f) == Sum(m', f)
  {
    assert Image(m, f) == Image(m', f);
  }

  // Entry by entry smaller means smaller in sum.
  lemma SumLe<K(!new), V(!new)>(m: map<K, V>, f: (K, V) -> nat, g: (K, V) -> nat)
    requires forall k <- m :: f(k, m[k]) <= g(k, m[k])
    ensures Sum(m, f) <= Sum(m, g)
  {
    TotalLe(Image(m, f), Image(m, g));
  }

  // Two different entries both count.
  lemma SumTwo<K(!new), V(!new)>(m: map<K, V>, f: (K, V) -> nat, j: K, k: K)
    requires j in m && k in m && j != k
    ensures Sum(m, f) >= f(j, m[j]) + f(k, m[k])
  {
    SumRemove(m, f, j);
    SumRemove(m - {j}, f, k);
  }
}
