/** Finite sums over sequences, maps and multisets, and the laws the ledgers need. */
module Sums {

  /** Running total of a list, accumulated from the left. */
  function Sum(s: seq<nat>): nat {
    if s == [] then 0 else Sum(s[..|s| - 1]) + s[|s| - 1]
  }

  lemma {:induction false} SumAppend(a: seq<nat>, b: seq<nat>)
    ensures Sum(a + b) == Sum(a) + Sum(b)
    decreases |b|
  {
    if b == [] {
      assert a + b == a;
    } else {
      var n := |b| - 1;
      assert (a + b)[..|a + b| - 1] == a + b[..n];
      SumAppend(a, b[..n]);
    }
  }

  lemma SumSingleton(x: nat)
    ensures Sum([x]) == x
  {
    assert [x][..0] == [];
  }

  lemma {:induction false} SumPrefixMonotone(s: seq<nat>, i: nat, j: nat)
    requires i <= j <= |s|
    ensures Sum(s[..i]) <= Sum(s[..j])
  {
    assert s[..j] == s[..i] + s[i..j];
    SumAppend(s[..i], s[i..j]);
  }

  /** A list whose entries all equal x sums to length times x. */
  lemma {:induction false} SumConstant(s: seq<nat>, x: nat)
    requires forall i :: 0 <= i < |s| ==> s[i] == x
    ensures Sum(s) == |s| * x
  {
    if s != [] {
      SumConstant(s[..|s| - 1], x);
    }
  }

  /** Total of the values of a finite map. */
  ghost function MapSum<K(!new)>(m: map<K, nat>): nat {
    if m == map[] then 0
    else
      var k :| k in m;
      m[k] + MapSum(m - {k})
  }

  lemma {:induction false} MapSumRemove<K(!new)>(m: map<K, nat>, k: K)
    requires k in m
    ensures MapSum(m) == m[k] + MapSum(m - {k})
    decreases |m|
  {
    var j :| j in m && MapSum(m) == m[j] + MapSum(m - {j});
    if j != k {
      MapSumRemove(m - {j}, k);
      MapSumRemove(m - {k}, j);
      assert (m - {j}) - {k} == (m - {k}) - {j};
    }
  }

  /** Writing one entry changes the total by exactly the change of that entry. */
  lemma MapSumUpdate<K(!new)>(m: map<K, nat>, k: K, v: nat)
    ensures MapSum(m[k := v]) + (if k in m then m[k] else 0) == MapSum(m) + v
  {
    MapSumRemove(m[k := v], k);
    if k in m {
      MapSumRemove(m, k);
      assert m[k := v] - {k} == m - {k};
    } else {
      assert m[k := v] - {k} == m;
    }
  }

  lemma MapSumEntry<K(!new)>(m: map<K, nat>, k: K)
    requires k in m
    ensures m[k] <= MapSum(m)
  {
    MapSumRemove(m, k);
  }

  /** Sums compare pointwise, also when the nonzero entries of one map inject into those of the other. */
  lemma {:induction false} MapSumInjects<K(!new), H(!new)>(m: map<K, nat>, n: map<H, nat>, f: K -> H)
    requires forall k :: k in m && m[k] > 0 ==> f(k) in n && m[k] <= n[f(k)]
    requires forall k, j :: k in m && j in m && m[k] > 0 && m[j] > 0 && f(k) == f(j) ==> k == j
    ensures MapSum(m) <= MapSum(n)
    decreases |m|
  {
    if m != map[] {
      var k :| k in m;
      MapSumRemove(m, k);
      if m[k] == 0 {
        MapSumInjects(m - {k}, n, f);
      } else {
        MapSumRemove(n, f(k));
        MapSumInjects(m - {k}, n - {f(k)}, f);
      }
    }
  }

  lemma MapSumLe<K(!new)>(m: map<K, nat>, n: map<K, nat>)
    requires forall k :: k in m ==> k in n && m[k] <= n[k]
    ensures MapSum(m) <= MapSum(n)
  {
    MapSumInjects(m, n, (k: K) => k);
  }

  lemma Distribute(c: nat, a: nat, b: nat)
    ensures c * (a + b) == c * a + c * b
  {
  }

  /** Scaling every entry scales the total. */
  lemma {:induction false} MapSumScale<K(!new)>(m: map<K, nat>, n: map<K, nat>, c: nat)
    requires m.Keys == n.Keys
    requires forall k :: k in m ==> n[k] == c * m[k]
    ensures MapSum(n) == c * MapSum(m)
    decreases |m|
  {
    if m == map[] {
      assert n == map[];
    } else {
      var k :| k in m;
      MapSumRemove(m, k);
      MapSumRemove(n, k);
      MapSumScale(m - {k}, n - {k}, c);
      Distribute(c, m[k], MapSum(m - {k}));
    }
  }

  lemma {:induction false} MapSumAdd<K(!new)>(m: map<K, nat>, n: map<K, nat>, p: map<K, nat>)
    requires m.Keys == n.Keys == p.Keys
    requires forall k :: k in m ==> p[k] == m[k] + n[k]
    ensures MapSum(p) == MapSum(m) + MapSum(n)
    decreases |m|
  {
    if m == map[] {
      assert n == map[] && p == map[];
    } else {
      var k :| k in m;
      MapSumRemove(m, k);
      MapSumRemove(n, k);
      MapSumRemove(p, k);
      MapSumAdd(m - {k}, n - {k}, p - {k});
    }
  }

  /** A map whose values are bounded by c sums to at most c times its size. */
  lemma {:induction false} MapSumBound<K(!new)>(m: map<K, nat>, c: nat)
    requires forall k :: k in m ==> m[k] <= c
    ensures MapSum(m) <= c * |m|
    decreases |m|
  {
    if m != map[] {
      var k :| k in m;
      var rest := m - {k};
      MapSumRemove(m, k);
      assert m.Keys == rest.Keys + {k};
      MapSumBound(rest, c);
      Distribute(c, |rest|, 1);
    }
  }
}
