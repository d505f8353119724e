/** Sums over the values of a finite map: SQL's SUM over a table. */
module Totals {

  ghost function Pick<K(!new), V>(m: map<K, V>): (k: K)
    requires m != map[]
    ensures k in m
  {
    assert (forall x :: x !in m) ==> m == map[];
    var k :| k in m;
    k
  }

  lemma Shrinks<K, V>(m: map<K, V>, k: K)
    requires k in m
    ensures |m - {k}| == |m| - 1 && (m - {k}).Keys == m.Keys - {k}
  {
    assert (m - {k}).Keys == m.Keys - {k};
  }

  ghost function Total<K(!new)>(m: map<K, nat>): nat
    decreases |m|
  {
    if m == map[] then 0 else
    var k := Pick(m);
    Shrinks(m, k);
    m[k] + Total(m - {k})
  }

  lemma SomeOf<K>(s: set<K>) returns (k: K)
    requires s != {}
    ensures k in s
  {
    k :| k in s;
  }

  lemma SameMaps<K(!new), V>(m: map<K, V>, n: map<K, V>)
    requires forall k :: (k in m <==> k in n) && (k in m ==> m[k] == n[k])
    ensures m == n
  {
    assert m.Keys == n.Keys;
  }

  /** Any row may be added last. */
  lemma {:induction false} TotalWithout<K(!new)>(m: map<K, nat>, k: K)
    requires k in m
    ensures Total(m) == m[k] + Total(m - {k})
    decreases |m|
  {
    var p := Pick(m);
    if p != k {
      Shrinks(m, p);
      Shrinks(m, k);
      TotalWithout(m - {p}, k);
      TotalWithout(m - {k}, p);
      assert m - {p} - {k} == m - {k} - {p};
    }
  }

  lemma TotalInsert<K(!new)>(m: map<K, nat>, k: K, v: nat)
    requires k !in m
    ensures Total(m[k := v]) == Total(m) + v
  {
    TotalWithout(m[k := v], k);
    assert m[k := v] - {k} == m;
  }

  function Get<K>(m: map<K, nat>, k: K): nat { if k in m then m[k] else 0 }

  lemma GetWithout<K(!new)>(m: map<K, nat>, k: K)
    ensures forall x :: Get(m - {k}, x) == if x == k then 0 else Get(m, x)
  {
  }

  /** Taking one row out of a table changes its total by what the row holds, if anything. */
  lemma TotalGet<K(!new)>(m: map<K, nat>, k: K)
    ensures Total(m) == Get(m, k) + Total(m - {k})
    ensures |m - {k}| == |m| - (if k in m then 1 else 0)
  {
    if k in m {
      TotalWithout(m, k);
      Shrinks(m, k);
    } else {
      assert m - {k} == m;
    }
  }

  lemma SameWithout<K(!new)>(m: map<K, nat>, n: map<K, nat>, k: K)
    requires forall x :: Get(m, x) == Get(n, x)
    ensures forall x :: Get(m - {k}, x) == Get(n - {k}, x)
  {
    GetWithout(m, k);
    GetWithout(n, k);
  }

  /** Rows that hold 0 may be missing. */
  lemma {:induction false} TotalIgnoresZeros<K(!new)>(m: map<K, nat>, n: map<K, nat>)
    requires forall k :: Get(m, k) == Get(n, k)
    ensures Total(m) == Total(n)
    decreases |m| + |n|
  {
    if m != map[] || n != map[] {
      var k := if m != map[] then Pick(m) else Pick(n);
      TotalGet(m, k);
      TotalGet(n, k);
      SameWithout(m, n, k);
      TotalIgnoresZeros(m - {k}, n - {k});
    }
  }

  /** SELECT SUM(v). */
  method SumOf<K(!new, ==)>(m: map<K, nat>) returns (total: nat)
    ensures total == Total(m)
  {
    total := 0;
    var rest := m;
    while rest.Keys != {}
      invariant total + Total(rest) == Total(m)
      decreases |rest|
    {
      var k :| k in rest.Keys;
      TotalWithout(rest, k);
      Shrinks(rest, k);
      total := total + rest[k];
      rest := rest - {k};
    }
    assert rest == map[];
  }

  ghost function Where<K(!new), V(!new)>(m: map<K, V>, ok: V -> bool): set<K> { set k | k in m && ok(m[k]) }

  lemma WhereWithout<K(!new), V(!new)>(m: map<K, V>, ok: V -> bool, k: K)
    requires k in m
    ensures |Where(m, ok)| == |Where(m - {k}, ok)| + if ok(m[k]) then 1 else 0
  {
    assert Where(m - {k}, ok) == Where(m, ok) - {k};
  }

  /** SELECT count(*) WHERE ok(v). */
  method CountWhere<K(!new, ==), V(!new)>(m: map<K, V>, ok: V -> bool) returns (n: nat)
    ensures n == |Where(m, ok)|
  {
    n := 0;
    var rest := m;
    while rest.Keys != {}
      invariant n + |Where(rest, ok)| == |Where(m, ok)|
      decreases |rest|
    {
      var k :| k in rest.Keys;
      WhereWithout(rest, ok, k);
      Shrinks(rest, k);
      n := n + if ok(rest[k]) then 1 else 0;
      rest := rest - {k};
    }
    assert Where(rest, ok) == {};
  }
}
