/** Result types and finite-map arithmetic shared by every component. */
module Prelude {

  datatype Option<+T> = None | Some(value: T)

  datatype Result<+T, +E> = Success(value: T) | Failure(error: E)

  const U16_MAX: nat := 0xFFFF
  const U32_MAX: nat := 0xFFFF_FFFF
  const U64_MAX: nat := 0xFFFF_FFFF_FFFF_FFFF

  /** The SQL aggregate SUM(weight) over the rows of one table. */
  ghost function Sum<K, V>(m: map<K, V>, weight: V -> nat): nat {
    if m == map[] then 0
    else
      var k :| k in m;
      weight(m[k]) + Sum(m - {k}, weight)
  }

  /** The aggregate does not depend on the order in which rows are visited. */
  lemma {:induction false} SumRemove<K, V>(m: map<K, V>, weight: V -> nat, k: K)
    requires k in m
    ensures Sum(m, weight) == weight(m[k]) + Sum(m - {k}, weight)
    decreases |m|
  {
    var j :| j in m && Sum(m, weight) == weight(m[j]) + Sum(m - {j}, weight);
    if j != k {
      SumRemove(m - {j}, weight, k);
      SumRemove(m - {k}, weight, j);
      assert m - {j} - {k} == m - {k} - {j};
    }
  }

  lemma SumInsert<K, V>(m: map<K, V>, weight: V -> nat, k: K, v: V)
    ensures k !in m ==> Sum(m[k := v], weight) == Sum(m, weight) + weight(v)
    ensures k in m ==> Sum(m[k := v], weight) + weight(m[k]) == Sum(m, weight) + weight(v)
  {
    SumRemove(m[k := v], weight, k);
    if k in m {
      SumRemove(m, weight, k);
      assert m[k := v] - {k} == m - {k};
    } else {
      assert m[k := v] - {k} == m;
    }
  }

  /** Two tables with the same keys and the same weights have the same total. */
  lemma {:induction false} SumSame<K, V>(m: map<K, V>, n: map<K, V>, weight: V -> nat)
    requires m.Keys == n.Keys
    requires forall k :: k in m ==> weight(m[k]) == weight(n[k])
    ensures Sum(m, weight) == Sum(n, weight)
    decreases |m|
  {
    if m != map[] {
      var k :| k in m;
      SumRemove(m, weight, k);
      SumRemove(n, weight, k);
      assert (m - {k}).Keys == (n - {k}).Keys;
      SumSame(m - {k}, n - {k}, weight);
    } else {
      assert n == map[];
    }
  }

  lemma Distribute(a: nat, x: nat, y: nat)
    ensures a * (x + y) == a * x + a * y
  {
  }

  /** Rows no heavier than `bound` total at most `bound` per row. */
  lemma {:induction false} SumAtMost<K, V>(m: map<K, V>, weight: V -> nat, bound: nat)
    requires forall k :: k in m ==> weight(m[k]) <= bound
    ensures Sum(m, weight) <= bound * |m|
    decreases |m|
  {
    if m != map[] {
      var k :| k in m;
      SumRemove(m, weight, k);
      SumAtMost(m - {k}, weight, bound);
      Distribute(bound, 1, |m - {k}|);
    }
  }

  /** A pointwise linear bound on two weights carries over to the totals. */
  lemma {:induction false} SumLinear<K, V>(
    m: map<K, V>, weight: V -> nat, first: V -> nat, second: V -> nat, a: nat, b: nat)
    requires forall k :: k in m ==> weight(m[k]) <= a * first(m[k]) + b * second(m[k])
    ensures Sum(m, weight) <= a * Sum(m, first) + b * Sum(m, second)
    decreases |m|
  {
    if m != map[] {
      var k :| k in m;
      SumRemove(m, weight, k);
      SumRemove(m, first, k);
      SumRemove(m, second, k);
      SumLinear(m - {k}, weight, first, second, a, b);
      Distribute(a, first(m[k]), Sum(m - {k}, first));
      Distribute(b, second(m[k]), Sum(m - {k}, second));
    }
  }

  /** Computes SUM(weight) by visiting every row once. */
  method Total<K(==), V>(m: map<K, V>, weight: V -> nat) returns (total: nat)
    ensures total == Sum(m, weight)
  {
    total := 0;
    var rest := m;
    while rest != map[]
      invariant total + Sum(rest, weight) == Sum(m, weight)
      decreases |rest|
    {
      var k :| k in rest;
      SumRemove(rest, weight, k);
      total := total + weight(rest[k]);
      rest := rest - {k};
    }
  }

  /** A subset of `n` indexable values has at most `n` members. */
  lemma {:induction false} SubsetCard<T>(s: set<T>, t: set<T>)
    requires s <= t
    ensures |s| <= |t|
    decreases t
  {
    if s != {} {
      var x :| x in s;
      SubsetCard(s - {x}, t - {x});
    }
  }

  lemma SubsetSameCard<T>(s: set<T>, t: set<T>)
    requires s <= t && |s| == |t|
    ensures s == t
  {
    if s != t {
      var x :| x in t && x !in s;
      SubsetCard(s, t - {x});
    }
  }
}
