/** Group-by-and-sum over (key, amount) pairs: the one aggregation shape the
    pipeline uses, for Azure months, dashboard accounts, provider totals and
    the monthly trend. */
module Grouping {

  /** The sum of all amounts. */
  function Total<K>(es: seq<(K, real)>): real
  {
    if es == [] then 0.0 else es[0].1 + Total(es[1..])
  }

  /** The sum of the amounts whose key is `k`. */
  function SumFor<K(==)>(es: seq<(K, real)>, k: K): real
  {
    if es == [] then 0.0
    else (if es[0].0 == k then es[0].1 else 0.0) + SumFor(es[1..], k)
  }

  /** The set of keys that occur. */
  function KeysOf<K>(es: seq<(K, real)>): set<K>
  {
    if es == [] then {} else {es[0].0} + KeysOf(es[1..])
  }

  predicate DistinctKeys<K(==)>(g: seq<(K, real)>)
  {
    forall i, j :: 0 <= i < j < |g| ==> g[i].0 != g[j].0
  }

  /** The amount recorded for `k` in a grouped result (0 when absent). */
  function Lookup<K(==)>(g: seq<(K, real)>, k: K): real
  {
    if g == [] then 0.0 else if g[0].0 == k then g[0].1 else Lookup(g[1..], k)
  }

  /** Adds `v` to the group of `k`, opening that group when it is new. */
  function AddTo<K(==,!new)>(g: seq<(K, real)>, k: K, v: real): (r: seq<(K, real)>)
    ensures KeysOf(r) == KeysOf(g) + {k}
    ensures DistinctKeys(g) ==> DistinctKeys(r)
    ensures Total(r) == Total(g) + v
    ensures forall j :: Lookup(r, j) == Lookup(g, j) + (if j == k then v else 0.0)
  {
    if g == [] then [(k, v)]
    else if g[0].0 == k then [(k, g[0].1 + v)] + g[1..]
    else
      var r := [g[0]] + AddTo(g[1..], k, v);
      assert DistinctKeys(g) ==> g[0].0 !in KeysOf(g[1..]) by {
        if DistinctKeys(g) {
          assert forall i :: 0 <= i < |g[1..]| ==> g[1..][i].0 != g[0].0 by {
            forall i | 0 <= i < |g[1..]| ensures g[1..][i].0 != g[0].0 {
              assert g[1..][i] == g[i + 1];
            }
          }
          KeyNowhere(g[1..], g[0].0);
        }
      }
      assert DistinctKeys(g) ==> DistinctKeys(r) by {
        if DistinctKeys(g) {
          NotInKeysDistinct(g[0], AddTo(g[1..], k, v));
        }
      }
      r
  }

  /** A key found at no position does not occur. */
  lemma {:induction false} KeyNowhere<K>(es: seq<(K, real)>, k: K)
    requires forall i :: 0 <= i < |es| ==> es[i].0 != k
    ensures k !in KeysOf(es)
  {
    if es != [] {
      assert forall i :: 0 <= i < |es[1..]| ==> es[1..][i] == es[i + 1];
      KeyNowhere(es[1..], k);
    }
  }

  /** The position of a key that occurs. */
  ghost function KeyPosition<K>(es: seq<(K, real)>, k: K): (i: nat)
    requires k in KeysOf(es)
    ensures i < |es| && es[i].0 == k
  {
    if es[0].0 == k then 0 else KeyPosition(es[1..], k) + 1
  }

  /** Every position's key occurs. */
  lemma {:induction false} KeyAtPositionIn<K>(es: seq<(K, real)>, i: nat)
    requires i < |es|
    ensures es[i].0 in KeysOf(es)
  {
    if i > 0 {
      KeyAtPositionIn(es[1..], i - 1);
    }
  }

  lemma NotInKeysDistinct<K>(x: (K, real), g: seq<(K, real)>)
    requires DistinctKeys(g) && x.0 !in KeysOf(g)
    ensures DistinctKeys([x] + g)
  {
    forall j | 0 <= j < |g| ensures g[j].0 != x.0 {
      KeyAtPositionIn(g, j);
    }
  }

  /** Groups the pairs by key, summing the amounts of each group. Every key
      of the input has exactly one group, holding the sum of that key's
      amounts, and nothing is lost or added overall. */
  function GroupSum<K(==,!new)>(es: seq<(K, real)>): (r: seq<(K, real)>)
    ensures DistinctKeys(r)
    ensures KeysOf(r) == KeysOf(es)
    ensures forall k :: Lookup(r, k) == SumFor(es, k)
    ensures Total(r) == Total(es)
  {
    if es == [] then [] else AddTo(GroupSum(es[1..]), es[0].0, es[0].1)
  }

  /** In a result with distinct keys, the lookup of a group's key reads that group. */
  lemma {:induction false} LookupAt<K>(g: seq<(K, real)>, i: nat)
    requires DistinctKeys(g) && i < |g|
    ensures Lookup(g, g[i].0) == g[i].1
  {
    if i > 0 {
      assert g[0].0 != g[i].0;
      assert DistinctKeys(g[1..]) by {
        forall a, b | 0 <= a < b < |g[1..]| ensures g[1..][a].0 != g[1..][b].0 {
          assert g[a + 1].0 != g[b + 1].0;
        }
      }
      LookupAt(g[1..], i - 1);
    }
  }

  /** The grouped result read position by position: each group holds the sum
      of its key's amounts from the input. */
  lemma GroupSumAt<K(!new)>(es: seq<(K, real)>, i: nat)
    requires i < |GroupSum(es)|
    ensures GroupSum(es)[i].1 == SumFor(es, GroupSum(es)[i].0)
    ensures GroupSum(es)[i].0 in KeysOf(es)
  {
    LookupAt(GroupSum(es), i);
    KeyAtPositionIn(GroupSum(es), i);
  }

  /** A key that never occurs sums to nothing. */
  lemma {:induction false} SumForAbsent<K>(es: seq<(K, real)>, k: K)
    requires k !in KeysOf(es)
    ensures SumFor(es, k) == 0.0
  {
    if es != [] {
      SumForAbsent(es[1..], k);
    }
  }

  lemma {:induction false} TotalAppend<K>(a: seq<(K, real)>, b: seq<(K, real)>)
    ensures Total(a + b) == Total(a) + Total(b)
  {
    if a != [] {
      assert (a + b)[1..] == a[1..] + b;
      TotalAppend(a[1..], b);
    } else {
      assert a + b == b;
    }
  }

  lemma {:induction false} SumForAppend<K>(a: seq<(K, real)>, b: seq<(K, real)>, k: K)
    ensures SumFor(a + b, k) == SumFor(a, k) + SumFor(b, k)
  {
    if a != [] {
      assert (a + b)[1..] == a[1..] + b;
      SumForAppend(a[1..], b, k);
    } else {
      assert a + b == b;
    }
  }

  lemma {:induction false} KeysOfAppend<K>(a: seq<(K, real)>, b: seq<(K, real)>)
    ensures KeysOf(a + b) == KeysOf(a) + KeysOf(b)
  {
    if a != [] {
      assert (a + b)[1..] == a[1..] + b;
      KeysOfAppend(a[1..], b);
    } else {
      assert a + b == b;
    }
  }
}
