/** The savings estimator: from the stored cost rows of one account and
    provider it takes the three latest rows by (year, month), projects their
    monthly average over a year and appends the projection to the savings
    table. */
module Savings {
  import opened Frames
  import opened Models
  import Store

  /** The stored records of one account and provider, in storage order. */
  function Matching(rs: seq<CostRecord>, account: string, provider: Provider): (r: seq<CostRecord>)
    ensures forall x :: x in r <==> x in rs && x.account == account && x.provider == provider
    ensures |r| <= |rs|
  {
    if rs == [] then []
    else
      (if rs[0].account == account && rs[0].provider == provider then [rs[0]] else [])
      + Matching(rs[1..], account, provider)
  }

  /** Each matching record occurs in the result exactly as often as it is stored. */
  lemma {:induction false} MatchingCounts(rs: seq<CostRecord>, account: string, provider: Provider)
    ensures forall x :: multiset(Matching(rs, account, provider))[x] ==
                        (if x.account == account && x.provider == provider then multiset(rs)[x] else 0)
  {
    if rs != [] {
      assert rs == [rs[0]] + rs[1..];
      MatchingCounts(rs[1..], account, provider);
    }
  }

  /** Distributes over concatenation: rows of other accounts or providers added
      before or after do not change which rows match. */
  lemma {:induction false} MatchingAppend(a: seq<CostRecord>, b: seq<CostRecord>, account: string, provider: Provider)
    ensures Matching(a + b, account, provider) == Matching(a, account, provider) + Matching(b, account, provider)
  {
    if a == [] {
      assert a + b == b;
    } else {
      assert (a + b)[1..] == a[1..] + b;
      MatchingAppend(a[1..], b, account, provider);
    }
  }

  /** `a` is no later than `b` in the (year, month) order. */
  predicate NotLater(a: CostRecord, b: CostRecord)
  {
    a.year < b.year || (a.year == b.year && a.month <= b.month)
  }

  /** The position of a latest record; among equally late ones, the first. */
  function LatestIndex(rs: seq<CostRecord>): (i: nat)
    requires rs != []
    ensures i < |rs|
    ensures forall j :: 0 <= j < |rs| ==> NotLater(rs[j], rs[i])
    ensures forall j :: 0 <= j < i ==> !NotLater(rs[i], rs[j])
  {
    if |rs| == 1 then 0
    else
      var k := LatestIndex(rs[1..]) + 1;
      assert forall j :: 1 <= j < |rs| ==> rs[j] == rs[1..][j - 1];
      if NotLater(rs[k], rs[0]) then 0 else k
  }

  /** A latest record is no earlier than any record of the list. */
  lemma LatestBeatsAll(rs: seq<CostRecord>, x: CostRecord)
    requires x in rs
    ensures NotLater(x, rs[LatestIndex(rs)])
  {
    var j :| 0 <= j < |rs| && rs[j] == x;
  }

  /** `rs` without its element at `i`. */
  function Without(rs: seq<CostRecord>, i: nat): (r: seq<CostRecord>)
    requires i < |rs|
    ensures |r| == |rs| - 1
    ensures multiset(r) + multiset{rs[i]} == multiset(rs)
  {
    assert rs == rs[..i] + [rs[i]] + rs[i + 1..];
    rs[..i] + rs[i + 1..]
  }

  /** Picks the `n` latest records, latest first, and leaves the others:
      together the two are the input. This is the ordered query with its
      limit; the order of the pick and what it leaves behind are the next
      two lemmas. */
  function TopLatest(n: nat, rs: seq<CostRecord>): (r: (seq<CostRecord>, seq<CostRecord>))
    ensures |r.0| == if n <= |rs| then n else |rs|
    ensures multiset(r.0) + multiset(r.1) == multiset(rs)
    decreases n
  {
    if n == 0 || rs == [] then ([], rs)
    else
      var i := LatestIndex(rs);
      var sub := TopLatest(n - 1, Without(rs, i));
      ([rs[i]] + sub.0, sub.1)
  }

  /** Latest first: descending (year, month) order. */
  predicate Descending(sel: seq<CostRecord>)
  {
    forall a, b :: 0 <= a < b < |sel| ==> NotLater(sel[b], sel[a])
  }

  /** Nothing in `rest` is later than anything in `sel`. */
  predicate NoneLater(rest: seq<CostRecord>, sel: seq<CostRecord>)
  {
    forall j, k :: 0 <= j < |rest| && 0 <= k < |sel| ==> NotLater(rest[j], sel[k])
  }

  /** An element of one part of a split is an element of the whole. */
  lemma InSplit(a: seq<CostRecord>, b: seq<CostRecord>, c: seq<CostRecord>, x: CostRecord)
    requires multiset(a) + multiset(b) == multiset(c)
    requires x in a || x in b
    ensures x in c
  {
    assert x in multiset(a) || x in multiset(b);
    assert x in multiset(c);
  }

  /** The pick is in descending (year, month) order. */
  lemma {:induction false} TopLatestDescending(n: nat, rs: seq<CostRecord>)
    ensures Descending(TopLatest(n, rs).0)
    decreases n
  {
    if n > 0 && rs != [] {
      var i := LatestIndex(rs);
      var others := Without(rs, i);
      var sub := TopLatest(n - 1, others);
      var sel := [rs[i]] + sub.0;
      assert TopLatest(n, rs).0 == sel;
      TopLatestDescending(n - 1, others);
      forall a, b | 0 <= a < b < |sel| ensures NotLater(sel[b], sel[a]) {
        assert sel[b] == sub.0[b - 1];
        if a == 0 {
          InSplit(sub.0, sub.1, others, sel[b]);
          InSplit(others, [rs[i]], rs, sel[b]);
          LatestBeatsAll(rs, sel[b]);
        } else {
          assert sel[a] == sub.0[a - 1];
          assert NotLater(sub.0[b - 1], sub.0[a - 1]);
        }
      }
    }
  }

  /** Nothing the pick leaves behind is later than anything picked. */
  lemma {:induction false} TopLatestRestNotLater(n: nat, rs: seq<CostRecord>)
    ensures NoneLater(TopLatest(n, rs).1, TopLatest(n, rs).0)
    decreases n
  {
    if n > 0 && rs != [] {
      var i := LatestIndex(rs);
      var others := Without(rs, i);
      var sub := TopLatest(n - 1, others);
      var r := ([rs[i]] + sub.0, sub.1);
      assert TopLatest(n, rs) == r;
      TopLatestRestNotLater(n - 1, others);
      forall j, k | 0 <= j < |r.1| && 0 <= k < |r.0| ensures NotLater(r.1[j], r.0[k]) {
        if k == 0 {
          InSplit(sub.0, sub.1, others, r.1[j]);
          InSplit(others, [rs[i]], rs, r.1[j]);
          LatestBeatsAll(rs, r.1[j]);
        } else {
          assert r.0[k] == sub.0[k - 1];
          assert NotLater(sub.1[j], sub.0[k - 1]);
        }
      }
    }
  }

  /** How many of the latest rows the estimate averages. */
  const Trailing: nat := 3

  /** The projection from one account's history: none with fewer than three
      rows, otherwise the average of the three latest rows times twelve. */
  function Projection(m: seq<CostRecord>): (r: Option<real>)
    ensures r.None? <==> |m| < 3
  {
    if |m| < Trailing then None
    else Some(TotalCost(TopLatest(Trailing, m).0) / 3.0 * 12.0)
  }

  /** The projected yearly cost of one account and provider from the stored
      records: there is none while fewer than three rows match. */
  function Estimate(rs: seq<CostRecord>, account: string, provider: Provider): (r: Option<real>)
    ensures r.None? <==> |Matching(rs, account, provider)| < 3
  {
    Projection(Matching(rs, account, provider))
  }

  /** An estimate is four times the total of three matching rows, and no
      other matching row is later than any of the three. */
  lemma EstimatePicksLatest(rs: seq<CostRecord>, account: string, provider: Provider)
    requires |Matching(rs, account, provider)| >= 3
    ensures var m := Matching(rs, account, provider);
      var picked := TopLatest(Trailing, m);
      && Estimate(rs, account, provider).Some?
      && Estimate(rs, account, provider).value == 4.0 * TotalCost(picked.0)
      && |picked.0| == 3
      && (forall x :: x in picked.0 ==> x in rs && x.account == account && x.provider == provider)
      && NoneLater(picked.1, picked.0)
      && multiset(picked.0) + multiset(picked.1) == multiset(m)
  {
    var m := Matching(rs, account, provider);
    var picked := TopLatest(Trailing, m);
    forall x | x in picked.0 ensures x in m {
      InSplit(picked.0, picked.1, m, x);
    }
    TopLatestRestNotLater(Trailing, m);
  }

  /** Three rows are all picked, so they leave nothing behind and their
      totals agree. */
  lemma PickAllOfThree(m: seq<CostRecord>)
    requires |m| == 3
    ensures TotalCost(TopLatest(Trailing, m).0) == TotalCost(m)
  {
    var picked := TopLatest(Trailing, m);
    assert |picked.1| == 0 by {
      assert |multiset(picked.0)| + |multiset(picked.1)| == |multiset(m)|;
    }
    assert multiset(picked.1) == multiset{};
    TotalCostPermutation(picked.0, m);
  }

  /** With exactly three matching rows the estimate is their total over
      three months, times twelve, whatever their order. */
  lemma EstimateExactlyThree(rs: seq<CostRecord>, account: string, provider: Provider)
    requires |Matching(rs, account, provider)| == 3
    ensures Estimate(rs, account, provider).Some?
    ensures Estimate(rs, account, provider).value == TotalCost(Matching(rs, account, provider)) / 3.0 * 12.0
  {
    PickAllOfThree(Matching(rs, account, provider));
  }

  /** Rows of other accounts or providers do not change the estimate. */
  lemma EstimateIgnoresOthers(rs: seq<CostRecord>, x: CostRecord, account: string, provider: Provider)
    requires x.account != account || x.provider != provider
    ensures Estimate(rs + [x], account, provider) == Estimate(rs, account, provider)
  {
    MatchingAppend(rs, [x], account, provider);
    assert Matching([x], account, provider) == [];
    assert Matching(rs, account, provider) + [] == Matching(rs, account, provider);
  }

  /** Runs the estimator against the store: with an estimate, one yearly
      savings row is appended whose savings equal the projection and whose
      actual cost is zero; without one, the store is left as it was. */
  method CalculateAnnualSavings(db: Store.CostStore, account: string, provider: Provider)
    requires db.Valid()
    modifies db
    ensures db.Valid()
    ensures db.costs == old(db.costs) && db.nextCostId == old(db.nextCostId)
    ensures match Estimate(Records(old(db.costs)), account, provider)
      case None => db.savings == old(db.savings) && db.nextSavingsId == old(db.nextSavingsId)
      case Some(p) =>
        && db.savings == old(db.savings) +
             [SavingsRow(old(db.nextSavingsId), provider, account, "yearly", "annual", p, 0.0, p)]
        && db.nextSavingsId == old(db.nextSavingsId) + 1
  {
    var estimate := Estimate(Records(db.costs), account, provider);
    if estimate.Some? {
      var projected := estimate.value;
      db.AddSavings(provider, account, "yearly", "annual", projected, 0.0, projected);
    }
  }
}
