/** The persisted record shapes: the cost table with its natural-key
    uniqueness constraint, and the append-only savings table. */
module Models {

  /** The provider tags the detector can produce; SNOWFLAKE is the fallback. */
  datatype Provider = AZURE | AWS | GCP | SNOWFLAKE

  /** One normalised cost row: the six columns of the cost table besides `id`. */
  datatype CostRecord = CostRecord(
    provider: Provider,
    account: string,
    service: string,
    year: int,
    month: int,
    cost: real)

  /** The natural key covered by the `unique_cost_record` constraint. */
  datatype CostKey = CostKey(provider: Provider, account: string, service: string, year: int, month: int)

  function KeyOf(r: CostRecord): CostKey
  {
    CostKey(r.provider, r.account, r.service, r.year, r.month)
  }

  /** No two records share a natural key. */
  predicate UniqueKeys(rs: seq<CostRecord>)
  {
    forall i, j :: 0 <= i < j < |rs| ==> KeyOf(rs[i]) != KeyOf(rs[j])
  }

  /** No record of `b` has the natural key of a record of `a`. */
  predicate KeysDisjoint(a: seq<CostRecord>, b: seq<CostRecord>)
  {
    forall i, j :: 0 <= i < |a| && 0 <= j < |b| ==> KeyOf(a[i]) != KeyOf(b[j])
  }

  /** Two lists of unique records can be stored together exactly when neither
      repeats a key of the other. */
  lemma UniqueKeysAppend(a: seq<CostRecord>, b: seq<CostRecord>)
    ensures UniqueKeys(a + b) <==> UniqueKeys(a) && UniqueKeys(b) && KeysDisjoint(a, b)
  {
    var ab := a + b;
    if UniqueKeys(ab) {
      forall i, j | 0 <= i < j < |a| ensures KeyOf(a[i]) != KeyOf(a[j]) {
        assert a[i] == ab[i] && a[j] == ab[j];
      }
      forall i, j | 0 <= i < j < |b| ensures KeyOf(b[i]) != KeyOf(b[j]) {
        assert b[i] == ab[|a| + i] && b[j] == ab[|a| + j];
      }
      forall i, j | 0 <= i < |a| && 0 <= j < |b| ensures KeyOf(a[i]) != KeyOf(b[j]) {
        assert a[i] == ab[i] && b[j] == ab[|a| + j];
      }
    }
    if UniqueKeys(a) && UniqueKeys(b) && KeysDisjoint(a, b) {
      forall i, j | 0 <= i < j < |ab| ensures KeyOf(ab[i]) != KeyOf(ab[j]) {
        if j < |a| {
          assert ab[i] == a[i] && ab[j] == a[j];
        } else if i < |a| {
          assert ab[i] == a[i] && ab[j] == b[j - |a|];
        } else {
          assert ab[i] == b[i - |a|] && ab[j] == b[j - |a|];
        }
      }
    }
  }

  /** A stored cost row: the surrogate primary key `id` and the record. */
  datatype StoredCost = StoredCost(id: int, rec: CostRecord)

  /** The records of the stored rows, in storage order. */
  function Records(cs: seq<StoredCost>): (r: seq<CostRecord>)
    ensures |r| == |cs| && forall i :: 0 <= i < |cs| ==> r[i] == cs[i].rec
  {
    seq(|cs|, i requires 0 <= i < |cs| => cs[i].rec)
  }

  /** The cost table's integrity: natural keys unique, every id distinct and
      below the next id the table will hand out. */
  predicate CostTableValid(cs: seq<StoredCost>, nextId: int)
  {
    && UniqueKeys(Records(cs))
    && (forall i, j :: 0 <= i < j < |cs| ==> cs[i].id != cs[j].id)
    && (forall i :: 0 <= i < |cs| ==> cs[i].id < nextId)
  }

  /** A savings row. The table has no uniqueness constraint beyond `id`, so
      several estimates for one account and provider may coexist. */
  datatype SavingsRow = SavingsRow(
    id: int,
    provider: Provider,
    account: string,
    periodType: string,
    periodValue: string,
    projected: real,
    actual: real,
    savings: real)

  predicate SavingsTableValid(ss: seq<SavingsRow>, nextId: int)
  {
    && (forall i, j :: 0 <= i < j < |ss| ==> ss[i].id != ss[j].id)
    && (forall i :: 0 <= i < |ss| ==> ss[i].id < nextId)
  }

  /** The sum of the cost amounts. */
  function TotalCost(rs: seq<CostRecord>): real
  {
    if rs == [] then 0.0 else rs[0].cost + TotalCost(rs[1..])
  }

  lemma {:induction false} TotalCostAppend(a: seq<CostRecord>, b: seq<CostRecord>)
    ensures TotalCost(a + b) == TotalCost(a) + TotalCost(b)
  {
    if a != [] {
      assert (a + b)[1..] == a[1..] + b;
      TotalCostAppend(a[1..], b);
    } else {
      assert a + b == b;
    }
  }

  /** Taking one record out of a list takes its cost out of the total. */
  lemma TotalCostRemove(b: seq<CostRecord>, i: nat)
    requires i < |b|
    ensures TotalCost(b) == b[i].cost + TotalCost(b[..i] + b[i + 1..])
  {
    assert b == b[..i] + ([b[i]] + b[i + 1..]);
    TotalCostAppend(b[..i], [b[i]] + b[i + 1..]);
    TotalCostAppend(b[..i], b[i + 1..]);
    assert ([b[i]] + b[i + 1..])[1..] == b[i + 1..];
  }

  /** Reordering records does not change their total cost. */
  lemma {:induction false} TotalCostPermutation(a: seq<CostRecord>, b: seq<CostRecord>)
    requires multiset(a) == multiset(b)
    ensures TotalCost(a) == TotalCost(b)
  {
    if a == [] {
      assert |multiset(b)| == 0;
      assert b == [];
    } else {
      var x := a[0];
      assert x in multiset(b);
      var i :| 0 <= i < |b| && b[i] == x;
      var rest := b[..i] + b[i + 1..];
      assert b == b[..i] + [x] + b[i + 1..];
      assert a == [x] + a[1..];
      assert multiset(rest) == multiset(b) - multiset{x};
      assert multiset(a[1..]) == multiset(a) - multiset{x};
      TotalCostPermutation(a[1..], rest);
      TotalCostRemove(b, i);
    }
  }
}
