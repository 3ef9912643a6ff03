/** The database behind the pipeline: the cost table and the savings table,
    with the batch insert that a commit performs and, beside it, the upsert
    on the natural key that the calls to `merge` evidently intend. */
module Store {
  import opened Frames
  import opened Models

  /** The batch numbered with fresh ids, as the table's autoincrement assigns them. */
  function Numbered(batch: seq<CostRecord>, nextId: int): (r: seq<StoredCost>)
    ensures |r| == |batch|
    ensures forall k :: 0 <= k < |batch| ==> r[k] == StoredCost(nextId + k, batch[k])
  {
    seq(|batch|, k requires 0 <= k < |batch| => StoredCost(nextId + k, batch[k]))
  }

  /** One commit of staged new rows, as the session performs it: every row
      is an insert (a staged row has no id, so merging it matches nothing),
      and the unique constraint rejects the whole batch if any key collides,
      with an existing row or within the batch. */
  function InsertBatch(costs: seq<StoredCost>, batch: seq<CostRecord>, nextId: int): (r: Option<seq<StoredCost>>)
    ensures r.Some? <==> UniqueKeys(Records(costs) + batch)
    ensures r.Some? ==> Records(r.value) == Records(costs) + batch
    ensures r.Some? ==> r.value == costs + Numbered(batch, nextId)
    ensures r.Some? && CostTableValid(costs, nextId) ==> CostTableValid(r.value, nextId + |batch|)
  {
    if UniqueKeys(Records(costs) + batch) then
      var r := costs + Numbered(batch, nextId);
      assert Records(r) == Records(costs) + batch;
      Some(r)
    else None
  }

  /** Committing the same non-empty batch a second time always fails: the
      second batch repeats every key the first one stored. */
  lemma ReuploadRejected(costs: seq<StoredCost>, batch: seq<CostRecord>, nextId: int)
    requires batch != []
    requires InsertBatch(costs, batch, nextId).Some?
    ensures InsertBatch(InsertBatch(costs, batch, nextId).value, batch, nextId + |batch|).None?
  {
    var after := Records(InsertBatch(costs, batch, nextId).value);
    assert after == Records(costs) + batch;
    var both := after + batch;
    assert both[|costs|] == batch[0] && both[|costs| + |batch|] == batch[0];
    assert !UniqueKeys(both);
  }

  /** A batch that repeats a natural key is rejected whatever the table holds. */
  lemma RepeatedKeyRejected(costs: seq<StoredCost>, batch: seq<CostRecord>, nextId: int, i: nat, j: nat)
    requires i < j < |batch| && KeyOf(batch[i]) == KeyOf(batch[j])
    ensures InsertBatch(costs, batch, nextId).None?
  {
    var both := Records(costs) + batch;
    assert both[|costs| + i] == batch[i] && both[|costs| + j] == batch[j];
  }

  // ------------------------------------------------------ the intended upsert

  /** The position of the stored row with key `k`, if any. */
  function FindKey(costs: seq<StoredCost>, k: CostKey): (r: Option<nat>)
    ensures r.Some? ==> r.value < |costs| && KeyOf(costs[r.value].rec) == k
    ensures r.None? ==> forall i :: 0 <= i < |costs| ==> KeyOf(costs[i].rec) != k
  {
    if costs == [] then None
    else if KeyOf(costs[0].rec) == k then Some(0)
    else match FindKey(costs[1..], k)
      case None => None
      case Some(p) => Some(p + 1)
  }

  /** Insert-or-overwrite of one record: a row with the same key keeps its id
      and takes the new amount; otherwise the record is added with a fresh id. */
  function UpsertOne(costs: seq<StoredCost>, rec: CostRecord, nextId: int): (r: (seq<StoredCost>, int))
    ensures CostTableValid(costs, nextId) ==> CostTableValid(r.0, r.1)
    ensures r.1 >= nextId
    ensures exists p :: 0 <= p < |r.0| && r.0[p].rec == rec
    ensures forall i :: 0 <= i < |costs| && KeyOf(costs[i].rec) != KeyOf(rec) ==> costs[i] in r.0
    ensures forall x :: x in r.0 ==> x in costs || x.rec == rec
  {
    match FindKey(costs, KeyOf(rec))
    case Some(p) =>
      var r := costs[p := StoredCost(costs[p].id, rec)];
      assert r[p].rec == rec;
      assert forall i :: 0 <= i < |costs| && i != p ==> r[i] == costs[i];
      assert CostTableValid(costs, nextId) ==> CostTableValid(r, nextId) by {
        if CostTableValid(costs, nextId) {
          assert forall i :: 0 <= i < |r| ==> KeyOf(r[i].rec) == KeyOf(costs[i].rec);
          assert forall i :: 0 <= i < |r| ==> r[i].id == costs[i].id;
        }
      }
      (r, nextId)
    case None =>
      var r := costs + [StoredCost(nextId, rec)];
      assert r[|costs|].rec == rec;
      assert CostTableValid(costs, nextId) ==> CostTableValid(r, nextId + 1) by {
        if CostTableValid(costs, nextId) {
          assert Records(r) == Records(costs) + [rec];
          UniqueKeysAppend(Records(costs), [rec]);
        }
      }
      (r, nextId + 1)
  }

  /** The last record of the batch with key `k`, if any. */
  function LastFor(batch: seq<CostRecord>, k: CostKey): (r: Option<CostRecord>)
    ensures r.Some? ==> r.value in batch && KeyOf(r.value) == k
    ensures r.None? <==> forall i :: 0 <= i < |batch| ==> KeyOf(batch[i]) != k
    // the record is the last one with key k: no later record has that key
    ensures r.Some? ==> exists i :: 0 <= i < |batch| && batch[i] == r.value &&
                                    forall j :: i < j < |batch| ==> KeyOf(batch[j]) != k
  {
    if batch == [] then None
    else if KeyOf(batch[|batch| - 1]) == k then Some(batch[|batch| - 1])
    else
      var front := batch[..|batch| - 1];
      var r := LastFor(front, k);
      assert forall i :: 0 <= i < |batch| - 1 ==> batch[i] == front[i];
      if r.Some? then
        var i :| 0 <= i < |front| && front[i] == r.value && forall j :: i < j < |front| ==> KeyOf(front[j]) != k;
        assert batch[i] == r.value && forall j :: i < j < |batch| ==> KeyOf(batch[j]) != k;
        r
      else r
  }

  /** The intended commit: each record of the batch, in order, overwrites the
      row with its key or is added. The table stays free of duplicate keys. */
  function UpsertBatch(costs: seq<StoredCost>, batch: seq<CostRecord>, nextId: int): (r: (seq<StoredCost>, int))
    ensures CostTableValid(costs, nextId) ==> CostTableValid(r.0, r.1)
    ensures r.1 >= nextId
    decreases |batch|
  {
    if batch == [] then (costs, nextId)
    else
      var mid := UpsertBatch(costs, batch[..|batch| - 1], nextId);
      UpsertOne(mid.0, batch[|batch| - 1], mid.1)
  }

  /** After an upsert every key of the batch holds its last record in the
      batch (last write wins), in exactly one row. */
  lemma {:induction false} UpsertLastWriteWins(costs: seq<StoredCost>, batch: seq<CostRecord>, nextId: int, k: CostKey)
    requires LastFor(batch, k).Some?
    ensures var r := UpsertBatch(costs, batch, nextId).0;
      exists p :: 0 <= p < |r| && r[p].rec == LastFor(batch, k).value
    decreases |batch|
  {
    var n := |batch|;
    var front := batch[..n - 1];
    var mid := UpsertBatch(costs, front, nextId);
    var last := batch[n - 1];
    assert UpsertBatch(costs, batch, nextId) == UpsertOne(mid.0, last, mid.1);
    if KeyOf(last) != k {
      assert LastFor(batch, k) == LastFor(front, k);
      UpsertLastWriteWins(costs, front, nextId, k);
      var p :| 0 <= p < |mid.0| && mid.0[p].rec == LastFor(front, k).value;
      assert KeyOf(mid.0[p].rec) != KeyOf(last);
      assert mid.0[p] in UpsertOne(mid.0, last, mid.1).0;
    } else {
      assert LastFor(batch, k) == Some(last);
    }
  }

  /** An upsert adds nothing but the batch: every row afterwards was stored
      before or holds a record of the batch. */
  lemma {:induction false} UpsertOnlyBatch(costs: seq<StoredCost>, batch: seq<CostRecord>, nextId: int)
    ensures forall x :: x in UpsertBatch(costs, batch, nextId).0 ==> x in costs || x.rec in batch
    decreases |batch|
  {
    if batch != [] {
      var front := batch[..|batch| - 1];
      UpsertOnlyBatch(costs, front, nextId);
      assert forall r :: r in front ==> r in batch;
    }
  }

  /** Rows whose key the batch never mentions come through an upsert untouched. */
  lemma {:induction false} UpsertKeepsOthers(costs: seq<StoredCost>, batch: seq<CostRecord>, nextId: int, i: nat)
    requires i < |costs| && LastFor(batch, KeyOf(costs[i].rec)).None?
    ensures costs[i] in UpsertBatch(costs, batch, nextId).0
    decreases |batch|
  {
    if batch != [] {
      var n := |batch|;
      var front := batch[..n - 1];
      assert LastFor(front, KeyOf(costs[i].rec)).None? by {
        assert forall j :: 0 <= j < n - 1 ==> front[j] == batch[j];
      }
      UpsertKeepsOthers(costs, front, nextId, i);
      var mid := UpsertBatch(costs, front, nextId);
      var q :| 0 <= q < |mid.0| && mid.0[q] == costs[i];
      assert KeyOf(mid.0[q].rec) != KeyOf(batch[n - 1]);
    }
  }

  /** Merging two records with one key and different amounts leaves exactly
      one stored row, holding the second amount. */
  lemma TwoWritesOneRow(costs: seq<StoredCost>, nextId: int, a: CostRecord, b: CostRecord)
    requires CostTableValid(costs, nextId)
    requires KeyOf(a) == KeyOf(b)
    ensures var r := UpsertBatch(costs, [a, b], nextId).0;
      && (exists p :: 0 <= p < |r| && r[p].rec == b)
      && (forall p, q :: 0 <= p < |r| && 0 <= q < |r| && KeyOf(r[p].rec) == KeyOf(b) && KeyOf(r[q].rec) == KeyOf(b) ==> p == q)
  {
    assert LastFor([a, b], KeyOf(b)) == Some(b);
    UpsertLastWriteWins(costs, [a, b], nextId, KeyOf(b));
    var r := UpsertBatch(costs, [a, b], nextId);
    assert CostTableValid(r.0, r.1);
    assert UniqueKeys(Records(r.0));
  }

  // ------------------------------------------------------------ the database

  /** The two tables and the id counters of their primary keys. */
  class CostStore {
    var costs: seq<StoredCost>
    var savings: seq<SavingsRow>
    var nextCostId: int
    var nextSavingsId: int

    ghost predicate Valid()
      reads this
    {
      CostTableValid(costs, nextCostId) && SavingsTableValid(savings, nextSavingsId)
    }

    constructor ()
      ensures Valid() && costs == [] && savings == []
    {
      costs, savings := [], [];
      nextCostId, nextSavingsId := 1, 1;
    }

    /** Commits the staged rows: all of them become visible, or, if any
        natural key collides, none do and the session rolls back. */
    method Commit(batch: seq<CostRecord>) returns (ok: bool)
      requires Valid()
      modifies this
      ensures Valid()
      ensures ok <==> UniqueKeys(Records(old(costs)) + batch)
      ensures ok ==> costs == old(costs) + Numbered(batch, old(nextCostId)) &&
                     nextCostId == old(nextCostId) + |batch|
      ensures !ok ==> costs == old(costs) && nextCostId == old(nextCostId)
      ensures savings == old(savings) && nextSavingsId == old(nextSavingsId)
    {
      var r := InsertBatch(costs, batch, nextCostId);
      ok := r.Some?;
      if ok {
        costs, nextCostId := r.value, nextCostId + |batch|;
      }
    }

    /** The intended commit: overwrite by natural key, never fail. */
    method CommitUpsert(batch: seq<CostRecord>)
      requires Valid()
      modifies this
      ensures Valid()
      ensures (costs, nextCostId) == UpsertBatch(old(costs), batch, old(nextCostId))
      ensures savings == old(savings) && nextSavingsId == old(nextSavingsId)
    {
      costs, nextCostId := UpsertBatch(costs, batch, nextCostId).0, UpsertBatch(costs, batch, nextCostId).1;
    }

    /** Adds one savings row with a fresh id and commits it. */
    method AddSavings(provider: Provider, account: string, periodType: string, periodValue: string,
                      projected: real, actual: real, saved: real)
      requires Valid()
      modifies this
      ensures Valid()
      ensures savings == old(savings) + [SavingsRow(old(nextSavingsId), provider, account, periodType,
                                                    periodValue, projected, actual, saved)]
      ensures nextSavingsId == old(nextSavingsId) + 1
      ensures costs == old(costs) && nextCostId == old(nextCostId)
    {
      savings := savings + [SavingsRow(nextSavingsId, provider, account, periodType,
                                       periodValue, projected, actual, saved)];
      nextSavingsId := nextSavingsId + 1;
    }
  }
}
