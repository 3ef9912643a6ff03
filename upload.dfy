/** The upload endpoint: detect the provider of an uploaded table, normalise
    it with that provider's normaliser, stage every normalised row in the
    session, commit, and run the savings estimator for the account. */
module Upload {
  import opened Frames
  import opened Models
  import opened Ingest
  import Store
  import Savings

  /** The billing period the endpoint supplies for every GCP upload. */
  const GcpYear := 2025
  const GcpMonth := 1

  /** Dispatch on the detected provider; `None` is an unsupported table. */
  function Normalize(t: Table, account: string, parse: DateParser): (r: Option<Result<seq<CostRecord>, IngestError>>)
    ensures r.None? <==> DetectProvider(t.columns) == SNOWFLAKE
    ensures DetectProvider(t.columns) == AZURE ==> r == Some(NormalizeAzure(t, account, parse))
    ensures DetectProvider(t.columns) == AWS ==> r == Some(NormalizeAws(t, account, parse))
    ensures DetectProvider(t.columns) == GCP ==> r == Some(NormalizeGcp(t, account, GcpYear, GcpMonth))
  {
    match DetectProvider(t.columns)
    case AZURE => Some(NormalizeAzure(t, account, parse))
    case AWS => Some(NormalizeAws(t, account, parse))
    case GCP => Some(NormalizeGcp(t, account, GcpYear, GcpMonth))
    case SNOWFLAKE => None
  }

  /** Every normalised record carries the detected provider and the account
      of the upload, and a GCP upload is always filed under January 2025. */
  lemma NormalizeTagsRecords(t: Table, account: string, parse: DateParser)
    requires Normalize(t, account, parse).Some? && Normalize(t, account, parse).value.Ok?
    ensures var out := Normalize(t, account, parse).value.value;
      forall i :: 0 <= i < |out| ==>
        && out[i].provider == DetectProvider(t.columns)
        && out[i].account == account
        && (out[i].provider == GCP ==> out[i].year == GcpYear && out[i].month == GcpMonth)
  {
    var out := Normalize(t, account, parse).value.value;
    match DetectProvider(t.columns)
    case AZURE =>
    case AWS =>
    case GCP =>
      assert |out| == |t.rows|;
  }

  /** What the endpoint answers. `StagingFailed` is the error raised when a
      normalised row cannot be turned into a cost row. */
  datatype Outcome =
    | RowsIngested(count: nat)
    | UnsupportedProvider
    | NormalizeFailed(error: IngestError)
    | StagingFailed
    | CommitFailed

  /** The keyword arguments the cost-row constructor accepts: its mapped columns. */
  const RecordFields: set<string> := {"id", "cloud_provider", "account_name", "service", "year", "month", "cost_amount"}

  /** The columns of the frame each normaliser returns. The Azure frame is the
      grouping keys, the summed amount and the three added columns; the AWS
      frame still holds the "date" column the melt kept as its identifier;
      the GCP frame is narrowed to the six record columns. */
  function NormalizedColumns(p: Provider): (cs: set<string>)
    ensures p == AWS ==> "date" in cs
    ensures p != AWS ==> cs <= RecordFields
  {
    match p
    case AZURE => {"year", "month", "cost_amount", "cloud_provider", "account_name", "service"}
    case AWS => {"date", "service", "cost_amount", "year", "month", "cloud_provider", "account_name"}
    case GCP => {"cloud_provider", "account_name", "service", "year", "month", "cost_amount"}
    case SNOWFLAKE => {}
  }

  /** Stages the normalised rows in the session one at a time, in order. Each
      row is passed to the cost-row constructor with the frame's columns as
      keyword arguments, so the first row fails when a column is not a field
      of the cost row, and then nothing is staged. */
  method Stage(clean: seq<CostRecord>, columns: set<string>) returns (staged: Option<seq<CostRecord>>)
    ensures staged.Some? <==> clean == [] || columns <= RecordFields
    ensures staged.Some? ==> staged.value == clean
  {
    var rows: seq<CostRecord> := [];
    var i := 0;
    while i < |clean|
      invariant 0 <= i <= |clean|
      invariant rows == clean[..i]
      invariant i > 0 ==> columns <= RecordFields
    {
      if !(columns <= RecordFields) {
        return None;
      }
      rows := rows + [clean[i]];
      i := i + 1;
    }
    return Some(rows);
  }

  /** The endpoint as written: staging fails when the frame carries a column
      the cost row lacks, the commit inserts the staged rows and fails on any
      natural-key collision, and the estimator runs only after a commit that
      succeeded. */
  method HandleUpload(db: Store.CostStore, t: Table, account: string, parse: DateParser) returns (outcome: Outcome)
    requires db.Valid()
    modifies db
    ensures db.Valid()
    ensures outcome == UnsupportedProvider <==> DetectProvider(t.columns) == SNOWFLAKE
    ensures (outcome.UnsupportedProvider? || outcome.NormalizeFailed? || outcome.StagingFailed? || outcome.CommitFailed?) ==>
      db.costs == old(db.costs) && db.savings == old(db.savings)
    ensures outcome.NormalizeFailed? <==>
      Normalize(t, account, parse).Some? && Normalize(t, account, parse).value.Err?
    ensures outcome.NormalizeFailed? ==> outcome.error == Normalize(t, account, parse).value.error
    ensures outcome.StagingFailed? <==>
      && Normalize(t, account, parse).Some? && Normalize(t, account, parse).value.Ok?
      && Normalize(t, account, parse).value.value != []
      && !(NormalizedColumns(DetectProvider(t.columns)) <= RecordFields)
    ensures outcome.CommitFailed? <==>
      && Normalize(t, account, parse).Some? && Normalize(t, account, parse).value.Ok?
      && (Normalize(t, account, parse).value.value == [] || NormalizedColumns(DetectProvider(t.columns)) <= RecordFields)
      && !UniqueKeys(Records(old(db.costs)) + Normalize(t, account, parse).value.value)
    ensures outcome.RowsIngested? ==>
      var clean := Normalize(t, account, parse).value.value;
      && outcome.count == |clean|
      && db.costs == old(db.costs) + Store.Numbered(clean, old(db.nextCostId))
      && Records(db.costs) == Records(old(db.costs)) + clean
    ensures outcome.RowsIngested? ==>
      match Savings.Estimate(Records(db.costs), account, DetectProvider(t.columns))
      case None => db.savings == old(db.savings)
      case Some(p) => (db.savings == old(db.savings) +
        [SavingsRow(old(db.nextSavingsId), DetectProvider(t.columns), account, "yearly", "annual", p, 0.0, p)])
  {
    var normalized := Normalize(t, account, parse);
    if normalized.None? {
      return UnsupportedProvider;
    }
    if normalized.value.Err? {
      return NormalizeFailed(normalized.value.error);
    }
    var clean := normalized.value.value;
    var staged := Stage(clean, NormalizedColumns(DetectProvider(t.columns)));
    if staged.None? {
      return StagingFailed;
    }
    var ok := db.Commit(staged.value);
    if !ok {
      return CommitFailed;
    }
    assert Records(db.costs) == Records(old(db.costs)) + clean by {
      assert db.costs == old(db.costs) + Store.Numbered(clean, old(db.nextCostId));
    }
    Savings.CalculateAnnualSavings(db, account, DetectProvider(t.columns));
    outcome := RowsIngested(|clean|);
  }

  /** The "date" column of the AWS frame is not a field of the cost row. */
  lemma DateNotARecordField()
    ensures "date" in NormalizedColumns(AWS) && "date" !in RecordFields
  {
    assert forall f :: f in RecordFields ==> f == "id" || |f| != 4 || f[0] != 'd';
  }

  /** An AWS upload with a positive cost in a kept row is never staged: its
      frame holds the "date" column, which the cost row does not have. */
  lemma AwsUploadNotStaged(t: Table, account: string, parse: DateParser, i: nat, c: string)
    requires DetectProvider(t.columns) == AWS && NormalizeAws(t, account, parse).Ok?
    requires i < |AwsRows(t)| && c in AwsServiceColumns(t) && IsPositive(Get(AwsRows(t)[i], c))
    ensures Normalize(t, account, parse).Some? && Normalize(t, account, parse).value.Ok?
    ensures Normalize(t, account, parse).value.value != []
    ensures !(NormalizedColumns(DetectProvider(t.columns)) <= RecordFields)
  {
    var out := NormalizeAws(t, account, parse).value;
    var ps := Periods(AwsRows(t), t.columns[0], parse);
    assert CostRecord(AWS, account, RemoveMarker(c), ps[i].0, ps[i].1, Get(AwsRows(t)[i], c).n) in out;
    assert Normalize(t, account, parse) == Some(NormalizeAws(t, account, parse));
    DateNotARecordField();
  }

  /** The columns the intended endpoint stages: the frame narrowed to the
      fields of the cost row, as the GCP normaliser already does. */
  function StagedColumns(p: Provider): (cs: set<string>)
    ensures cs <= RecordFields
    // the only column dropped is the AWS "date" column
    ensures NormalizedColumns(p) - cs <= {"date"}
  {
    NormalizedColumns(p) * RecordFields
  }

  /** The endpoint as intended: the frame narrowed to the record fields before
      staging and the commit upserting by natural key, so an upload always
      lands unless its table is unsupported or cannot be normalised. */
  method HandleUploadUpsert(db: Store.CostStore, t: Table, account: string, parse: DateParser) returns (outcome: Outcome)
    requires db.Valid()
    modifies db
    ensures db.Valid()
    ensures !outcome.CommitFailed? && !outcome.StagingFailed?
    ensures outcome == UnsupportedProvider <==> DetectProvider(t.columns) == SNOWFLAKE
    ensures (outcome.UnsupportedProvider? || outcome.NormalizeFailed?) ==>
      db.costs == old(db.costs) && db.savings == old(db.savings)
    ensures outcome.NormalizeFailed? <==>
      Normalize(t, account, parse).Some? && Normalize(t, account, parse).value.Err?
    ensures outcome.RowsIngested? ==>
      var clean := Normalize(t, account, parse).value.value;
      && outcome.count == |clean|
      && (db.costs, db.nextCostId) == Store.UpsertBatch(old(db.costs), clean, old(db.nextCostId))
    ensures outcome.RowsIngested? ==>
      match Savings.Estimate(Records(db.costs), account, DetectProvider(t.columns))
      case None => db.savings == old(db.savings)
      case Some(p) => (db.savings == old(db.savings) +
        [SavingsRow(old(db.nextSavingsId), DetectProvider(t.columns), account, "yearly", "annual", p, 0.0, p)])
  {
    var normalized := Normalize(t, account, parse);
    if normalized.None? {
      return UnsupportedProvider;
    }
    if normalized.value.Err? {
      return NormalizeFailed(normalized.value.error);
    }
    var clean := normalized.value.value;
    var staged := Stage(clean, StagedColumns(DetectProvider(t.columns)));
    db.CommitUpsert(staged.value);
    Savings.CalculateAnnualSavings(db, account, DetectProvider(t.columns));
    outcome := RowsIngested(|clean|);
  }
}
