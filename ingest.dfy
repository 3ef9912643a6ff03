/** Provider detection and the three normalisers that turn a provider's
    billing export into uniform cost records. */
module Ingest {
  import opened Frames
  import opened Models
  import Grouping

  /** Why a normaliser gives up on a whole table. */
  datatype IngestError =
    | MissingColumn(column: string)   // a required column is absent
    | NoColumns                       // the table has no first column
    | BadDate(column: string)         // a cell of the date column does not parse
    | BadNumber(column: string)       // a cost cell holds text
    | BadText(column: string)         // a service-name cell is not text

  type Period = (int, int)  // (year, month)

  function PeriodOf(r: CostRecord): Period
  {
    (r.year, r.month)
  }

  /** Every period in `ps` is the period of some record of `out`. */
  predicate EveryPeriodHasRow(ps: seq<Period>, out: seq<CostRecord>)
  {
    forall i :: 0 <= i < |ps| ==> exists j :: 0 <= j < |out| && PeriodOf(out[j]) == ps[i]
  }

  /** Every record of `out` has a period that occurs in `ps`. */
  predicate EveryRowHasPeriod(ps: seq<Period>, out: seq<CostRecord>)
  {
    forall j :: 0 <= j < |out| ==> exists i :: 0 <= i < |ps| && PeriodOf(out[j]) == ps[i]
  }

  // ---------------------------------------------------------------- detection

  /** Classifies a header by marker columns, first match wins. */
  function DetectProvider(columns: seq<string>): (p: Provider)
    ensures p == AZURE <==> "UsageDate" in columns
    ensures p == AWS <==> "UsageDate" !in columns && "Total costs($)" in columns
    ensures p == GCP <==> "UsageDate" !in columns && "Total costs($)" !in columns
                          && "Service description" in columns
    ensures p == SNOWFLAKE <==> "UsageDate" !in columns && "Total costs($)" !in columns
                                && "Service description" !in columns
  {
    if "UsageDate" in columns then AZURE
    else if "Total costs($)" in columns then AWS
    else if "Service description" in columns then GCP
    else SNOWFLAKE
  }

  // ------------------------------------------------------------ shared checks

  /** Every cell of column `col` parses as a date. */
  predicate DatesParse(rows: seq<Row>, col: string, parse: DateParser)
  {
    forall i :: 0 <= i < |rows| ==> parse(Get(rows[i], col)).Some?
  }

  /** The billing period of each row, read from its date column. */
  function Periods(rows: seq<Row>, col: string, parse: DateParser): (ps: seq<Period>)
    requires DatesParse(rows, col, parse)
    ensures |ps| == |rows|
    ensures forall i :: 0 <= i < |rows| ==>
      ps[i] == (parse(Get(rows[i], col)).value.year, parse(Get(rows[i], col)).value.month)
  {
    seq(|rows|, i requires 0 <= i < |rows| =>
      var d := parse(Get(rows[i], col)).value; (d.year, d.month))
  }

  // -------------------------------------------------------------------- Azure

  /** The rows that reach the grouping: a missing UsageDate parses to no
      date at all, and grouping by its year and month drops the row. */
  function AzureRows(t: Table): (rows: seq<Row>)
    ensures forall row :: row in rows <==> row in t.rows && Get(row, "UsageDate") != Empty
  {
    RowsWithout(t.rows, "UsageDate", Empty)
  }

  /** The (period, CostUSD) pair of each row. */
  function AzureEntries(rows: seq<Row>, parse: DateParser): (es: seq<(Period, real)>)
    requires DatesParse(rows, "UsageDate", parse) && Numeric(rows, "CostUSD")
    ensures |es| == |rows|
    ensures forall i :: 0 <= i < |rows| ==>
      es[i] == (Periods(rows, "UsageDate", parse)[i], Amount(Get(rows[i], "CostUSD")).value)
  {
    var ps := Periods(rows, "UsageDate", parse);
    seq(|rows|, i requires 0 <= i < |rows| => (ps[i], Amount(Get(rows[i], "CostUSD")).value))
  }

  function AzureRecords(g: seq<(Period, real)>, account: string): (r: seq<CostRecord>)
    ensures |r| == |g|
    ensures forall i :: 0 <= i < |g| ==>
      r[i] == CostRecord(AZURE, account, "ALL", g[i].0.0, g[i].0.1, g[i].1)
  {
    seq(|g|, i requires 0 <= i < |g| => CostRecord(AZURE, account, "ALL", g[i].0.0, g[i].0.1, g[i].1))
  }

  lemma {:induction false} AzureRecordsTotal(g: seq<(Period, real)>, account: string)
    ensures TotalCost(AzureRecords(g, account)) == Grouping.Total(g)
  {
    if g != [] {
      assert AzureRecords(g, account)[1..] == AzureRecords(g[1..], account);
      AzureRecordsTotal(g[1..], account);
    }
  }

  /** Parses UsageDate, groups the rows by (year, month) and sums CostUSD per
      group; every output row is tagged AZURE, the given account and the
      service "ALL". A row without a UsageDate falls out of the grouping; a
      date that does not parse, or a missing column, fails the whole call. */
  function NormalizeAzure(t: Table, account: string, parse: DateParser): (r: Result<seq<CostRecord>, IngestError>)
    ensures "UsageDate" !in t.columns ==> r == Err(MissingColumn("UsageDate"))
    ensures "UsageDate" in t.columns && !DatesParse(AzureRows(t), "UsageDate", parse) ==>
      r == Err(BadDate("UsageDate"))
    ensures r.Ok? <==> "UsageDate" in t.columns && "CostUSD" in t.columns &&
                       DatesParse(AzureRows(t), "UsageDate", parse) && Numeric(AzureRows(t), "CostUSD")
    ensures r.Ok? ==> forall i :: 0 <= i < |r.value| ==>
      r.value[i].provider == AZURE && r.value[i].account == account && r.value[i].service == "ALL"
    // one output row per month, never two
    ensures r.Ok? ==> UniqueKeys(r.value)
  {
    if "UsageDate" !in t.columns then Err(MissingColumn("UsageDate"))
    else if !DatesParse(AzureRows(t), "UsageDate", parse) then Err(BadDate("UsageDate"))
    else if "CostUSD" !in t.columns then Err(MissingColumn("CostUSD"))
    else if !Numeric(AzureRows(t), "CostUSD") then Err(BadNumber("CostUSD"))
    else
      AzureGroupedUnique(t, account, parse);
      Ok(AzureGrouped(t, account, parse))
  }

  /** Azure output has exactly one row per month of the input: every input
      row's month has a row, and every row is the month of some input row. */
  lemma AzureOneRowPerMonth(t: Table, account: string, parse: DateParser)
    requires NormalizeAzure(t, account, parse).Ok?
    ensures UniqueKeys(NormalizeAzure(t, account, parse).value)
    ensures EveryPeriodHasRow(Periods(AzureRows(t), "UsageDate", parse), NormalizeAzure(t, account, parse).value)
    ensures EveryRowHasPeriod(Periods(AzureRows(t), "UsageDate", parse), NormalizeAzure(t, account, parse).value)
  {
    AzureGroupedPeriods(t, account, parse);
  }

  /** Each Azure row's amount is the sum of CostUSD over the input rows of its month. */
  lemma AzureMonthSums(t: Table, account: string, parse: DateParser)
    requires NormalizeAzure(t, account, parse).Ok?
    ensures var out := NormalizeAzure(t, account, parse).value;
      forall j :: 0 <= j < |out| ==>
        out[j].cost == Grouping.SumFor(AzureEntries(AzureRows(t), parse), PeriodOf(out[j]))
  {
    AzureGroupedSums(t, account, parse);
  }

  /** Azure normalisation neither loses nor invents cost. */
  lemma AzureConservesTotal(t: Table, account: string, parse: DateParser)
    requires NormalizeAzure(t, account, parse).Ok?
    ensures TotalCost(NormalizeAzure(t, account, parse).value) == Grouping.Total(AzureEntries(AzureRows(t), parse))
  {
    AzureGroupedTotal(t, account, parse);
  }

  /** The grouped Azure records, before any error checks. */
  function AzureGrouped(t: Table, account: string, parse: DateParser): seq<CostRecord>
    requires DatesParse(AzureRows(t), "UsageDate", parse) && Numeric(AzureRows(t), "CostUSD")
  {
    AzureRecords(Grouping.GroupSum(AzureEntries(AzureRows(t), parse)), account)
  }

  lemma AzureGroupedUnique(t: Table, account: string, parse: DateParser)
    requires DatesParse(AzureRows(t), "UsageDate", parse) && Numeric(AzureRows(t), "CostUSD")
    ensures UniqueKeys(AzureGrouped(t, account, parse))
  {
    AzureRecordsUnique(Grouping.GroupSum(AzureEntries(AzureRows(t), parse)), account);
  }

  lemma AzureGroupedTotal(t: Table, account: string, parse: DateParser)
    requires DatesParse(AzureRows(t), "UsageDate", parse) && Numeric(AzureRows(t), "CostUSD")
    ensures TotalCost(AzureGrouped(t, account, parse)) == Grouping.Total(AzureEntries(AzureRows(t), parse))
  {
    AzureRecordsTotal(Grouping.GroupSum(AzureEntries(AzureRows(t), parse)), account);
  }

  lemma AzureGroupedSums(t: Table, account: string, parse: DateParser)
    requires DatesParse(AzureRows(t), "UsageDate", parse) && Numeric(AzureRows(t), "CostUSD")
    ensures var out := AzureGrouped(t, account, parse);
      forall j :: 0 <= j < |out| ==>
        out[j].cost == Grouping.SumFor(AzureEntries(AzureRows(t), parse), PeriodOf(out[j]))
  {
    var es := AzureEntries(AzureRows(t), parse);
    assert AzureGrouped(t, account, parse) == AzureRecords(Grouping.GroupSum(es), account);
    AzureRecordsSums(es, account);
  }

  lemma AzureGroupedPeriods(t: Table, account: string, parse: DateParser)
    requires DatesParse(AzureRows(t), "UsageDate", parse) && Numeric(AzureRows(t), "CostUSD")
    ensures EveryPeriodHasRow(Periods(AzureRows(t), "UsageDate", parse), AzureGrouped(t, account, parse))
    ensures EveryRowHasPeriod(Periods(AzureRows(t), "UsageDate", parse), AzureGrouped(t, account, parse))
  {
    var es := AzureEntries(AzureRows(t), parse);
    AzureRecordsPeriods(es, Periods(AzureRows(t), "UsageDate", parse), account);
  }

  lemma AzureRecordsPeriods(es: seq<(Period, real)>, ps: seq<Period>, account: string)
    requires |ps| == |es| && forall i :: 0 <= i < |es| ==> ps[i] == es[i].0
    ensures EveryPeriodHasRow(ps, AzureRecords(Grouping.GroupSum(es), account))
    ensures EveryRowHasPeriod(ps, AzureRecords(Grouping.GroupSum(es), account))
  {
    AzureRecordsCover(es, ps, account);
    AzureRecordsFrom(es, ps, account);
  }

  lemma AzureRecordsCover(es: seq<(Period, real)>, ps: seq<Period>, account: string)
    requires |ps| == |es| && forall i :: 0 <= i < |es| ==> ps[i] == es[i].0
    ensures EveryPeriodHasRow(ps, AzureRecords(Grouping.GroupSum(es), account))
  {
    var g := Grouping.GroupSum(es);
    var out := AzureRecords(g, account);
    forall i | 0 <= i < |ps|
      ensures exists j :: 0 <= j < |out| && PeriodOf(out[j]) == ps[i]
    {
      Grouping.KeyAtPositionIn(es, i);
      var j := Grouping.KeyPosition(g, es[i].0);
      assert PeriodOf(out[j]) == g[j].0;
    }
  }

  lemma AzureRecordsFrom(es: seq<(Period, real)>, ps: seq<Period>, account: string)
    requires |ps| == |es| && forall i :: 0 <= i < |es| ==> ps[i] == es[i].0
    ensures EveryRowHasPeriod(ps, AzureRecords(Grouping.GroupSum(es), account))
  {
    var g := Grouping.GroupSum(es);
    var out := AzureRecords(g, account);
    forall j | 0 <= j < |out|
      ensures exists i :: 0 <= i < |ps| && PeriodOf(out[j]) == ps[i]
    {
      Grouping.KeyAtPositionIn(g, j);
      var i := Grouping.KeyPosition(es, g[j].0);
      assert PeriodOf(out[j]) == g[j].0;
    }
  }

  lemma AzureRecordsUnique(g: seq<(Period, real)>, account: string)
    requires Grouping.DistinctKeys(g)
    ensures UniqueKeys(AzureRecords(g, account))
  {
    var out := AzureRecords(g, account);
    forall i, j | 0 <= i < j < |out| ensures KeyOf(out[i]) != KeyOf(out[j]) {
      assert g[i].0 != g[j].0;
    }
  }

  lemma AzureRecordsSums(es: seq<(Period, real)>, account: string)
    ensures var out := AzureRecords(Grouping.GroupSum(es), account);
      forall j :: 0 <= j < |out| ==> out[j].cost == Grouping.SumFor(es, PeriodOf(out[j]))
  {
    var g := Grouping.GroupSum(es);
    var out := AzureRecords(g, account);
    forall j | 0 <= j < |out| ensures out[j].cost == Grouping.SumFor(es, PeriodOf(out[j])) {
      Grouping.LookupAt(g, j);
      assert PeriodOf(out[j]) == g[j].0;
    }
  }

  // ---------------------------------------------------------------------- AWS

  const Marker := "($)"

  /** Every occurrence of "($)" removed, scanning left to right as string
      replacement does. */
  function RemoveMarker(s: string): (r: string)
    ensures |r| <= |s|
  {
    if |s| < 3 then s
    else if s[..3] == Marker then RemoveMarker(s[3..])
    else [s[0]] + RemoveMarker(s[1..])
  }

  /** A trailing marker is removed: it never combines with the characters
      before it into an earlier occurrence. */
  lemma {:induction false} RemoveTrailingMarker(s: string)
    ensures RemoveMarker(s + Marker) == RemoveMarker(s)
  {
    var sm := s + Marker;
    if |s| >= 3 {
      assert sm[..3] == s[..3];
      if s[..3] == Marker {
        assert sm[3..] == s[3..] + Marker;
        RemoveTrailingMarker(s[3..]);
      } else {
        assert sm[1..] == s[1..] + Marker;
        RemoveTrailingMarker(s[1..]);
      }
    } else if |s| == 0 {
      assert sm == Marker;
      assert sm[3..] == "";
    } else if |s| == 1 {
      assert sm[..3] != Marker by { assert sm[1] == '(' && Marker[1] == '$'; }
      assert sm[1..] == Marker;
      assert sm[1..][3..] == "";
    } else {
      assert sm[..3] != Marker by { assert sm[2] == '(' && Marker[2] == ')'; }
      assert sm[1..] == [s[1]] + Marker;
      assert sm[1..][..3] != Marker by { assert sm[1..][1] == '(' && Marker[1] == '$'; }
      assert sm[1..][1..] == Marker;
      assert sm[1..][1..][3..] == "";
    }
  }

  /** A name without an opening parenthesis is left alone. */
  lemma {:induction false} RemoveMarkerNoParen(s: string)
    requires '(' !in s
    ensures RemoveMarker(s) == s
  {
    if |s| >= 3 {
      assert s[0] != '(';
      assert s[..3] != Marker by { assert s[..3][0] == s[0]; }
      assert '(' !in s[1..] by {
        forall k | 0 <= k < |s[1..]| ensures s[1..][k] != '(' { assert s[1..][k] == s[k + 1]; }
      }
      RemoveMarkerNoParen(s[1..]);
      assert s == [s[0]] + s[1..];
    }
  }

  /** The AWS total column is melted as a service called "Total costs". */
  lemma TotalCostsColumnService()
    ensures EndsWith("Total costs($)", Marker)
    ensures RemoveMarker("Total costs($)") == "Total costs"
  {
    assert "Total costs($)" == "Total costs" + Marker;
    RemoveTrailingMarker("Total costs");
    RemoveMarkerNoParen("Total costs");
  }

  /** A first character other than "(" cannot start a marker: it is kept
      and the scan moves on. */
  lemma RemoveMarkerPlainHead(s: string)
    requires |s| > 0 && s[0] != '('
    ensures RemoveMarker(s) == [s[0]] + RemoveMarker(s[1..])
  {
    if |s| >= 3 {
      assert s[..3] != Marker by { assert s[..3][0] == s[0]; }
    } else {
      assert s == [s[0]] + s[1..];
    }
  }

  /** A leading stretch without an opening parenthesis passes through unchanged. */
  lemma {:induction false} RemoveMarkerPlainPrefix(a: string, s: string)
    requires '(' !in a
    ensures RemoveMarker(a + s) == a + RemoveMarker(s)
  {
    if a != [] {
      var full := a + s;
      assert a[0] in a;
      assert full[0] == a[0];
      assert full[1..] == a[1..] + s;
      assert '(' !in a[1..] by {
        forall k | 0 <= k < |a[1..]| ensures a[1..][k] != '(' { assert a[1..][k] in a; }
      }
      RemoveMarkerPlainPrefix(a[1..], s);
      RemoveMarkerPlainHead(full);
      assert a == [a[0]] + a[1..];
    } else {
      assert a + s == s;
    }
  }

  /** A leading marker is removed and the scan resumes right after it. */
  lemma RemoveLeadingMarker(s: string)
    ensures RemoveMarker(Marker + s) == RemoveMarker(s)
  {
    var ms := Marker + s;
    assert ms[..3] == Marker && ms[3..] == s;
  }

  /** Every occurrence goes, not only the trailing one: a name with a
      marker in the middle and one at the end loses both. */
  lemma RemovesEveryOccurrence(a: string, b: string)
    requires '(' !in a && '(' !in b
    ensures RemoveMarker(a + Marker + b + Marker) == a + b
  {
    var tail := Marker + b + Marker;
    assert a + Marker + b + Marker == a + tail;
    RemoveMarkerPlainPrefix(a, tail);
    assert tail == Marker + (b + Marker);
    RemoveLeadingMarker(b + Marker);
    RemoveTrailingMarker(b);
    RemoveMarkerNoParen(b);
  }

  predicate IsServiceColumn(c: string)
  {
    EndsWith(c, Marker)
  }

  /** The label of the AWS subtotal row, found in its first column. */
  const SubtotalLabel := "Service total"

  /** The row does not carry the subtotal label in its first column. */
  predicate NotSubtotal(row: Row, first: string)
  {
    CellIsNot(row, first, Text(SubtotalLabel))
  }

  /** One melted cell: a (date, service column) pair and its value. */
  datatype MeltCell = MeltCell(period: Period, column: string, value: Cell)

  /** The cells of one service column, in row order. */
  function MeltColumn(c: string, rows: seq<Row>, ps: seq<Period>): (r: seq<MeltCell>)
    requires |ps| == |rows|
    ensures |r| == |rows|
    ensures forall i :: 0 <= i < |rows| ==> r[i] == MeltCell(ps[i], c, Get(rows[i], c))
  {
    seq(|rows|, i requires 0 <= i < |rows| => MeltCell(ps[i], c, Get(rows[i], c)))
  }

  /** Wide to long: column after column, each column's cells in row order. */
  function Melt(cols: seq<string>, rows: seq<Row>, ps: seq<Period>): (r: seq<MeltCell>)
    requires |ps| == |rows|
    ensures |r| == |cols| * |rows|
  {
    if cols == [] then []
    else
      var r := MeltColumn(cols[0], rows, ps) + Melt(cols[1..], rows, ps);
      assert |r| == |rows| + (|cols| - 1) * |rows|;
      r
  }

  /** Every melted cell comes from one row and one of the melted columns. */
  lemma {:induction false} MeltFrom(cols: seq<string>, rows: seq<Row>, ps: seq<Period>, m: MeltCell)
    requires |ps| == |rows| && m in Melt(cols, rows, ps)
    ensures exists i, c :: 0 <= i < |rows| && c in cols && m == MeltCell(ps[i], c, Get(rows[i], c))
  {
    if m in MeltColumn(cols[0], rows, ps) {
      var i :| 0 <= i < |rows| && MeltColumn(cols[0], rows, ps)[i] == m;
      assert cols[0] in cols && m == MeltCell(ps[i], cols[0], Get(rows[i], cols[0]));
    } else {
      MeltFrom(cols[1..], rows, ps, m);
      var i, c :| 0 <= i < |rows| && c in cols[1..] && m == MeltCell(ps[i], c, Get(rows[i], c));
      assert c in cols;
    }
  }

  /** Every (row, column) pair has its melted cell. */
  lemma {:induction false} MeltHas(cols: seq<string>, rows: seq<Row>, ps: seq<Period>, i: nat, c: string)
    requires |ps| == |rows| && i < |rows| && c in cols
    ensures MeltCell(ps[i], c, Get(rows[i], c)) in Melt(cols, rows, ps)
  {
    if c == cols[0] {
      assert MeltColumn(cols[0], rows, ps)[i] == MeltCell(ps[i], c, Get(rows[i], c));
    } else {
      MeltHas(cols[1..], rows, ps, i, c);
    }
  }

  predicate IsPositive(c: Cell)
  {
    c.Num? && c.n > 0.0
  }

  /** The melted cells with a positive amount, in order. */
  function PositiveCells(ms: seq<MeltCell>): (r: seq<MeltCell>)
    ensures |r| <= |ms|
    ensures forall p :: 0 <= p < |r| ==> IsPositive(r[p].value)
  {
    if ms == [] then []
    else (if IsPositive(ms[0].value) then [ms[0]] else []) + PositiveCells(ms[1..])
  }

  /** Each positive cell is kept exactly as often as it occurs. */
  lemma {:induction false} PositiveCellsCounts(ms: seq<MeltCell>)
    ensures forall m :: multiset(PositiveCells(ms))[m] == (if IsPositive(m.value) then multiset(ms)[m] else 0)
  {
    if ms != [] {
      assert ms == [ms[0]] + ms[1..];
      PositiveCellsCounts(ms[1..]);
    }
  }

  /** Two positive cells at positions a < b are kept at positions p < q. */
  lemma {:induction false} PositiveCellsKeepTwo(ms: seq<MeltCell>, a: nat, b: nat) returns (p: nat, q: nat)
    requires a < b < |ms| && IsPositive(ms[a].value) && IsPositive(ms[b].value)
    ensures p < q < |PositiveCells(ms)| && PositiveCells(ms)[p] == ms[a] && PositiveCells(ms)[q] == ms[b]
  {
    var rest := PositiveCells(ms[1..]);
    var head: seq<MeltCell> := if IsPositive(ms[0].value) then [ms[0]] else [];
    assert PositiveCells(ms) == head + rest;
    assert ms[1..][b - 1] == ms[b];
    if a == 0 {
      var q' := PositiveCellsKeepOne(ms[1..], b - 1);
      assert head == [ms[0]];
      assert (head + rest)[0] == ms[0];
      assert (head + rest)[q' + 1] == rest[q'];
      p, q := 0, q' + 1;
    } else {
      assert ms[1..][a - 1] == ms[a];
      var p', q' := PositiveCellsKeepTwo(ms[1..], a - 1, b - 1);
      assert (head + rest)[|head| + p'] == rest[p'];
      assert (head + rest)[|head| + q'] == rest[q'];
      p, q := |head| + p', |head| + q';
    }
  }

  /** A positive cell at position b is kept at some position q. */
  lemma {:induction false} PositiveCellsKeepOne(ms: seq<MeltCell>, b: nat) returns (q: nat)
    requires b < |ms| && IsPositive(ms[b].value)
    ensures q < |PositiveCells(ms)| && PositiveCells(ms)[q] == ms[b]
  {
    var rest := PositiveCells(ms[1..]);
    var head: seq<MeltCell> := if IsPositive(ms[0].value) then [ms[0]] else [];
    assert PositiveCells(ms) == head + rest;
    if b == 0 {
      q := 0;
    } else {
      assert ms[1..][b - 1] == ms[b];
      q := PositiveCellsKeepOne(ms[1..], b - 1);
      q := |head| + q;
    }
  }

  function AwsRecord(m: MeltCell, account: string): CostRecord
    requires m.value.Num?
  {
    CostRecord(AWS, account, RemoveMarker(m.column), m.period.0, m.period.1, m.value.n)
  }

  /** The melted cells with a positive amount, as cost records, in order. */
  function PositiveRecords(ms: seq<MeltCell>, account: string): (r: seq<CostRecord>)
    ensures |r| <= |ms|
    ensures forall x :: x in r ==> exists m :: m in ms && IsPositive(m.value) && x == AwsRecord(m, account)
    ensures forall m :: m in ms && IsPositive(m.value) ==> AwsRecord(m, account) in r
  {
    if ms == [] then []
    else
      var rest := PositiveRecords(ms[1..], account);
      assert forall m :: m in ms[1..] ==> m in ms;
      assert forall m :: m in ms ==> m == ms[0] || m in ms[1..];
      (if IsPositive(ms[0].value) then [AwsRecord(ms[0], account)] else []) + rest
  }

  /** One record per positive cell, in order: the p-th record is built from
      the p-th positive cell. */
  lemma {:induction false} PositiveRecordsPointwise(ms: seq<MeltCell>, account: string)
    ensures |PositiveRecords(ms, account)| == |PositiveCells(ms)|
    ensures forall p :: 0 <= p < |PositiveCells(ms)| ==>
      PositiveCells(ms)[p].value.Num? && PositiveRecords(ms, account)[p] == AwsRecord(PositiveCells(ms)[p], account)
  {
    if ms != [] {
      PositiveRecordsPointwise(ms[1..], account);
    }
  }

  /** Record `x` is what the cell of `row` in service column `c` turns into:
      the row is not the subtotal, its date parses, the column name ends in
      "($)" and the cell holds the record's (positive) amount. */
  predicate FromCell(x: CostRecord, row: Row, c: string, first: string, account: string, parse: DateParser)
  {
    && NotSubtotal(row, first)
    && EndsWith(c, Marker)
    && Get(row, c) == Num(x.cost)
    && x.cost > 0.0
    && parse(Get(row, first)).Some?
    && x == CostRecord(AWS, account, RemoveMarker(c),
                       parse(Get(row, first)).value.year, parse(Get(row, first)).value.month, x.cost)
  }

  /** No melted cell holds text. */
  predicate MeltNumeric(ms: seq<MeltCell>)
  {
    forall k :: 0 <= k < |ms| ==> !ms[k].value.Text?
  }

  /** The rows the AWS normaliser keeps: every row but the subtotal. */
  function AwsRows(t: Table): seq<Row>
    requires |t.columns| > 0
  {
    RowsWithout(t.rows, t.columns[0], Text(SubtotalLabel))
  }

  /** The melted columns: those after the first whose name ends in "($)"
      (the first column is renamed to "date" before the selection). */
  function AwsServiceColumns(t: Table): (cs: seq<string>)
    requires |t.columns| > 0
    ensures forall c :: c in cs <==> c in t.columns[1..] && EndsWith(c, Marker)
  {
    Filter(t.columns[1..], IsServiceColumn)
  }

  /** Drops the subtotal row, parses the first column as the date, melts the
      "($)" columns into one row per (date, column) pair named after the
      column with every "($)" removed, and keeps only positive amounts. */
  function NormalizeAws(t: Table, account: string, parse: DateParser): (r: Result<seq<CostRecord>, IngestError>)
    ensures |t.columns| == 0 ==> r == Err(NoColumns)
    ensures r.Ok? <==> (
      && |t.columns| > 0
      && DatesParse(AwsRows(t), t.columns[0], parse)
      && MeltNumeric(Melt(AwsServiceColumns(t), AwsRows(t), Periods(AwsRows(t), t.columns[0], parse))))
    ensures r.Ok? ==> forall i :: 0 <= i < |r.value| ==>
      r.value[i].provider == AWS && r.value[i].account == account && r.value[i].cost > 0.0
    // at most one row per kept row and service column
    ensures r.Ok? ==> |r.value| <= |AwsRows(t)| * |AwsServiceColumns(t)|
    // every output row comes from a non-subtotal input row and a "($)" column
    ensures r.Ok? ==> forall x :: x in r.value ==>
      exists row, c :: FromCell(x, row, c, t.columns[0], account, parse) && row in t.rows && c in t.columns[1..]
    // every positive cell of a kept row in a "($)" column has its own output row
    ensures r.Ok? ==> forall i, c ::
      (0 <= i < |AwsRows(t)| && c in AwsServiceColumns(t) && IsPositive(Get(AwsRows(t)[i], c))) ==>
        CostRecord(AWS, account, RemoveMarker(c),
                   Periods(AwsRows(t), t.columns[0], parse)[i].0,
                   Periods(AwsRows(t), t.columns[0], parse)[i].1,
                   Get(AwsRows(t)[i], c).n) in r.value
  {
    if |t.columns| == 0 then Err(NoColumns)
    else
      var first := t.columns[0];
      var rows := AwsRows(t);
      if !DatesParse(rows, first, parse) then Err(BadDate("date"))
      else
        var ps := Periods(rows, first, parse);
        var cols := AwsServiceColumns(t);
        var ms := Melt(cols, rows, ps);
        if !MeltNumeric(ms) then Err(BadNumber("cost_amount"))
        else
          var out := PositiveRecords(ms, account);
          AwsProvenance(t, account, parse, out);
          AwsCompleteness(t, account, parse, out);
          assert |out| <= |rows| * |cols|;
          Ok(out)
  }

  /** The melted cell of kept row i in service column k sits at position
      k * |rows| + i: melting goes column after column. */
  lemma {:induction false} MeltAt(cols: seq<string>, rows: seq<Row>, ps: seq<Period>, k: nat, i: nat) returns (n: nat)
    requires |ps| == |rows| && k < |cols| && i < |rows|
    ensures n == k * |rows| + i && n < |Melt(cols, rows, ps)|
    ensures Melt(cols, rows, ps)[n] == MeltCell(ps[i], cols[k], Get(rows[i], cols[k]))
  {
    if k == 0 {
      n := i;
    } else {
      var m := MeltAt(cols[1..], rows, ps, k - 1, i);
      assert k * |rows| == |rows| + (k - 1) * |rows|;
      n := |rows| + m;
    }
  }

  /** The output holds one record per positive melted cell, in melt order. */
  lemma AwsOnePerPositiveCell(t: Table, account: string, parse: DateParser)
    requires NormalizeAws(t, account, parse).Ok?
    ensures var ms := Melt(AwsServiceColumns(t), AwsRows(t), Periods(AwsRows(t), t.columns[0], parse));
      && |NormalizeAws(t, account, parse).value| == |PositiveCells(ms)|
      && forall p :: 0 <= p < |PositiveCells(ms)| ==>
           PositiveCells(ms)[p].value.Num? &&
           NormalizeAws(t, account, parse).value[p] == AwsRecord(PositiveCells(ms)[p], account)
  {
    var ms := Melt(AwsServiceColumns(t), AwsRows(t), Periods(AwsRows(t), t.columns[0], parse));
    assert NormalizeAws(t, account, parse).value == PositiveRecords(ms, account);
    PositiveRecordsPointwise(ms, account);
  }

  /** Records p < q of `out` share a key and carry the costs `x` and `y`. */
  predicate TwoRecordsOneKey(out: seq<CostRecord>, p: int, q: int, x: real, y: real)
  {
    0 <= p < q < |out| && out[p].cost == x && out[q].cost == y && KeyOf(out[p]) == KeyOf(out[q])
  }

  /** Nothing merges the records of one month: two kept rows dated in the same
      month with positive costs in one service column give two records with
      the same key. */
  lemma AwsSameMonthTwoRecords(t: Table, account: string, parse: DateParser, i: nat, j: nat, c: string)
    requires NormalizeAws(t, account, parse).Ok?
    requires i < j < |AwsRows(t)| && c in AwsServiceColumns(t)
    requires Periods(AwsRows(t), t.columns[0], parse)[i] == Periods(AwsRows(t), t.columns[0], parse)[j]
    requires IsPositive(Get(AwsRows(t)[i], c)) && IsPositive(Get(AwsRows(t)[j], c))
    ensures exists p, q :: TwoRecordsOneKey(NormalizeAws(t, account, parse).value, p, q,
                                            Get(AwsRows(t)[i], c).n, Get(AwsRows(t)[j], c).n)
  {
    var rows := AwsRows(t);
    var ps := Periods(rows, t.columns[0], parse);
    var cols := AwsServiceColumns(t);
    assert NormalizeAws(t, account, parse).value == PositiveRecords(Melt(cols, rows, ps), account);
    var k :| 0 <= k < |cols| && cols[k] == c;
    var p, q := MeltSameMonth(cols, rows, ps, account, i, j, k);
  }

  /** The melting step of the lemma above, on the kept rows and their periods. */
  lemma MeltSameMonth(cols: seq<string>, rows: seq<Row>, ps: seq<Period>, account: string, i: nat, j: nat, k: nat)
    returns (p: nat, q: nat)
    requires |ps| == |rows| && i < j < |rows| && k < |cols| && ps[i] == ps[j]
    requires IsPositive(Get(rows[i], cols[k])) && IsPositive(Get(rows[j], cols[k]))
    ensures TwoRecordsOneKey(PositiveRecords(Melt(cols, rows, ps), account), p, q,
                             Get(rows[i], cols[k]).n, Get(rows[j], cols[k]).n)
  {
    var ms := Melt(cols, rows, ps);
    var out := PositiveRecords(ms, account);
    var a := MeltAt(cols, rows, ps, k, i);
    var b := MeltAt(cols, rows, ps, k, j);
    assert a < b;
    p, q := PositiveCellsKeepTwo(ms, a, b);
    PositiveRecordsPointwise(ms, account);
    assert out[p] == AwsRecord(ms[a], account);
    assert out[q] == AwsRecord(ms[b], account);
    assert out[p].cost == Get(rows[i], cols[k]).n;
    assert out[q].cost == Get(rows[j], cols[k]).n;
    assert KeyOf(out[p]) == KeyOf(out[q]);
  }

  lemma AwsProvenance(t: Table, account: string, parse: DateParser, out: seq<CostRecord>)
    requires |t.columns| > 0 && DatesParse(AwsRows(t), t.columns[0], parse)
    requires out == PositiveRecords(Melt(AwsServiceColumns(t), AwsRows(t),
                                         Periods(AwsRows(t), t.columns[0], parse)), account)
    ensures forall x :: x in out ==> x.provider == AWS && x.account == account && x.cost > 0.0
    ensures forall x :: x in out ==>
      exists row, c :: FromCell(x, row, c, t.columns[0], account, parse) && row in t.rows && c in t.columns[1..]
  {
    var first := t.columns[0];
    var rows := AwsRows(t);
    var ps := Periods(rows, first, parse);
    var cols := AwsServiceColumns(t);
    var ms := Melt(cols, rows, ps);
    forall x | x in out
      ensures x.provider == AWS && x.account == account && x.cost > 0.0
      ensures exists row, c :: FromCell(x, row, c, first, account, parse) && row in t.rows && c in t.columns[1..]
    {
      var m :| m in ms && IsPositive(m.value) && x == AwsRecord(m, account);
      MeltCellSource(t, account, parse, m);
    }
  }

  /** A positive melted cell comes from a non-subtotal row and a "($)" column. */
  lemma MeltCellSource(t: Table, account: string, parse: DateParser, m: MeltCell)
    requires |t.columns| > 0 && DatesParse(AwsRows(t), t.columns[0], parse)
    requires m in Melt(AwsServiceColumns(t), AwsRows(t), Periods(AwsRows(t), t.columns[0], parse))
    requires IsPositive(m.value)
    ensures exists row, c :: FromCell(AwsRecord(m, account), row, c, t.columns[0], account, parse) &&
                             row in t.rows && c in t.columns[1..]
  {
    var first := t.columns[0];
    var rows := AwsRows(t);
    var ps := Periods(rows, first, parse);
    var cols := AwsServiceColumns(t);
    MeltFrom(cols, rows, ps, m);
    var i, c :| 0 <= i < |rows| && c in cols && m == MeltCell(ps[i], c, Get(rows[i], c));
    var row := rows[i];
    assert row in rows;
    assert FromCell(AwsRecord(m, account), row, c, first, account, parse);
  }

  lemma AwsCompleteness(t: Table, account: string, parse: DateParser, out: seq<CostRecord>)
    requires |t.columns| > 0 && DatesParse(AwsRows(t), t.columns[0], parse)
    requires out == PositiveRecords(Melt(AwsServiceColumns(t), AwsRows(t),
                                         Periods(AwsRows(t), t.columns[0], parse)), account)
    ensures forall i, c ::
      (0 <= i < |AwsRows(t)| && c in AwsServiceColumns(t) && IsPositive(Get(AwsRows(t)[i], c))) ==>
        CostRecord(AWS, account, RemoveMarker(c),
                   Periods(AwsRows(t), t.columns[0], parse)[i].0,
                   Periods(AwsRows(t), t.columns[0], parse)[i].1,
                   Get(AwsRows(t)[i], c).n) in out
  {
    var rows := AwsRows(t);
    var ps := Periods(rows, t.columns[0], parse);
    var cols := AwsServiceColumns(t);
    forall i, c | 0 <= i < |rows| && c in cols && IsPositive(Get(rows[i], c))
      ensures CostRecord(AWS, account, RemoveMarker(c), ps[i].0, ps[i].1, Get(rows[i], c).n) in out
    {
      MeltHas(cols, rows, ps, i, c);
      assert AwsRecord(MeltCell(ps[i], c, Get(rows[i], c)), account)
          == CostRecord(AWS, account, RemoveMarker(c), ps[i].0, ps[i].1, Get(rows[i], c).n);
    }
  }

  // ---------------------------------------------------------------------- GCP

  /** Maps each row to one record: service from "Service description", amount
      from "Subtotal ($)", and the period supplied by the caller. */
  function NormalizeGcp(t: Table, account: string, year: int, month: int): (r: Result<seq<CostRecord>, IngestError>)
    ensures "Service description" !in t.columns ==> r == Err(MissingColumn("Service description"))
    ensures r.Ok? <==> (
      && "Service description" in t.columns
      && "Subtotal ($)" in t.columns
      && (forall i :: 0 <= i < |t.rows| ==> Get(t.rows[i], "Service description").Text?)
      && Numeric(t.rows, "Subtotal ($)"))
    ensures r.Ok? ==> |r.value| == |t.rows|
    ensures r.Ok? ==> forall i :: 0 <= i < |t.rows| ==>
      r.value[i] == CostRecord(GCP, account, Get(t.rows[i], "Service description").s, year, month,
                               Amount(Get(t.rows[i], "Subtotal ($)")).value)
  {
    if "Service description" !in t.columns then Err(MissingColumn("Service description"))
    else if "Subtotal ($)" !in t.columns then Err(MissingColumn("Subtotal ($)"))
    else if !(forall i :: 0 <= i < |t.rows| ==> Get(t.rows[i], "Service description").Text?) then
      Err(BadText("Service description"))
    else if !Numeric(t.rows, "Subtotal ($)") then Err(BadNumber("Subtotal ($)"))
    else
      Ok(seq(|t.rows|, i requires 0 <= i < |t.rows| =>
        CostRecord(GCP, account, Get(t.rows[i], "Service description").s, year, month,
                   Amount(Get(t.rows[i], "Subtotal ($)")).value)))
  }
}
