/** Worked examples of the pipeline on small tables. */
module Scenarios {
  import opened Frames
  import opened Models
  import opened Ingest
  import Upload

  /** A date parser that knows one date. */
  function JanuaryFirst(c: Cell): Option<Date>
  {
    if c == Text("2025-01-01") then Some(Date(2025, 1, 1)) else None
  }

  const DatedRow: Row :=
    map["Service" := Text("2025-01-01"), "EC2($)" := Num(100.0), "S3($)" := Num(-5.0), "Total costs($)" := Num(95.0)]
  const TotalRow: Row :=
    map["Service" := Text("Service total"), "EC2($)" := Num(100.0), "S3($)" := Num(-5.0), "Total costs($)" := Num(95.0)]
  const AwsColumns := ["Service", "EC2($)", "S3($)", "Total costs($)"]
  const AwsExport := Table(AwsColumns, [DatedRow, TotalRow])

  /** The export is recognised as AWS by its "Total costs($)" column. */
  lemma AwsExampleDetected()
    ensures DetectProvider(AwsExport.columns) == AWS
  {
    assert AwsColumns[3] == "Total costs($)";
    assert "UsageDate" !in AwsColumns by {
      assert "UsageDate"[0] != "Service"[0];
      assert "UsageDate"[0] != "EC2($)"[0];
      assert "UsageDate"[0] != "S3($)"[0];
      assert "UsageDate"[0] != "Total costs($)"[0];
    }
  }

  lemma AwsExampleRows()
    ensures AwsRows(AwsExport) == [DatedRow]
  {
    var t := AwsExport;
    assert Get(DatedRow, "Service") == Text("2025-01-01");
    assert Get(TotalRow, "Service") == Text("Service total");
    assert CellIsNot(DatedRow, "Service", Text(SubtotalLabel)) by {
      assert "2025-01-01"[0] != SubtotalLabel[0];
    }
    assert t.rows[1..] == [TotalRow];
    assert RowsWithout([TotalRow], "Service", Text(SubtotalLabel)) == [] by {
      assert [TotalRow][1..] == [];
    }
  }

  /** A filter whose test every element passes keeps the whole list. */
  lemma {:induction false} FilterKeepsAll(xs: seq<string>, p: string -> bool)
    requires forall i :: 0 <= i < |xs| ==> p(xs[i])
    ensures Filter(xs, p) == xs
  {
    if xs != [] {
      FilterKeepsAll(xs[1..], p);
      assert xs == [xs[0]] + xs[1..];
    }
  }

  lemma AwsExampleColumns()
    ensures AwsServiceColumns(AwsExport) == ["EC2($)", "S3($)", "Total costs($)"]
  {
    var cs := AwsExport.columns[1..];
    assert cs == ["EC2($)", "S3($)", "Total costs($)"];
    assert IsServiceColumn(cs[0]) by { assert "EC2($)"[3..] == Marker; }
    assert IsServiceColumn(cs[1]) by { assert "S3($)"[2..] == Marker; }
    assert IsServiceColumn(cs[2]) by { TotalCostsColumnService(); }
    FilterKeepsAll(cs, IsServiceColumn);
  }

  lemma AwsExampleMelt()
    ensures DatesParse([DatedRow], "Service", JanuaryFirst)
    ensures Periods([DatedRow], "Service", JanuaryFirst) == [(2025, 1)]
    ensures Melt(["EC2($)", "S3($)", "Total costs($)"], [DatedRow], [(2025, 1)]) ==
      [MeltCell((2025, 1), "EC2($)", Num(100.0)), MeltCell((2025, 1), "S3($)", Num(-5.0)),
       MeltCell((2025, 1), "Total costs($)", Num(95.0))]
  {
    var ps := [(2025, 1)];
    assert Get(DatedRow, "Service") == Text("2025-01-01");
    assert Get(DatedRow, "EC2($)") == Num(100.0);
    assert Get(DatedRow, "S3($)") == Num(-5.0);
    assert Get(DatedRow, "Total costs($)") == Num(95.0);
    var cs := ["EC2($)", "S3($)", "Total costs($)"];
    assert cs[1..] == ["S3($)", "Total costs($)"];
    assert cs[1..][1..] == ["Total costs($)"];
    assert ["Total costs($)"][1..] == [];
    assert Melt(["Total costs($)"], [DatedRow], ps) == [MeltCell((2025, 1), "Total costs($)", Num(95.0))];
    assert Melt(cs[1..], [DatedRow], ps) ==
      [MeltCell((2025, 1), "S3($)", Num(-5.0)), MeltCell((2025, 1), "Total costs($)", Num(95.0))];
  }

  lemma EC2Service()
    ensures RemoveMarker("EC2($)") == "EC2"
  {
    assert "EC2($)"[..3] != Marker by { assert "EC2($)"[..3][0] == 'E'; }
    assert "EC2($)"[1..] == "C2($)";
    assert "C2($)"[..3] != Marker by { assert "C2($)"[..3][0] == 'C'; }
    assert "C2($)"[1..] == "2($)";
    assert "2($)"[..3] != Marker by { assert "2($)"[..3][0] == '2'; }
    assert "2($)"[1..] == "($)";
    assert "($)"[3..] == "";
  }

  /** The melted cells of the export. */
  const AwsCells := [MeltCell((2025, 1), "EC2($)", Num(100.0)), MeltCell((2025, 1), "S3($)", Num(-5.0)),
                     MeltCell((2025, 1), "Total costs($)", Num(95.0))]

  /** The records the export should yield. */
  const AwsOut := [CostRecord(AWS, "acct1", "EC2", 2025, 1, 100.0), CostRecord(AWS, "acct1", "Total costs", 2025, 1, 95.0)]

  lemma AwsExampleMeltOfExport()
    ensures |AwsExport.columns| > 0 && DatesParse(AwsRows(AwsExport), AwsExport.columns[0], JanuaryFirst)
    ensures Melt(AwsServiceColumns(AwsExport), AwsRows(AwsExport),
                 Periods(AwsRows(AwsExport), AwsExport.columns[0], JanuaryFirst)) == AwsCells
  {
    AwsExampleRows();
    AwsExampleColumns();
    AwsExampleMelt();
    assert AwsExport.columns[0] == "Service";
  }

  lemma AwsExampleLastCell()
    ensures PositiveRecords([AwsCells[2]], "acct1") == [AwsOut[1]]
  {
    TotalCostsColumnService();
    assert [AwsCells[2]][1..] == [];
  }

  lemma AwsExampleTail()
    ensures PositiveRecords(AwsCells[1..], "acct1") == [AwsOut[1]]
  {
    AwsExampleLastCell();
    var ms := AwsCells[1..];
    assert ms == [AwsCells[1], AwsCells[2]];
    assert ms[1..] == [AwsCells[2]];
    assert !IsPositive(ms[0].value);
  }

  lemma AwsExampleRecords()
    ensures MeltNumeric(AwsCells)
    ensures PositiveRecords(AwsCells, "acct1") == AwsOut
  {
    EC2Service();
    AwsExampleTail();
    var ms := AwsCells;
    assert ms[0].value == Num(100.0) && ms[1].value == Num(-5.0) && ms[2].value == Num(95.0);
    assert IsPositive(ms[0].value) && AwsRecord(ms[0], "acct1") == AwsOut[0];
    assert PositiveRecords(ms, "acct1") == [AwsOut[0]] + PositiveRecords(ms[1..], "acct1");
  }

  /** One dated AWS row with a positive and a negative service column and
      the total column, plus the subtotal row: the positive cells become
      records named without their marker, the total column among them. */
  lemma AwsExample()
    ensures NormalizeAws(AwsExport, "acct1", JanuaryFirst) ==
      Ok([CostRecord(AWS, "acct1", "EC2", 2025, 1, 100.0), CostRecord(AWS, "acct1", "Total costs", 2025, 1, 95.0)])
  {
    AwsExampleMeltOfExport();
    AwsExampleRecords();
  }

  /** The upload endpoint dispatches the export to the AWS normaliser, and the
      normalised frame, with its "date" column, cannot be staged. */
  lemma AwsExampleUpload()
    ensures Upload.Normalize(AwsExport, "acct1", JanuaryFirst) ==
      Some(Ok([CostRecord(AWS, "acct1", "EC2", 2025, 1, 100.0), CostRecord(AWS, "acct1", "Total costs", 2025, 1, 95.0)]))
    ensures !(Upload.NormalizedColumns(DetectProvider(AwsExport.columns)) <= Upload.RecordFields)
  {
    AwsExampleDetected();
    AwsExample();
    var t := AwsExport;
    assert DetectProvider(t.columns) == AWS;
    var n := Upload.Normalize(t, "acct1", JanuaryFirst);
    assert n == Some(NormalizeAws(t, "acct1", JanuaryFirst));
    Upload.DateNotARecordField();
  }

  /** A date parser that knows two January days. */
  function TwoJanuaryDays(c: Cell): Option<Date>
  {
    if c == Text("2025-01-05") then Some(Date(2025, 1, 5))
    else if c == Text("2025-01-20") then Some(Date(2025, 1, 20))
    else None
  }

  const EarlyUsage: Row := map["UsageDate" := Text("2025-01-05"), "CostUSD" := Num(50.0)]
  const LateUsage: Row := map["UsageDate" := Text("2025-01-20"), "CostUSD" := Num(70.0)]
  const AzureExport := Table(["UsageDate", "CostUSD"], [EarlyUsage, LateUsage])

  lemma AzureExampleRows()
    ensures AzureRows(AzureExport) == AzureExport.rows
  {
    assert Get(EarlyUsage, "UsageDate") == Text("2025-01-05");
    assert Get(LateUsage, "UsageDate") == Text("2025-01-20");
    assert AzureExport.rows[1..] == [LateUsage];
    assert AzureExport.rows[1..][1..] == [];
  }

  lemma AzureExampleEntries()
    ensures DatesParse(AzureExport.rows, "UsageDate", TwoJanuaryDays) && Numeric(AzureExport.rows, "CostUSD")
    ensures AzureEntries(AzureExport.rows, TwoJanuaryDays) == [((2025, 1), 50.0), ((2025, 1), 70.0)]
  {
    assert Get(EarlyUsage, "UsageDate") == Text("2025-01-05");
    assert Get(LateUsage, "UsageDate") == Text("2025-01-20");
    assert Text("2025-01-20") != Text("2025-01-05") by { assert "2025-01-20"[8] != "2025-01-05"[8]; }
    assert Get(EarlyUsage, "CostUSD") == Num(50.0);
    assert Get(LateUsage, "CostUSD") == Num(70.0);
  }

  /** Two usage rows of one month become one record holding their sum. */
  lemma AzureExample()
    ensures NormalizeAzure(AzureExport, "acct2", TwoJanuaryDays) == Ok([CostRecord(AZURE, "acct2", "ALL", 2025, 1, 120.0)])
  {
    AzureExampleRows();
    AzureExampleEntries();
    var es: seq<(Period, real)> := [((2025, 1), 50.0), ((2025, 1), 70.0)];
    assert es[1..] == [((2025, 1), 70.0)];
    assert |es[1..][1..]| == 0;
    assert Grouping.GroupSum(es[1..]) == [((2025, 1), 70.0)];
    assert Grouping.GroupSum(es) == [((2025, 1), 120.0)];
    assert "UsageDate" in AzureExport.columns && "CostUSD" in AzureExport.columns;
    assert AzureGrouped(AzureExport, "acct2", TwoJanuaryDays) == AzureRecords([((2025, 1), 120.0)], "acct2");
    assert AzureRecords([((2025, 1), 120.0)], "acct2") == [CostRecord(AZURE, "acct2", "ALL", 2025, 1, 120.0)];
    assert NormalizeAzure(AzureExport, "acct2", TwoJanuaryDays) == Ok(AzureGrouped(AzureExport, "acct2", TwoJanuaryDays));
  }

  /** A usage row without a date. */
  const UndatedUsage: Row := map["CostUSD" := Num(30.0)]
  const AzureExportWithUndated := Table(["UsageDate", "CostUSD"], [EarlyUsage, UndatedUsage, LateUsage])

  /** A row whose UsageDate is missing drops out of the grouping and its
      cost is not counted: the output is that of the two dated rows. */
  lemma AzureUndatedRowDropped()
    ensures NormalizeAzure(AzureExportWithUndated, "acct2", TwoJanuaryDays) == NormalizeAzure(AzureExport, "acct2", TwoJanuaryDays)
    ensures NormalizeAzure(AzureExportWithUndated, "acct2", TwoJanuaryDays) == Ok([CostRecord(AZURE, "acct2", "ALL", 2025, 1, 120.0)])
  {
    AzureExample();
    AzureExampleRows();
    assert Get(UndatedUsage, "UsageDate") == Empty;
    assert RowsWithout([UndatedUsage], "UsageDate", Empty) == [];
    assert AzureExportWithUndated.rows == [EarlyUsage] + [UndatedUsage] + [LateUsage];
    RowsWithoutAppend([EarlyUsage] + [UndatedUsage], [LateUsage], "UsageDate", Empty);
    RowsWithoutAppend([EarlyUsage], [UndatedUsage], "UsageDate", Empty);
    RowsWithoutAppend([EarlyUsage], [LateUsage], "UsageDate", Empty);
    assert AzureExport.rows == [EarlyUsage] + [LateUsage];
    assert AzureRows(AzureExportWithUndated) == AzureRows(AzureExport);
  }
}
