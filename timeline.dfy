/** The monthly timeline of the dashboard: the month columns of each export
    are unpivoted into one entry per (row, month column), the month names
    are parsed as dates (entries whose month does not parse are dropped),
    and the trend chart sums the costs per (month, provider). */
module Timeline {
  import opened Frames
  import opened Grouping
  import opened Dashboard

  /** One unpivoted cell: the row's account, the provider, the month
      column's name and the cell. */
  datatype MonthEntry = MonthEntry(account: Cell, provider: string, month: string, cost: Cell)

  /** A month column: its name starts with "202". */
  predicate IsMonthColumn(c: string)
  {
    StartsWith(c, "202")
  }

  /** The month columns of a header, in header order. */
  function MonthColumns(columns: seq<string>): (r: seq<string>)
    ensures forall c :: c in r <==> c in columns && StartsWith(c, "202")
  {
    Filter(columns, IsMonthColumn)
  }

  /** The requested month columns that the table has, in the requested
      order: the membership test of the inner loop. */
  function Present(t: Table, monthly: seq<string>): (r: seq<string>)
    ensures forall c :: c in r <==> c in monthly && c in t.columns
  {
    Filter(monthly, c => c in t.columns)
  }

  /** The entries of one row over the given month columns, in column order. */
  function RowEntries(row: Row, idCol: string, provider: string, ms: seq<string>): (r: seq<MonthEntry>)
    ensures |r| == |ms|
    ensures forall j :: 0 <= j < |ms| ==> r[j] == MonthEntry(Get(row, idCol), provider, ms[j], Get(row, ms[j]))
  {
    seq(|ms|, j requires 0 <= j < |ms| => MonthEntry(Get(row, idCol), provider, ms[j], Get(row, ms[j])))
  }

  /** The entries of all rows, row by row. */
  function MonthEntries(rows: seq<Row>, idCol: string, provider: string, ms: seq<string>): (r: seq<MonthEntry>)
    ensures |r| == |rows| * |ms|
  {
    if rows == [] then []
    else RowEntries(rows[0], idCol, provider, ms) + MonthEntries(rows[1..], idCol, provider, ms)
  }

  /** Row-major order: entry `i * |ms| + j` is row `i`'s cell in month `j`,
      carrying the row's id and the provider. */
  lemma {:induction false} MonthEntriesAt(rows: seq<Row>, idCol: string, provider: string, ms: seq<string>, i: nat, j: nat)
    requires i < |rows| && j < |ms|
    ensures i * |ms| + j < |rows| * |ms|
    ensures MonthEntries(rows, idCol, provider, ms)[i * |ms| + j] ==
              MonthEntry(Get(rows[i], idCol), provider, ms[j], Get(rows[i], ms[j]))
  {
    if i == 0 {
      assert |rows| * |ms| == |ms| + (|rows| - 1) * |ms|;
    } else {
      MonthEntriesAt(rows[1..], idCol, provider, ms, i - 1, j);
      assert i * |ms| + j == |ms| + ((i - 1) * |ms| + j);
      assert |rows| * |ms| == |ms| + (|rows| - 1) * |ms|;
    }
  }

  lemma {:induction false} MonthEntriesAppend(a: seq<Row>, b: seq<Row>, idCol: string, provider: string, ms: seq<string>)
    ensures MonthEntries(a + b, idCol, provider, ms) ==
              MonthEntries(a, idCol, provider, ms) + MonthEntries(b, idCol, provider, ms)
  {
    if a == [] {
      assert a + b == b;
    } else {
      assert (a + b)[1..] == a[1..] + b;
      MonthEntriesAppend(a[1..], b, idCol, provider, ms);
    }
  }

  /** What one extraction yields: the entries of every row over the present
      month columns, or, when the id column is missing and there is an entry
      to build, the error of looking it up. */
  function Extracted(t: Table, idCol: string, monthly: seq<string>, provider: string): (r: Result<seq<MonthEntry>, DashboardError>)
    ensures r.Err? <==> idCol !in t.columns && |t.rows| > 0 && |Present(t, monthly)| > 0
  {
    var es := MonthEntries(t.rows, idCol, provider, Present(t, monthly));
    if idCol !in t.columns && es != [] then Err(MissingColumn(idCol)) else Ok(es)
  }

  /** The unpivot loop: for each row, for each requested month column the
      table has, one entry. The provider is a parameter here. */
  method ExtractMonths(t: Table, idCol: string, monthly: seq<string>, provider: string)
    returns (r: Result<seq<MonthEntry>, DashboardError>)
    ensures r == Extracted(t, idCol, monthly, provider)
  {
    var ms := Present(t, monthly);
    var result: seq<MonthEntry> := [];
    var i := 0;
    while i < |t.rows|
      invariant 0 <= i <= |t.rows|
      invariant result == MonthEntries(t.rows[..i], idCol, provider, ms)
      invariant idCol !in t.columns ==> result == []
    {
      var row := t.rows[i];
      var j := 0;
      while j < |monthly|
        invariant 0 <= j <= |monthly|
        invariant result == MonthEntries(t.rows[..i], idCol, provider, ms) +
                            RowEntries(row, idCol, provider, Present(t, monthly[..j]))
        invariant idCol !in t.columns ==> result == []
      {
        var m := monthly[j];
        RowEntriesStep(t, row, idCol, provider, monthly, j);
        if m in t.columns {
          if idCol !in t.columns {
            MissingIdFails(t, idCol, monthly, provider, m);
            return Err(MissingColumn(idCol));
          }
          result := result + [MonthEntry(Get(row, idCol), provider, m, Get(row, m))];
        }
        j := j + 1;
      }
      assert monthly[..|monthly|] == monthly;
      RowsStep(t.rows, i, idCol, provider, ms);
      i := i + 1;
    }
    assert t.rows[..|t.rows|] == t.rows;
    r := Ok(result);
  }

  /** One step of the inner loop: the next requested column adds its entry
      exactly when the table has it. */
  lemma RowEntriesStep(t: Table, row: Row, idCol: string, provider: string, monthly: seq<string>, j: nat)
    requires j < |monthly|
    ensures RowEntries(row, idCol, provider, Present(t, monthly[..j + 1])) ==
              RowEntries(row, idCol, provider, Present(t, monthly[..j])) +
              (if monthly[j] in t.columns
               then [MonthEntry(Get(row, idCol), provider, monthly[j], Get(row, monthly[j]))]
               else [])
  {
    assert monthly[..j + 1] == monthly[..j] + [monthly[j]];
    FilterAppend(monthly[..j], [monthly[j]], c => c in t.columns);
    var a := Present(t, monthly[..j]);
    var b: seq<string> := if monthly[j] in t.columns then [monthly[j]] else [];
    assert Filter([monthly[j]], c => c in t.columns) == b;
    assert RowEntries(row, idCol, provider, a + b) ==
           RowEntries(row, idCol, provider, a) + RowEntries(row, idCol, provider, b);
  }

  /** One step of the outer loop: the next row adds its entries. */
  lemma RowsStep(rows: seq<Row>, i: nat, idCol: string, provider: string, ms: seq<string>)
    requires i < |rows|
    ensures MonthEntries(rows[..i + 1], idCol, provider, ms) ==
              MonthEntries(rows[..i], idCol, provider, ms) + RowEntries(rows[i], idCol, provider, ms)
  {
    assert rows[..i + 1] == rows[..i] + [rows[i]];
    MonthEntriesAppend(rows[..i], [rows[i]], idCol, provider, ms);
    assert MonthEntries([rows[i]], idCol, provider, ms) == RowEntries(rows[i], idCol, provider, ms) + [];
  }

  /** With the id column missing, one present month column and a row are
      enough for the lookup to fail. */
  lemma MissingIdFails(t: Table, idCol: string, monthly: seq<string>, provider: string, m: string)
    requires idCol !in t.columns && |t.rows| > 0 && m in monthly && m in t.columns
    ensures Extracted(t, idCol, monthly, provider) == Err(MissingColumn(idCol))
  {
    assert m in Present(t, monthly);
  }

  // -------------------------------------------------------------- the timeline

  /** A timeline entry: the month parsed to a date. */
  datatype TimelineEntry = TimelineEntry(account: Cell, provider: string, month: Date, cost: Cell)

  /** `x` is entry `e` with its month parsed. */
  predicate DatedFrom(x: TimelineEntry, e: MonthEntry, parse: DateParser)
  {
    parse(Text(e.month)) == Some(x.month) && x == TimelineEntry(e.account, e.provider, x.month, e.cost)
  }

  /** Parses every month, dropping the entries whose month does not parse. */
  function Dated(es: seq<MonthEntry>, parse: DateParser): (r: seq<TimelineEntry>)
    ensures |r| <= |es|
    ensures forall x :: x in r ==> exists e :: e in es && DatedFrom(x, e, parse)
    ensures forall e :: e in es && parse(Text(e.month)).Some? ==>
              TimelineEntry(e.account, e.provider, parse(Text(e.month)).value, e.cost) in r
  {
    if es == [] then []
    else
      var rest := Dated(es[1..], parse);
      var e := es[0];
      assert forall e' :: e' in es[1..] ==> e' in es;
      match parse(Text(e.month))
      case None => rest
      case Some(d) =>
        var x := TimelineEntry(e.account, e.provider, d, e.cost);
        assert DatedFrom(x, e, parse);
        [x] + rest
  }

  /** The entries whose month parses, in order. */
  function Parses(es: seq<MonthEntry>, parse: DateParser): (r: seq<MonthEntry>)
    ensures forall e :: e in r <==> e in es && parse(Text(e.month)).Some?
  {
    if es == [] then []
    else (if parse(Text(es[0].month)).Some? then [es[0]] else []) + Parses(es[1..], parse)
  }

  /** Each entry whose month parses is kept exactly as often as it occurs. */
  lemma {:induction false} ParsesCounts(es: seq<MonthEntry>, parse: DateParser)
    ensures forall e :: multiset(Parses(es, parse))[e] ==
                        (if parse(Text(e.month)).Some? then multiset(es)[e] else 0)
  {
    if es != [] {
      assert es == [es[0]] + es[1..];
      ParsesCounts(es[1..], parse);
    }
  }

  /** One dated entry per entry whose month parses, in order: the i-th dated
      entry is the i-th such entry with its month parsed. */
  lemma {:induction false} DatedPointwise(es: seq<MonthEntry>, parse: DateParser)
    ensures |Dated(es, parse)| == |Parses(es, parse)|
    ensures forall i :: 0 <= i < |Parses(es, parse)| ==> DatedFrom(Dated(es, parse)[i], Parses(es, parse)[i], parse)
  {
    if es != [] {
      DatedPointwise(es[1..], parse);
      var e := es[0];
      match parse(Text(e.month))
      case None =>
        assert Dated(es, parse) == Dated(es[1..], parse);
        assert Parses(es, parse) == Parses(es[1..], parse);
      case Some(d) =>
        assert Dated(es, parse) == [TimelineEntry(e.account, e.provider, d, e.cost)] + Dated(es[1..], parse);
        assert Parses(es, parse) == [e] + Parses(es[1..], parse);
    }
  }

  lemma {:induction false} DatedAppend(a: seq<MonthEntry>, b: seq<MonthEntry>, parse: DateParser)
    ensures Dated(a + b, parse) == Dated(a, parse) + Dated(b, parse)
  {
    if a == [] {
      assert a + b == b;
    } else {
      assert (a + b)[1..] == a[1..] + b;
      DatedAppend(a[1..], b, parse);
    }
  }

  const AzureId := "subscriptionName"
  const GcpId := "SUBSCRIPTION.Name"

  /** The timeline of the three exports: the Azure and GCP frames without
      their total rows, AWS as read; the first failure in that order wins.
      With no entry at all the combined frame has no Month column. */
  function TimelineOf(az: Table, gcp: Table, aws: Table, parse: DateParser): (r: Result<seq<TimelineEntry>, DashboardError>)
  {
    match DropTotals(az, AzureTotalColumn, AzureTotalLabel)
    case Err(e) => Err(e)
    case Ok(azKept) =>
      match DropTotals(gcp, GcpTotalColumn, GcpTotalLabel)
      case Err(e) => Err(e)
      case Ok(gcpKept) =>
        match Extracted(azKept, AzureId, MonthColumns(azKept.columns), AzureTag)
        case Err(e) => Err(e)
        case Ok(azE) =>
          match Extracted(gcpKept, GcpId, MonthColumns(gcpKept.columns), GcpTag)
          case Err(e) => Err(e)
          case Ok(gcpE) =>
            match FirstColumn(aws.columns, IsAccountColumn, "account")
            case Err(e) => Err(e)
            case Ok(awsId) =>
              match Extracted(aws, awsId, MonthColumns(aws.columns), AwsTag)
              case Err(e) => Err(e)
              case Ok(awsE) =>
                if azE + gcpE + awsE == [] then Err(MissingColumn("Month"))
                else Ok(Dated(azE + gcpE + awsE, parse))
  }

  /** Builds the timeline with the unpivot loop, one export after another. */
  method BuildTimeline(az: Table, gcp: Table, aws: Table, parse: DateParser)
    returns (r: Result<seq<TimelineEntry>, DashboardError>)
    ensures r == TimelineOf(az, gcp, aws, parse)
  {
    var azKept := DropTotals(az, AzureTotalColumn, AzureTotalLabel);
    if azKept.Err? {
      return Err(azKept.error);
    }
    var gcpKept := DropTotals(gcp, GcpTotalColumn, GcpTotalLabel);
    if gcpKept.Err? {
      return Err(gcpKept.error);
    }
    var azE := ExtractMonths(azKept.value, AzureId, MonthColumns(azKept.value.columns), AzureTag);
    if azE.Err? {
      return Err(azE.error);
    }
    var gcpE := ExtractMonths(gcpKept.value, GcpId, MonthColumns(gcpKept.value.columns), GcpTag);
    if gcpE.Err? {
      return Err(gcpE.error);
    }
    var awsId := FirstColumn(aws.columns, IsAccountColumn, "account");
    if awsId.Err? {
      return Err(awsId.error);
    }
    // the account column is a column of the table, so this lookup cannot fail
    var awsE := ExtractMonths(aws, awsId.value, MonthColumns(aws.columns), AwsTag);
    assert awsE.Ok?;
    var all := azE.value + gcpE.value + awsE.value;
    if all == [] {
      return Err(MissingColumn("Month"));
    }
    r := Ok(Dated(all, parse));
  }

  /** Every timeline entry carries the provider of the export it was
      extracted from, Azure, GCP or AWS. */
  lemma TimelineProviders(az: Table, gcp: Table, aws: Table, parse: DateParser)
    ensures TimelineOf(az, gcp, aws, parse).Ok? ==>
      forall x :: x in TimelineOf(az, gcp, aws, parse).value ==>
        x.provider == AzureTag || x.provider == GcpTag || x.provider == AwsTag
  {
    if TimelineOf(az, gcp, aws, parse).Ok? {
      var azKept := DropTotals(az, AzureTotalColumn, AzureTotalLabel).value;
      var gcpKept := DropTotals(gcp, GcpTotalColumn, GcpTotalLabel).value;
      var awsId := FirstColumn(aws.columns, IsAccountColumn, "account").value;
      var azE := Extracted(azKept, AzureId, MonthColumns(azKept.columns), AzureTag).value;
      var gcpE := Extracted(gcpKept, GcpId, MonthColumns(gcpKept.columns), GcpTag).value;
      var awsE := Extracted(aws, awsId, MonthColumns(aws.columns), AwsTag).value;
      var all := azE + gcpE + awsE;
      assert TimelineOf(az, gcp, aws, parse).value == Dated(all, parse);
      EntriesTagged(azKept.rows, AzureId, AzureTag, Present(azKept, MonthColumns(azKept.columns)));
      EntriesTagged(gcpKept.rows, GcpId, GcpTag, Present(gcpKept, MonthColumns(gcpKept.columns)));
      EntriesTagged(aws.rows, awsId, AwsTag, Present(aws, MonthColumns(aws.columns)));
      forall x | x in Dated(all, parse)
        ensures x.provider == AzureTag || x.provider == GcpTag || x.provider == AwsTag
      {
        var e :| e in all && DatedFrom(x, e, parse);
      }
    }
  }

  /** Every extracted entry carries the provider it was extracted for. */
  lemma {:induction false} EntriesTagged(rows: seq<Row>, idCol: string, provider: string, ms: seq<string>)
    ensures forall e :: e in MonthEntries(rows, idCol, provider, ms) ==> e.provider == provider
  {
    if rows != [] {
      EntriesTagged(rows[1..], idCol, provider, ms);
    }
  }

  // ---------------------------------------------------------------- the trend

  /** The provider of a timeline entry. */
  function EntryProvider(x: TimelineEntry): string
  {
    x.provider
  }

  /** The ((month, provider), cost) pairs the trend groups; text costs have no sum. */
  function TrendPairs(xs: seq<TimelineEntry>): (es: seq<((Date, string), real)>)
    requires forall i :: 0 <= i < |xs| ==> !xs[i].cost.Text?
    ensures |es| == |xs|
    ensures forall i :: 0 <= i < |xs| ==>
      es[i] == ((xs[i].month, xs[i].provider), Amount(xs[i].cost).value)
  {
    seq(|xs|, i requires 0 <= i < |xs| => ((xs[i].month, xs[i].provider), Amount(xs[i].cost).value))
  }

  /** The keys of the pairs are the (month, provider) of the entries. */
  lemma TrendPairsKeys(xs: seq<TimelineEntry>)
    requires forall i :: 0 <= i < |xs| ==> !xs[i].cost.Text?
    ensures forall k :: k in KeysOf(TrendPairs(xs)) <==> exists i :: 0 <= i < |xs| && (xs[i].month, xs[i].provider) == k
  {
    var es := TrendPairs(xs);
    forall k | k in KeysOf(es) ensures exists i :: 0 <= i < |xs| && (xs[i].month, xs[i].provider) == k {
      var p := KeyPosition(es, k);
    }
    forall i | 0 <= i < |xs| ensures (xs[i].month, xs[i].provider) in KeysOf(es) {
      KeyAtPositionIn(es, i);
    }
  }

  /** The trend: the timeline, filtered by the chosen provider, summed per
      (month, provider). A text cost is an error. */
  function Trend(timeline: seq<TimelineEntry>, choice: string): (r: Result<seq<((Date, string), real)>, DashboardError>)
    ensures r.Ok? <==> forall x :: x in FilterProvider(timeline, EntryProvider, choice) ==> !x.cost.Text?
    ensures r.Ok? ==> DistinctKeys(r.value)
    ensures r.Ok? ==> forall k :: Lookup(r.value, k) == SumFor(TrendPairs(FilterProvider(timeline, EntryProvider, choice)), k)
    // one point per (month, provider) pair of a selected entry, and no other
    ensures r.Ok? ==> forall k :: k in KeysOf(r.value) <==>
      exists i :: 0 <= i < |FilterProvider(timeline, EntryProvider, choice)| &&
        (FilterProvider(timeline, EntryProvider, choice)[i].month, FilterProvider(timeline, EntryProvider, choice)[i].provider) == k
  {
    var sel := FilterProvider(timeline, EntryProvider, choice);
    if exists i :: 0 <= i < |sel| && sel[i].cost.Text? then Err(BadNumber("Cost"))
    else
      TrendPairsKeys(sel);
      Ok(GroupSum(TrendPairs(sel)))
  }

  /** A trend for one provider has points of that provider only. */
  lemma TrendOfOneProvider(timeline: seq<TimelineEntry>, choice: string, k: (Date, string))
    requires choice != AllProviders && Trend(timeline, choice).Ok?
    requires k in KeysOf(Trend(timeline, choice).value)
    ensures k.1 == choice
  {
    var sel := FilterProvider(timeline, EntryProvider, choice);
    var es := TrendPairs(sel);
    var p := KeyPosition(es, k);
    assert sel[p] in sel;
  }
}
