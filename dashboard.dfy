/** The dashboard's aggregation of three provider exports into one table of
    savings per account, the provider cards, the share and bar charts and
    the provider filter. */
module Dashboard {
  import opened Frames
  import opened Grouping

  datatype DashboardError =
    | MissingColumn(column: string)   // a frame lookup by a name the table lacks
    | NoColumnMatching(what: string)  // the first element of an empty column search
    | BadNumber(column: string)       // a summed column holding text

  /** One row of the combined table: account or project, provider, amount saved. */
  datatype AccountTotal = AccountTotal(account: Cell, provider: string, saved: real)

  const AzureTag := "Azure"
  const GcpTag := "GCP"
  const AwsTag := "AWS"

  /** Keeps the rows whose `col` is not the total label; looking up a column
      the table lacks is an error. */
  function DropTotals(t: Table, col: string, mark: string): (r: Result<Table, DashboardError>)
    ensures r.Err? <==> col !in t.columns
    ensures r.Err? ==> r.error == MissingColumn(col)
    ensures r.Ok? ==> r.value.columns == t.columns
    ensures r.Ok? ==> forall row :: row in r.value.rows <==> row in t.rows && CellIsNot(row, col, Text(mark))
    ensures r.Ok? ==> forall row :: multiset(r.value.rows)[row] == (if CellIsNot(row, col, Text(mark)) then multiset(t.rows)[row] else 0)
  {
    if col !in t.columns then Err(MissingColumn(col))
    else
      RowsWithoutCounts(t.rows, col, Text(mark));
      Ok(Table(t.columns, RowsWithout(t.rows, col, Text(mark))))
  }

  /** The (account, amount) pairs a group-by sums: a row whose account is
      missing falls out of the grouping, a missing amount counts as zero. */
  function AccountEntries(rows: seq<Row>, keyCol: string, costCol: string): (es: seq<(Cell, real)>)
    requires Numeric(rows, costCol)
    ensures |es| <= |rows|
    ensures forall i :: 0 <= i < |es| ==> es[i].0 != Empty
  {
    if rows == [] then []
    else
      assert Numeric(rows[1..], costCol) by {
        forall i | 0 <= i < |rows[1..]| ensures !Get(rows[1..][i], costCol).Text? {
          assert rows[1..][i] == rows[i + 1];
        }
      }
      var rest := AccountEntries(rows[1..], keyCol, costCol);
      if Get(rows[0], keyCol) == Empty then rest
      else [(Get(rows[0], keyCol), Amount(Get(rows[0], costCol)).value)] + rest
  }

  /** Every row with a present account gives one pair, in order: the i-th
      pair is the account and amount of the i-th such row. */
  lemma {:induction false} AccountEntriesPointwise(rows: seq<Row>, keyCol: string, costCol: string)
    requires Numeric(rows, costCol)
    ensures |AccountEntries(rows, keyCol, costCol)| == |RowsWithout(rows, keyCol, Empty)|
    ensures forall i :: 0 <= i < |AccountEntries(rows, keyCol, costCol)| ==>
      && AccountEntries(rows, keyCol, costCol)[i].0 == Get(RowsWithout(rows, keyCol, Empty)[i], keyCol)
      && Some(AccountEntries(rows, keyCol, costCol)[i].1) == Amount(Get(RowsWithout(rows, keyCol, Empty)[i], costCol))
  {
    if rows != [] {
      assert Numeric(rows[1..], costCol) by {
        forall i | 0 <= i < |rows[1..]| ensures !Get(rows[1..][i], costCol).Text? {
          assert rows[1..][i] == rows[i + 1];
        }
      }
      AccountEntriesPointwise(rows[1..], keyCol, costCol);
    }
  }

  /** Exactly the accounts present in some row have an entry. */
  lemma {:induction false} AccountEntriesKeys(rows: seq<Row>, keyCol: string, costCol: string, k: Cell)
    requires Numeric(rows, costCol)
    ensures k in KeysOf(AccountEntries(rows, keyCol, costCol)) <==>
              k != Empty && exists i :: 0 <= i < |rows| && Get(rows[i], keyCol) == k
  {
    if rows != [] {
      assert Numeric(rows[1..], costCol) by {
        forall i | 0 <= i < |rows[1..]| ensures !Get(rows[1..][i], costCol).Text? {
          assert rows[1..][i] == rows[i + 1];
        }
      }
      AccountEntriesKeys(rows[1..], keyCol, costCol, k);
      if exists i :: 0 <= i < |rows| && Get(rows[i], keyCol) == k {
        var i :| 0 <= i < |rows| && Get(rows[i], keyCol) == k;
        if i > 0 {
          assert Get(rows[1..][i - 1], keyCol) == k;
        }
      }
      if exists i :: 0 <= i < |rows[1..]| && Get(rows[1..][i], keyCol) == k {
        var i :| 0 <= i < |rows[1..]| && Get(rows[1..][i], keyCol) == k;
        assert Get(rows[i + 1], keyCol) == k;
      }
    }
  }

  lemma {:induction false} AccountEntriesAppend(a: seq<Row>, b: seq<Row>, keyCol: string, costCol: string)
    requires Numeric(a, costCol) && Numeric(b, costCol)
    ensures Numeric(a + b, costCol)
    ensures AccountEntries(a + b, keyCol, costCol) == AccountEntries(a, keyCol, costCol) + AccountEntries(b, keyCol, costCol)
  {
    assert forall i :: 0 <= i < |a + b| ==> (a + b)[i] == if i < |a| then a[i] else b[i - |a|];
    if a == [] {
      assert a + b == b;
    } else {
      assert (a + b)[1..] == a[1..] + b;
      assert Numeric(a[1..], costCol) by {
        forall i | 0 <= i < |a[1..]| ensures !Get(a[1..][i], costCol).Text? {
          assert a[1..][i] == a[i + 1];
        }
      }
      AccountEntriesAppend(a[1..], b, keyCol, costCol);
    }
  }

  /** The grouped pairs tagged with the provider. */
  function Tagged(g: seq<(Cell, real)>, tag: string): (r: seq<AccountTotal>)
    ensures |r| == |g|
    ensures forall i :: 0 <= i < |g| ==> r[i] == AccountTotal(g[i].0, tag, g[i].1)
  {
    seq(|g|, i requires 0 <= i < |g| => AccountTotal(g[i].0, tag, g[i].1))
  }

  /** Sums `costCol` per distinct `keyCol` value and tags the groups with the
      provider. A missing key or amount column and a text amount are errors. */
  function GroupByAccount(t: Table, keyCol: string, costCol: string, tag: string): (r: Result<seq<AccountTotal>, DashboardError>)
    ensures keyCol !in t.columns ==> r == Err(MissingColumn(keyCol))
    ensures r.Ok? <==> keyCol in t.columns && costCol in t.columns && Numeric(t.rows, costCol)
    ensures r.Ok? ==> forall i :: 0 <= i < |r.value| ==> r.value[i].provider == tag
  {
    if keyCol !in t.columns then Err(MissingColumn(keyCol))
    else if costCol !in t.columns then Err(MissingColumn(costCol))
    else if !Numeric(t.rows, costCol) then Err(BadNumber(costCol))
    else Ok(Tagged(GroupSum(AccountEntries(t.rows, keyCol, costCol)), tag))
  }

  /** One row per distinct present account, holding the sum of that account's
      amounts, and a row for every account that occurs. */
  lemma GroupByAccountRows(t: Table, keyCol: string, costCol: string, tag: string)
    requires GroupByAccount(t, keyCol, costCol, tag).Ok?
    ensures var out := GroupByAccount(t, keyCol, costCol, tag).value;
      && (forall i, j :: 0 <= i < j < |out| ==> out[i].account != out[j].account)
      && (forall i :: 0 <= i < |out| ==> out[i].saved == SumFor(AccountEntries(t.rows, keyCol, costCol), out[i].account))
      && (forall i :: 0 <= i < |out| ==> out[i].account != Empty)
      && (forall i :: 0 <= i < |out| ==> exists r :: 0 <= r < |t.rows| && Get(t.rows[r], keyCol) == out[i].account)
  {
    var es := AccountEntries(t.rows, keyCol, costCol);
    var g := GroupSum(es);
    forall i | 0 <= i < |g|
      ensures g[i].1 == SumFor(es, g[i].0) && g[i].0 != Empty
      ensures exists r :: 0 <= r < |t.rows| && Get(t.rows[r], keyCol) == g[i].0
    {
      GroupSumAt(es, i);
      var p := KeyPosition(es, g[i].0);
      AccountEntriesKeys(t.rows, keyCol, costCol, g[i].0);
    }
  }

  /** Every account present in a row has its row in the result. */
  lemma GroupByAccountCovers(t: Table, keyCol: string, costCol: string, tag: string, i: nat)
    requires GroupByAccount(t, keyCol, costCol, tag).Ok?
    requires i < |t.rows| && Get(t.rows[i], keyCol) != Empty
    ensures exists j :: 0 <= j < |GroupByAccount(t, keyCol, costCol, tag).value| &&
                        GroupByAccount(t, keyCol, costCol, tag).value[j].account == Get(t.rows[i], keyCol)
  {
    var es := AccountEntries(t.rows, keyCol, costCol);
    var g := GroupSum(es);
    AccountEntriesKeys(t.rows, keyCol, costCol, Get(t.rows[i], keyCol));
    var j := KeyPosition(g, Get(t.rows[i], keyCol));
    assert Tagged(g, tag)[j].account == Get(t.rows[i], keyCol);
  }

  /** The sum of the amounts saved. */
  function TotalSaved(data: seq<AccountTotal>): real
  {
    if data == [] then 0.0 else data[0].saved + TotalSaved(data[1..])
  }

  lemma {:induction false} TaggedTotal(g: seq<(Cell, real)>, tag: string)
    ensures TotalSaved(Tagged(g, tag)) == Total(g)
  {
    if g != [] {
      assert Tagged(g, tag)[1..] == Tagged(g[1..], tag);
      TaggedTotal(g[1..], tag);
    }
  }

  /** Grouping neither loses nor invents an amount. */
  lemma GroupByAccountTotal(t: Table, keyCol: string, costCol: string, tag: string)
    requires GroupByAccount(t, keyCol, costCol, tag).Ok?
    ensures TotalSaved(GroupByAccount(t, keyCol, costCol, tag).value) == Total(AccountEntries(t.rows, keyCol, costCol))
  {
    TaggedTotal(GroupSum(AccountEntries(t.rows, keyCol, costCol)), tag);
  }

  // ---------------------------------------------------------- the three groups

  const AzureTotalColumn := "name"
  const AzureTotalLabel := "SUBSCRIPTION TOTAL"
  const GcpTotalColumn := "CLOUD_RESOURCE.Name"
  const GcpTotalLabel := "PROJECT TOTAL"
  const ServiceTotal := "Service total"

  /** Azure: drop the subscription-total row, then sum per subscription. */
  function AzureAccounts(az: Table): (r: Result<seq<AccountTotal>, DashboardError>)
    ensures AzureTotalColumn !in az.columns ==> r == Err(MissingColumn(AzureTotalColumn))
    // otherwise the groups are those of the rows without the total label
    ensures AzureTotalColumn in az.columns ==>
      DropTotals(az, AzureTotalColumn, AzureTotalLabel).Ok? &&
      r == GroupByAccount(DropTotals(az, AzureTotalColumn, AzureTotalLabel).value, "subscriptionName", ServiceTotal, AzureTag)
  {
    match DropTotals(az, AzureTotalColumn, AzureTotalLabel)
    case Err(e) => Err(e)
    case Ok(kept) => GroupByAccount(kept, "subscriptionName", ServiceTotal, AzureTag)
  }

  /** GCP: drop the project-total row, then sum per subscription. */
  function GcpAccounts(gcp: Table): (r: Result<seq<AccountTotal>, DashboardError>)
    ensures GcpTotalColumn !in gcp.columns ==> r == Err(MissingColumn(GcpTotalColumn))
    // otherwise the groups are those of the rows without the total label
    ensures GcpTotalColumn in gcp.columns ==>
      DropTotals(gcp, GcpTotalColumn, GcpTotalLabel).Ok? &&
      r == GroupByAccount(DropTotals(gcp, GcpTotalColumn, GcpTotalLabel).value, "SUBSCRIPTION.Name", ServiceTotal, GcpTag)
  {
    match DropTotals(gcp, GcpTotalColumn, GcpTotalLabel)
    case Err(e) => Err(e)
    case Ok(kept) => GroupByAccount(kept, "SUBSCRIPTION.Name", ServiceTotal, GcpTag)
  }

  /** Two tables with the same columns whose rows agree once the total
      rows are dropped give the same kept table. */
  lemma DropTotalsAgree(cols: seq<string>, r1: seq<Row>, r2: seq<Row>, col: string, mark: string)
    requires RowsWithout(r1, col, Text(mark)) == RowsWithout(r2, col, Text(mark))
    ensures DropTotals(Table(cols, r1), col, mark) == DropTotals(Table(cols, r2), col, mark)
  {
  }

  /** Dropping the total rows of `before + [total] + after` gives the kept
      rows of `before + after`. */
  lemma TotalRowDropped(before: seq<Row>, total: Row, after: seq<Row>, col: string, mark: string)
    requires Get(total, col) == Text(mark)
    ensures RowsWithout(before + [total] + after, col, Text(mark)) == RowsWithout(before + after, col, Text(mark))
  {
    RowsWithoutAppend(before + [total], after, col, Text(mark));
    RowsWithoutAppend(before, [total], col, Text(mark));
    RowsWithoutAppend(before, after, col, Text(mark));
    assert RowsWithout([total], col, Text(mark)) == [];
  }

  /** A total row, wherever it stands, changes neither provider's groups. */
  lemma AzureTotalRowIgnored(cols: seq<string>, before: seq<Row>, total: Row, after: seq<Row>)
    requires Get(total, AzureTotalColumn) == Text(AzureTotalLabel)
    ensures AzureAccounts(Table(cols, before + [total] + after)) == AzureAccounts(Table(cols, before + after))
  {
    TotalRowDropped(before, total, after, AzureTotalColumn, AzureTotalLabel);
    DropTotalsAgree(cols, before + [total] + after, before + after, AzureTotalColumn, AzureTotalLabel);
  }

  lemma GcpTotalRowIgnored(cols: seq<string>, before: seq<Row>, total: Row, after: seq<Row>)
    requires Get(total, GcpTotalColumn) == Text(GcpTotalLabel)
    ensures GcpAccounts(Table(cols, before + [total] + after)) == GcpAccounts(Table(cols, before + after))
  {
    TotalRowDropped(before, total, after, GcpTotalColumn, GcpTotalLabel);
    DropTotalsAgree(cols, before + [total] + after, before + after, GcpTotalColumn, GcpTotalLabel);
  }

  /** The AWS account column: the name contains "account", any case. */
  predicate IsAccountColumn(c: string)
  {
    Contains(Lower(c), "account")
  }

  /** The AWS amount column: the name contains "service total" or "cost", any case. */
  predicate IsCostColumn(c: string)
  {
    Contains(Lower(c), "service total") || Contains(Lower(c), "cost")
  }

  /** `c` is the first of `cols` that satisfies `p`. */
  predicate FirstSuch(cols: seq<string>, c: string, p: string -> bool)
  {
    exists i :: 0 <= i < |cols| && cols[i] == c && p(c) && forall j :: 0 <= j < i ==> !p(cols[j])
  }

  /** The first column satisfying `p`; none is the error of indexing an
      empty list. */
  function FirstColumn(cols: seq<string>, p: string -> bool, what: string): (r: Result<string, DashboardError>)
    ensures r.Err? <==> forall i :: 0 <= i < |cols| ==> !p(cols[i])
    ensures r.Err? ==> r.error == NoColumnMatching(what)
    ensures r.Ok? ==> FirstSuch(cols, r.value, p)
  {
    match FirstIndex(cols, p)
    case None => Err(NoColumnMatching(what))
    case Some(i) => Ok(cols[i])
  }

  /** AWS: sum the first amount column per first account column. */
  function AwsAccounts(aws: Table): (r: Result<seq<AccountTotal>, DashboardError>)
    ensures (forall i :: 0 <= i < |aws.columns| ==> !IsAccountColumn(aws.columns[i])) ==>
              r == Err(NoColumnMatching("account"))
    ensures (exists i :: 0 <= i < |aws.columns| && IsAccountColumn(aws.columns[i])) &&
            (forall i :: 0 <= i < |aws.columns| ==> !IsCostColumn(aws.columns[i])) ==>
              r == Err(NoColumnMatching("cost"))
    ensures r.Ok? ==> exists acct, cost ::
      && FirstSuch(aws.columns, acct, IsAccountColumn)
      && FirstSuch(aws.columns, cost, IsCostColumn)
      && r == GroupByAccount(aws, acct, cost, AwsTag)
    // with both columns found, the result is that grouping
    ensures forall acct, cost :: FirstSuch(aws.columns, acct, IsAccountColumn) && FirstSuch(aws.columns, cost, IsCostColumn) ==>
              r == GroupByAccount(aws, acct, cost, AwsTag)
  {
    match FirstColumn(aws.columns, IsAccountColumn, "account")
    case Err(e) => Err(e)
    case Ok(acct) =>
      match FirstColumn(aws.columns, IsCostColumn, "cost")
      case Err(e) => Err(e)
      case Ok(cost) =>
        FirstSuchUnique(aws.columns, IsAccountColumn, acct);
        FirstSuchUnique(aws.columns, IsCostColumn, cost);
        GroupByAccount(aws, acct, cost, AwsTag)
  }

  /** The first column satisfying a test is unique. */
  lemma FirstSuchUnique(cols: seq<string>, p: string -> bool, c: string)
    requires FirstSuch(cols, c, p)
    ensures forall d :: FirstSuch(cols, d, p) ==> d == c
  {
    var i :| 0 <= i < |cols| && cols[i] == c && p(c) && forall j :: 0 <= j < i ==> !p(cols[j]);
    forall d | FirstSuch(cols, d, p) ensures d == c {
      var k :| 0 <= k < |cols| && cols[k] == d && p(d) && forall j :: 0 <= j < k ==> !p(cols[j]);
      assert !(k < i) && !(i < k);
    }
  }

  /** The combined table: Azure groups, then GCP, then AWS; the first
      failure in that order is the page's failure. */
  function AllData(az: Table, gcp: Table, aws: Table): (r: Result<seq<AccountTotal>, DashboardError>)
    ensures r.Ok? <==> AzureAccounts(az).Ok? && GcpAccounts(gcp).Ok? && AwsAccounts(aws).Ok?
    ensures r.Ok? ==> r.value == AzureAccounts(az).value + GcpAccounts(gcp).value + AwsAccounts(aws).value
    ensures r.Err? ==> r.error == (if AzureAccounts(az).Err? then AzureAccounts(az).error
                                   else if GcpAccounts(gcp).Err? then GcpAccounts(gcp).error
                                   else AwsAccounts(aws).error)
  {
    match AzureAccounts(az)
    case Err(e) => Err(e)
    case Ok(a) =>
      match GcpAccounts(gcp)
      case Err(e) => Err(e)
      case Ok(g) =>
        match AwsAccounts(aws)
        case Err(e) => Err(e)
        case Ok(w) => Ok(a + g + w)
  }

  /** Every row of one provider's groups carries that provider's tag. */
  predicate AllTagged(data: seq<AccountTotal>, tag: string)
  {
    forall i :: 0 <= i < |data| ==> data[i].provider == tag
  }

  lemma AzureAccountsTagged(az: Table)
    requires AzureAccounts(az).Ok?
    ensures AllTagged(AzureAccounts(az).value, AzureTag)
  {
    var kept := DropTotals(az, AzureTotalColumn, AzureTotalLabel).value;
    assert AzureAccounts(az) == GroupByAccount(kept, "subscriptionName", ServiceTotal, AzureTag);
  }

  lemma GcpAccountsTagged(gcp: Table)
    requires GcpAccounts(gcp).Ok?
    ensures AllTagged(GcpAccounts(gcp).value, GcpTag)
  {
    var kept := DropTotals(gcp, GcpTotalColumn, GcpTotalLabel).value;
    assert GcpAccounts(gcp) == GroupByAccount(kept, "SUBSCRIPTION.Name", ServiceTotal, GcpTag);
  }

  lemma AwsAccountsTagged(aws: Table)
    requires AwsAccounts(aws).Ok?
    ensures AllTagged(AwsAccounts(aws).value, AwsTag)
  {
    var acct, cost :| && FirstSuch(aws.columns, acct, IsAccountColumn)
                      && FirstSuch(aws.columns, cost, IsCostColumn)
                      && AwsAccounts(aws) == GroupByAccount(aws, acct, cost, AwsTag);
  }

  // ------------------------------------------------------- cards and charts

  /** The sum saved by one provider: a provider card. */
  function ProviderTotal(data: seq<AccountTotal>, tag: string): real
  {
    if data == [] then 0.0
    else (if data[0].provider == tag then data[0].saved else 0.0) + ProviderTotal(data[1..], tag)
  }

  lemma {:induction false} TotalSavedAppend(a: seq<AccountTotal>, b: seq<AccountTotal>)
    ensures TotalSaved(a + b) == TotalSaved(a) + TotalSaved(b)
  {
    if a == [] {
      assert a + b == b;
    } else {
      assert (a + b)[1..] == a[1..] + b;
      TotalSavedAppend(a[1..], b);
    }
  }

  lemma {:induction false} ProviderTotalAppend(a: seq<AccountTotal>, b: seq<AccountTotal>, tag: string)
    ensures ProviderTotal(a + b, tag) == ProviderTotal(a, tag) + ProviderTotal(b, tag)
  {
    if a == [] {
      assert a + b == b;
    } else {
      assert (a + b)[1..] == a[1..] + b;
      ProviderTotalAppend(a[1..], b, tag);
    }
  }

  /** On rows that all carry one tag, that provider's total is the whole total
      and every other provider's is zero. */
  lemma {:induction false} ProviderTotalUniform(data: seq<AccountTotal>, tag: string, other: string)
    requires AllTagged(data, tag)
    ensures ProviderTotal(data, tag) == TotalSaved(data)
    ensures other != tag ==> ProviderTotal(data, other) == 0.0
  {
    if data != [] {
      ProviderTotalUniform(data[1..], tag, other);
    }
  }

  /** Three uniformly tagged parts: the total is the sum of the three
      providers' totals. */
  lemma CardsOfThree(a: seq<AccountTotal>, g: seq<AccountTotal>, w: seq<AccountTotal>)
    requires AllTagged(a, AzureTag) && AllTagged(g, GcpTag) && AllTagged(w, AwsTag)
    ensures TotalSaved(a + g + w) ==
      ProviderTotal(a + g + w, AzureTag) + ProviderTotal(a + g + w, AwsTag) + ProviderTotal(a + g + w, GcpTag)
  {
    TotalSavedAppend(a + g, w);
    TotalSavedAppend(a, g);
    ProviderTotalAppend(a + g, w, AzureTag);
    ProviderTotalAppend(a, g, AzureTag);
    ProviderTotalAppend(a + g, w, AwsTag);
    ProviderTotalAppend(a, g, AwsTag);
    ProviderTotalAppend(a + g, w, GcpTag);
    ProviderTotalAppend(a, g, GcpTag);
    ProviderTotalUniform(a, AzureTag, AwsTag);
    ProviderTotalUniform(a, AzureTag, GcpTag);
    ProviderTotalUniform(g, GcpTag, AzureTag);
    ProviderTotalUniform(g, GcpTag, AwsTag);
    ProviderTotalUniform(w, AwsTag, AzureTag);
    ProviderTotalUniform(w, AwsTag, GcpTag);
  }

  /** The total card is the sum of the three provider cards. */
  lemma TotalIsSumOfCards(az: Table, gcp: Table, aws: Table)
    requires AllData(az, gcp, aws).Ok?
    ensures TotalSaved(AllData(az, gcp, aws).value) ==
      ProviderTotal(AllData(az, gcp, aws).value, AzureTag) +
      ProviderTotal(AllData(az, gcp, aws).value, AwsTag) +
      ProviderTotal(AllData(az, gcp, aws).value, GcpTag)
  {
    AzureAccountsTagged(az);
    GcpAccountsTagged(gcp);
    AwsAccountsTagged(aws);
    CardsOfThree(AzureAccounts(az).value, GcpAccounts(gcp).value, AwsAccounts(aws).value);
  }

  /** The (provider, amount) pairs the charts group by provider. */
  function ProviderPairs(data: seq<AccountTotal>): (es: seq<(string, real)>)
    ensures |es| == |data|
    ensures forall i :: 0 <= i < |data| ==> es[i] == (data[i].provider, data[i].saved)
  {
    seq(|data|, i requires 0 <= i < |data| => (data[i].provider, data[i].saved))
  }

  lemma {:induction false} ProviderPairsSum(data: seq<AccountTotal>, tag: string)
    ensures SumFor(ProviderPairs(data), tag) == ProviderTotal(data, tag)
  {
    if data != [] {
      assert ProviderPairs(data)[1..] == ProviderPairs(data[1..]);
      ProviderPairsSum(data[1..], tag);
    }
  }

  /** The amount saved per provider, one group per provider: the share chart
      and, over the filtered rows, the bar chart. */
  function ProviderSums(data: seq<AccountTotal>): (r: seq<(string, real)>)
    ensures DistinctKeys(r)
    ensures Total(r) == Total(ProviderPairs(data))
  {
    GroupSum(ProviderPairs(data))
  }

  /** Each group of the charts is its provider's card total. */
  lemma ProviderSumsAreCards(data: seq<AccountTotal>, tag: string)
    ensures Lookup(ProviderSums(data), tag) == ProviderTotal(data, tag)
  {
    ProviderPairsSum(data, tag);
  }

  /** The chart groups are exactly the providers that occur. */
  lemma ProviderSumsKeys(data: seq<AccountTotal>, tag: string)
    ensures tag in KeysOf(ProviderSums(data)) <==> exists i :: 0 <= i < |data| && data[i].provider == tag
  {
    var es := ProviderPairs(data);
    if tag in KeysOf(es) {
      var p := KeyPosition(es, tag);
      assert data[p].provider == tag;
    }
    if exists i :: 0 <= i < |data| && data[i].provider == tag {
      var i :| 0 <= i < |data| && data[i].provider == tag;
      KeyAtPositionIn(es, i);
    }
  }

  /** The choice that shows every provider. */
  const AllProviders := "All"

  /** The provider filter: "All" keeps everything, any other choice keeps
      exactly the rows of that provider, each as often as before. */
  function FilterProvider<T(==,!new)>(xs: seq<T>, tagOf: T -> string, choice: string): (r: seq<T>)
    ensures choice == AllProviders ==> r == xs
    ensures choice != AllProviders ==> forall x :: x in r <==> x in xs && tagOf(x) == choice
    ensures choice != AllProviders ==> forall x :: multiset(r)[x] == if tagOf(x) == choice then multiset(xs)[x] else 0
  {
    if choice == AllProviders then xs
    else if xs == [] then []
    else
      var rest := FilterProvider(xs[1..], tagOf, choice);
      assert xs == [xs[0]] + xs[1..];
      if tagOf(xs[0]) == choice then [xs[0]] + rest else rest
  }

  /** The provider of a row of the combined table. */
  function ProviderOf(x: AccountTotal): string
  {
    x.provider
  }

  /** The bar chart over a single provider has at most that provider's
      group, holding that provider's card total. */
  lemma BarOfOneProvider(data: seq<AccountTotal>, choice: string)
    requires choice != AllProviders
    ensures KeysOf(ProviderSums(FilterProvider(data, ProviderOf, choice))) <= {choice}
    ensures Lookup(ProviderSums(FilterProvider(data, ProviderOf, choice)), choice) == ProviderTotal(data, choice)
  {
    var f := FilterProvider(data, ProviderOf, choice);
    forall tag | tag in KeysOf(ProviderSums(f)) ensures tag == choice {
      ProviderSumsKeys(f, tag);
      var i :| 0 <= i < |f| && f[i].provider == tag;
      assert f[i] in f;
    }
    ProviderSumsAreCards(f, choice);
    FilterKeepsTotal(data, choice);
  }

  /** Filtering by a provider keeps that provider's total. */
  lemma {:induction false} FilterKeepsTotal(data: seq<AccountTotal>, choice: string)
    requires choice != AllProviders
    ensures ProviderTotal(FilterProvider(data, ProviderOf, choice), choice) == ProviderTotal(data, choice)
  {
    if data != [] {
      FilterKeepsTotal(data[1..], choice);
    }
  }
}
