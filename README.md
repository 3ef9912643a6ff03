# CostDashboard pipeline in Dafny

A model of the CostDashboard ingestion and aggregation pipeline, with proofs
about it. A billing export from Azure, AWS or GCP is recognised by its
columns. It is reshaped into uniform cost records (provider, account,
service, year, month, amount) and committed to a cost table that is unique
on that key. After each upload the savings estimator projects a yearly cost
from the three latest rows of the account. The dashboard aggregation sums a
cost column of each export per account. For Azure and GCP that is the
"Service total" column; for AWS it is the first column whose lower-cased
name contains "service total" or "cost". It combines the three providers,
derives the provider cards, the pie and bar groupings and the monthly
timeline.

Modules, following the program's files:

- `Frames` (frames.dfy): the tabular input. A table is a column list and rows
  mapping column names to cells (number, text or empty). Date parsing is a
  parameter (`DateParser`). It also holds the string helpers the source uses
  (`startswith`, `endswith`, `lower`, list comprehensions).
- `Grouping` (grouping.dfy): a generic group-and-sum over (key, amount)
  pairs, standing for `groupby(...).sum()`.
- `Models` (models.dfy): the two tables of app/models.py and the natural key
  of a cost row.
- `Ingest` (ingest.dfy): provider detection and the three normalisers of
  app/ingest.py.
- `Store` (store.dfy): the database session as a class with the two tables
  and their id counters. The batch commit is modelled as written: every
  staged row is an insert, and any collision of natural keys rejects the
  whole batch. Beside it is the upsert on the natural key that the call to
  `db.merge` (app/main.py:34) evidently intends.
- `Savings` (savings.dfy): app/savings.py. It covers the ordered query
  with its limit of three, the projection, and the appended savings row.
- `Upload` (upload.dfy): the upload endpoint of app/main.py, in two forms:
  as written and as intended.
- `Dashboard` (dashboard.dfy) and `Timeline` (timeline.dfy): the
  aggregation part of app.py, which covers:
  - dropping the total rows;
  - per-account sums, the combined table and the provider cards;
  - the provider filter, and the pie and bar groupings;
  - the month unpivot loop of `extract_months` and the trend grouping.
- `Scenarios` (scenarios.dfy): worked examples. An AWS export becomes two
  records, two January Azure rows become one summed record, and an Azure row
  without a date changes nothing.

Where the code's evident intent and its behaviour differ, the model follows
the code:

- The estimator averages the three latest *rows* of an account and provider,
  not three distinct months. An AWS upload stores one row per service and
  month, so the three rows can all fall in one month. It also skips the
  estimate when fewer than three *rows* exist.
- The endpoint hands each row to `db.merge` (app/main.py:34), an
  insert-or-update by primary key. The new rows carry no primary key, so
  each merge is an insert, and the commit rejects the batch on a repeated
  natural key (see Findings).
- The AWS frame still holds the `date` column the melt kept as its
  identifier (app/ingest.py:36-41). The cost-row constructor has no such
  field, so staging fails on the first AWS row, and nothing is committed
  (see Findings).
- A row whose Azure UsageDate is missing becomes a row without a date and
  falls out of the grouping, so its cost is not counted.
- A date that does not parse makes the whole normalisation fail, rather
  than dropping that row.

## Model

| member | source | states |
|---|---|---|
| Frames.RowsWithout | app.py:39 | the boolean-mask filter keeps exactly the rows whose cell in the column is not the given cell, and no more rows than it had |
| Frames.RowsWithoutCounts | app.py:39 | each kept row occurs as often as in the input, each dropped row not at all |
| Frames.RowsWithoutAppend | app.py:39 | the filter distributes over concatenation, so the kept rows stay in input order |
| Frames.Amount | app/ingest.py:19 | a number reads as itself, an empty cell as zero (pandas skips missing values in a sum), and a text cell has no amount |
| Frames.Lower | app.py:47 | lower-casing keeps the length and maps each character to its lower-case form |
| Frames.FirstIndex | app.py:47-48 | the first position whose column satisfies the test, or none exactly when no column does |
| Frames.Filter | app/ingest.py:34 | the list comprehension keeps exactly the elements satisfying the test |
| Frames.FilterCounts | app/ingest.py:34 | each kept element occurs as often as in the input, each other element not at all |
| Frames.FilterAppend | app/ingest.py:34 | the comprehension distributes over concatenation, so it keeps the order |
| Grouping.GroupSum | app.py:40 | grouping gives each key once, exactly the keys of the input, each with the sum of its amounts, and keeps the grand total |
| Models.UniqueKeysAppend | app/models.py:17-26 | two row lists together satisfy the unique constraint iff each does and they share no key |
| Models.UniqueKeys | app/models.py:17-26 | defines the unique constraint: no two rows share (provider, account, service, year, month). Its properties are Models.UniqueKeysAppend and the Store rows |
| Models.CostTableValid | app/models.py:6-26 | defines a valid cost table: unique natural keys, distinct primary keys, each below the next id. Store.InsertBatch and Store.UpsertBatch preserve it |
| Models.TotalCostPermutation | app/savings.py:19 | the sum of the amounts does not depend on the order of the rows |
| Ingest.DetectProvider | app/ingest.py:1-8 | AZURE iff "UsageDate" is a column; AWS iff not that but "Total costs($)"; GCP iff neither but "Service description"; SNOWFLAKE iff none of the three |
| Ingest.Periods | app/ingest.py:13-15 | each row's (year, month) is read from its parsed date |
| Ingest.AzureRows | app/ingest.py:13-18 | the rows that reach the grouping are exactly those whose UsageDate is present |
| Ingest.NormalizeAzure | app/ingest.py:12-27 | each missing column, unparsable date or text amount among the dated rows fails the call. It succeeds iff none happens. Every row is AZURE, the account, service "ALL". At most one row per month |
| Ingest.AzureOneRowPerMonth | app/ingest.py:17-21 | the output is key-unique, and has a row for the month of every dated input row and only for such months |
| Ingest.AzureMonthSums | app/ingest.py:17-21 | each output row's amount is the sum of CostUSD over the dated input rows of its month |
| Ingest.AzureConservesTotal | app/ingest.py:17-21 | grouping by month keeps the total of CostUSD over the dated rows |
| Ingest.RemoveTrailingMarker | app/ingest.py:47 | a trailing "($)" is removed from a service name |
| Ingest.RemoveMarker | app/ingest.py:47 | `str.replace` of "($)" with nothing; it never lengthens a name. Ingest.RemoveTrailingMarker, RemoveLeadingMarker, RemoveMarkerNoParen and RemovesEveryOccurrence state what it removes |
| Ingest.RemoveMarkerNoParen | app/ingest.py:47 | a name without "(" passes through the replacement unchanged |
| Ingest.RemoveLeadingMarker | app/ingest.py:47 | a leading "($)" is removed and the replacement continues after it |
| Ingest.RemovesEveryOccurrence | app/ingest.py:47 | every occurrence is removed, not only the last: a + "($)" + b + "($)" becomes a + b |
| Ingest.TotalCostsColumnService | app/ingest.py:4-47 | the "Total costs($)" column is itself a service column and is stored as service "Total costs" |
| Ingest.MeltFrom | app/ingest.py:36-41 | every melted cell is the cell of one kept row in one melted column |
| Ingest.MeltHas | app/ingest.py:36-41 | every (row, melted column) pair has its melted cell |
| Ingest.PositiveCells | app/ingest.py:49 | the mask keeps only melted cells with a positive amount, and no more cells than it had |
| Ingest.PositiveCellsCounts | app/ingest.py:49 | each positive cell is kept as often as it occurs, every other cell not at all, so exactly the positive cells are kept |
| Ingest.PositiveCellsKeepTwo | app/ingest.py:49 | two positive cells keep their relative order after the mask |
| Ingest.PositiveRecords | app/ingest.py:49 | exactly the melted cells with a positive amount become records, at most one per cell |
| Ingest.AwsRecord | app/ingest.py:43-49 | defines the record of one melted cell: AWS, the account, the marker-free service, the cell's period and amount. Ingest.AwsProvenance and AwsOnePerPositiveCell state its use |
| Ingest.PositiveRecordsPointwise | app/ingest.py:43-49 | one record per positive cell, in order: the p-th record is built from the p-th positive cell |
| Ingest.MeltAt | app/ingest.py:36-41 | the melt is column-major: the cell of kept row i in the k-th melted column sits at position k times the row count plus i |
| Ingest.Melt | app/ingest.py:36-41 | `df.melt`: one cell per (service column, row) pair, so |cols| * |rows| cells. Ingest.MeltFrom, MeltHas and MeltAt state where each cell comes from |
| Ingest.AwsServiceColumns | app/ingest.py:34 | the melted columns are exactly those after the date column whose name ends in "($)" |
| Ingest.AwsRows | app/ingest.py:30 | defines the kept AWS rows: Frames.RowsWithout on the first column and the "Service total" subtotal, so by that row exactly the rows whose first cell is not the subtotal, each as often as before. Ingest.AwsProvenance and AwsCompleteness state its use |
| Ingest.NormalizeAws | app/ingest.py:29-49 | no columns, an unparsable date or a text amount fails the call; it succeeds iff none happens. Every record is AWS, the account and a positive amount. At most one per kept row and service column. Each comes from a non-subtotal row and a "($)" column, and each positive such cell yields one |
| Ingest.AwsProvenance | app/ingest.py:30-49 | each AWS record comes from a non-subtotal row whose date parses, in a "($)" column, with the marker removed |
| Ingest.AwsCompleteness | app/ingest.py:30-49 | each positive cell of a kept row in a "($)" column appears as a record with that row's period |
| Ingest.AwsOnePerPositiveCell | app/ingest.py:36-49 | the output has exactly one record per positive melted cell, in melt order |
| Ingest.AwsSameMonthTwoRecords | app/ingest.py:36-49 | two kept rows dated in one month with positive costs in one column give two records with the same key and those two costs: nothing merges them |
| Ingest.NormalizeGcp | app/ingest.py:51-66 | a missing column, a non-text service or a text amount fails the call; it succeeds iff none happens. Otherwise one record per input row: GCP, account, service from "Service description", the given period, amount from "Subtotal ($)" |
| Store.Numbered | app/models.py:9 | the batch gets consecutive fresh ids from the counter, in order |
| Store.CostStore.Valid | app/models.py:6-26 | defines the store invariant: the cost and savings tables are valid. The constructor establishes it and every CostStore method keeps it |
| Store.InsertBatch | app/main.py:32-36 | the commit as written succeeds iff the stored rows and the batch together have unique keys. It then appends the batch with fresh ids and keeps the table valid |
| Store.ReuploadRejected | app/main.py:32-36 | committing the same non-empty batch twice always fails the second time |
| Store.RepeatedKeyRejected | app/main.py:32-36 | a batch that repeats a natural key fails whatever the table holds |
| Store.FindKey | app/models.py:17-26 | finds the stored row with a given key, or there is none |
| Store.UpsertOne | app/models.py:17-26 | insert-or-overwrite of one record keeps the table valid and stores the record. Rows of other keys are kept, and nothing else appears |
| Store.LastFor | app/main.py:32-34 | a record of the batch with the key, with no later record of that key, and none exactly when the batch lacks the key |
| Store.UpsertBatch | app/main.py:32-36 | the intended commit keeps the table valid, with uniqueness included, and never lowers the id counter |
| Store.UpsertOnlyBatch | app/main.py:32-36 | every row after the upsert was stored before or holds a record of the batch |
| Store.UpsertLastWriteWins | app/main.py:32-36 | after an upsert, the last record of the batch for each key is stored |
| Store.UpsertKeepsOthers | app/main.py:32-36 | rows whose key the batch never mentions survive the upsert |
| Store.TwoWritesOneRow | app/models.py:17-26 | two records with one key leave exactly one row with that key, holding the second |
| Store.CostStore.constructor | app/models.py:6-39 | both tables start empty and valid |
| Store.CostStore.Commit | app/main.py:36 | the commit as written: ok iff keys stay unique. On success the batch is appended with fresh ids; otherwise nothing changes; the savings table is untouched |
| Store.CostStore.CommitUpsert | app/main.py:32-36 | the intended commit: the new cost table is the upsert of the batch; the savings table is untouched |
| Store.CostStore.AddSavings | app/savings.py:22-33 | appends one savings row with the next id and changes nothing else |
| Savings.Matching | app/savings.py:5-10 | exactly the stored rows of the account and provider |
| Savings.MatchingCounts | app/savings.py:5-10 | each matching row occurs as often as it is stored, every other row not at all |
| Savings.MatchingAppend | app/savings.py:7-10 | the filter distributes over concatenation |
| Savings.LatestIndex | app/savings.py:11 | a row no earlier than any other by (year, month); the first such among ties |
| Savings.TopLatest | app/savings.py:11-13 | the limit picks min(3, n) rows, and the picked rows plus the rest are a permutation of the input |
| Savings.TopLatestDescending | app/savings.py:11 | the pick is in descending (year, month) order |
| Savings.TopLatestRestNotLater | app/savings.py:11-13 | no row left out is later than any row picked |
| Savings.Projection | app/savings.py:16-20 | no projection iff fewer than three rows |
| Savings.Estimate | app/savings.py:5-20 | no estimate iff fewer than three rows match the account and provider |
| Savings.EstimatePicksLatest | app/savings.py:5-20 | an estimate is 4 times the total of three matching rows. No matching row that was left out is later than any of them |
| Savings.EstimateExactlyThree | app/savings.py:16-20 | with exactly three matching rows, the estimate is their total / 3 * 12, whatever their order |
| Savings.EstimateIgnoresOthers | app/savings.py:7-10 | rows of another account or provider do not change the estimate |
| Savings.CalculateAnnualSavings | app/savings.py:4-33 | the cost table is unchanged. With an estimate p, one row (next id, provider, account, "yearly", "annual", p, 0, p) is appended; without, nothing changes |
| Upload.Normalize | app/main.py:19-28 | dispatches on the detected provider, with GCP at period 2025/1; unsupported iff SNOWFLAKE |
| Upload.NormalizeTagsRecords | app/main.py:21-26 | every normalised record carries the detected provider and the upload's account; GCP records are January 2025 |
| Upload.NormalizedColumns | app/ingest.py:17-66 | the AWS frame holds a "date" column; the Azure and GCP frames only hold cost-row fields |
| Upload.Stage | app/main.py:32-34 | the staging loop succeeds iff there is no row or every column is a field of the cost row (app/models.py:9-15), and then it stages every normalised row, in order |
| Upload.AwsUploadNotStaged | app/main.py:33 | an AWS upload with a positive cost in a kept row normalises to a non-empty frame whose columns are not all cost-row fields, so it is never staged |
| Upload.StagedColumns | app/ingest.py:59-66 | the intended staging narrows the frame to the cost-row fields and drops nothing but "date" |
| Upload.HandleUpload | app/main.py:16-40 | unsupported iff SNOWFLAKE, and normalisation fails iff the normaliser fails. Staging fails iff the frame is non-empty and has a column the cost row lacks. The commit fails iff a natural key collides. Each failure leaves both tables unchanged and runs no estimate. On success: count = rows, the rows are appended, and savings follow the estimate |
| Upload.HandleUploadUpsert | app/main.py:16-40 | the intended endpoint never fails at staging or commit; on success the cost table is the upsert of the rows and savings follow the estimate |
| Dashboard.DropTotals | app.py:39 | fails iff the label column is missing; otherwise keeps the columns and exactly the rows without the label, each as often as before |
| Dashboard.AccountEntries | app.py:40 | at most one (account, amount) pair per row, never with an empty account, as groupby skips missing keys |
| Dashboard.AccountEntriesPointwise | app.py:40 | one pair per row with a present account, in order: the i-th pair is that row's account and amount |
| Dashboard.AccountEntriesKeys | app.py:40 | an account appears iff it is the non-empty account of some row |
| Dashboard.Tagged | app.py:41 | every group gets the provider tag, with account and sum unchanged |
| Dashboard.GroupByAccount | app.py:40-42 | fails on a missing key column; succeeds iff both columns exist and no amount is text; every row gets the tag |
| Dashboard.GroupByAccountRows | app.py:40 | the accounts are distinct and non-empty, each occurs in some row, and each sum is the total of that account's amounts |
| Dashboard.GroupByAccountCovers | app.py:40 | every row's non-empty account has its group |
| Dashboard.GroupByAccountTotal | app.py:40 | grouping keeps the total |
| Dashboard.AzureAccounts | app.py:39-42 | fails on a missing "name" column; otherwise groups the rows without "SUBSCRIPTION TOTAL" |
| Dashboard.GcpAccounts | app.py:43-46 | fails on a missing "CLOUD_RESOURCE.Name" column; otherwise groups the rows without "PROJECT TOTAL" |
| Dashboard.TotalRowDropped | app.py:39 | a total row anywhere in the table is as if it were absent |
| Dashboard.AzureTotalRowIgnored | app.py:39-42 | the Azure groups do not see a "SUBSCRIPTION TOTAL" row |
| Dashboard.GcpTotalRowIgnored | app.py:43-46 | the GCP groups do not see a "PROJECT TOTAL" row |
| Dashboard.FirstColumn | app.py:47-48 | the first column passing the test; fails (the [0] of an empty list) iff none does |
| Dashboard.AwsAccounts | app.py:47-51 | fails without an account column, and with an account column but no cost column; otherwise groups by the first account column over the first cost column |
| Dashboard.FirstSuchUnique | app.py:47-48 | the first column passing a test is one column: the grouping does not depend on how it is found |
| Dashboard.AllData | app.py:52 | succeeds iff all three succeed. Then it is Azure, then GCP, then AWS groups; otherwise it is the first failure in that order |
| Dashboard.AzureAccountsTagged | app.py:41 | every Azure group is tagged "Azure" |
| Dashboard.GcpAccountsTagged | app.py:45 | every GCP group is tagged "GCP" |
| Dashboard.AwsAccountsTagged | app.py:50 | every AWS group is tagged "AWS" |
| Dashboard.ProviderTotalUniform | app.py:70 | a uniformly tagged table's card is its total, and any other card is zero |
| Dashboard.ProviderTotal | app.py:70 | defines a provider card: the sum of "Cost Saved" over that provider's rows. Dashboard.ProviderTotalUniform, CardsOfThree and ProviderSumsAreCards state its value |
| Dashboard.CardsOfThree | app.py:66-70 | for three uniformly tagged parts, the total is the sum of the three cards |
| Dashboard.TotalSaved | app.py:66 | defines the Total Saved figure: the sum of every "Cost Saved". Dashboard.TotalIsSumOfCards and GroupByAccountTotal state its value |
| Dashboard.TotalIsSumOfCards | app.py:66-70 | the Total Saved card equals Azure + AWS + GCP cards |
| Dashboard.ProviderPairsSum | app.py:86 | the per-provider sum of the pairs is the provider's card |
| Dashboard.ProviderSums | app.py:86 | the pie grouping has distinct providers and keeps the total |
| Dashboard.ProviderSumsAreCards | app.py:70-86 | each pie slice equals that provider's card |
| Dashboard.ProviderSumsKeys | app.py:86 | a provider has a slice iff some row carries it |
| Dashboard.FilterProvider | app.py:96 | "All" keeps everything; otherwise it keeps exactly the rows of the chosen provider, each as often as before |
| Dashboard.BarOfOneProvider | app.py:96-97 | a filtered bar has only the chosen provider, and its value is that provider's card |
| Dashboard.FilterKeepsTotal | app.py:96-97 | filtering keeps the chosen provider's total |
| Timeline.MonthColumns | app.py:117-119 | exactly the columns whose name starts with "202" |
| Timeline.Present | app.py:109 | exactly the month columns that the table has |
| Timeline.RowEntries | app.py:108-115 | one entry per present month of the row: its account, the provider, the month and the cell |
| Timeline.MonthEntries | app.py:107-115 | rows × months entries |
| Timeline.MonthEntriesAt | app.py:107-115 | entry i·m + j is row i at month j, in row-major order |
| Timeline.Extracted | app.py:105-116 | fails iff the id column is missing while some row meets some present month |
| Timeline.MissingIdFails | app.py:111 | reading a missing id column fails as soon as one row has a month to emit |
| Timeline.ExtractMonths | app.py:105-116 | the nested loops compute exactly the specified entries or failure |
| Timeline.Dated | app.py:125-126 | each kept entry's month parses and the entry is carried over with that date. Each entry whose month parses is kept |
| Timeline.Parses | app.py:125-126 | the entries that survive `dropna` are exactly those whose month parses |
| Timeline.ParsesCounts | app.py:125-126 | each surviving entry occurs as often as in the input |
| Timeline.DatedPointwise | app.py:125-126 | one dated entry per surviving entry, in order: the i-th is the i-th survivor with its month parsed |
| Timeline.TimelineOf | app.py:117-126 | specifies the timeline: the month entries of the Azure and GCP frames without their total rows and of the AWS frame by its first account column, concatenated and then dated; no entry at all fails. Timeline.BuildTimeline computes it and Timeline.TimelineProviders states its tags |
| Timeline.BuildTimeline | app.py:117-126 | builds exactly the specified timeline from the filtered Azure and GCP frames and the AWS frame |
| Timeline.TimelineProviders | app.py:123-124 | every timeline entry is tagged Azure, GCP or AWS |
| Timeline.EntriesTagged | app.py:112 | every extracted entry carries the extraction's provider |
| Timeline.TrendPairs | app.py:129 | the ((month, provider), cost) pair of each selected entry |
| Timeline.TrendPairsKeys | app.py:129 | the keys of the pairs are exactly the (month, provider) of the entries |
| Timeline.Trend | app.py:128-129 | succeeds iff no selected cost is text. Points are distinct, there is one for exactly each (month, provider) of a selected entry, and each is the sum of its (month, provider) |
| Timeline.TrendOfOneProvider | app.py:128-129 | a trend filtered to one provider has only that provider's points |
| Scenarios.AwsExampleDetected | app/ingest.py:1-8 | an export with a "Service" column and a "Total costs($)" column is detected as AWS |
| Scenarios.AwsExample | app/ingest.py:29-49 | one dated row with EC2 100, S3 -5 and Total costs 95, plus the subtotal row, yields two records for January 2025: EC2 100 and "Total costs" 95 |
| Scenarios.AwsExampleUpload | app/main.py:19-33 | the endpoint sends that export to the AWS normaliser and gets the two records, and the normalised frame has a column the cost row lacks |
| Scenarios.AzureExample | app/ingest.py:12-27 | two January rows of 50 and 70 yield one record of 120, service "ALL" |
| Scenarios.AzureUndatedRowDropped | app/ingest.py:13-21 | adding a row of 30 without a UsageDate leaves the output at one record of 120 |

## Left out

- Reading files (`pd.read_csv`, `pd.read_excel`), the HTTP framework, the health endpoint, the static file mount and all Streamlit rendering, styling and charts: I/O and presentation. The tables arrive as values.
- Date parsing (`pd.to_datetime`) is a parameter of type `DateParser`. A date it rejects fails the Azure and AWS normalisers, as a raised exception does. In the timeline it drops the entry, as `errors='coerce'` with `dropna` does.
- Amounts are exact reals. Floating point, `Numeric` column rounding, and the `:,.0f` formatting of the cards are not modelled.
- A text amount is an error (`BadNumber`). In the Azure grouping and the sums of app.py, pandas would raise or concatenate strings, and the model does not say which. In the AWS normaliser, comparing a text amount with 0 raises. An empty cell counts as zero in sums and is not positive.
- Ingest.NormalizeGcp: the source checks no cell types. A numeric or empty service and a text subtotal pass through to staging, and an empty subtotal stays NaN rather than zero. The model's cost record has a text service and a real amount, so it rejects a non-text service (`BadText`) and a text subtotal (`BadNumber`), and reads an empty subtotal as zero.
- Ingest.NormalizeAzure, Ingest.NormalizeGcp: the source writes its new columns into the caller's frame (app/ingest.py:13-15 and 52-57). The AWS normaliser renames and converts columns of a filtered copy (app/ingest.py:30-32). The model's normalisers are functions of their input, and the endpoint never reads the frame again.
- pandas' NaN semantics for group keys are reduced to one case: a row whose key is empty is skipped.
- Group order: `Grouping.GroupSum` produces its own key order, while pandas sorts the keys. Only the contents are stated, never the order.
- Savings.LatestIndex: among rows with equal (year, month) the SQL order is unspecified. The model takes the first in storage order, and the proved properties hold for any choice.
- Frames.Lower: lower-cases ASCII letters only; the full Unicode lower-casing of `str.lower` is not modelled.
- Timeline.Extracted: the source reads `df.name` while extracting. Unless the frame has a 'name' column, the source raises AttributeError at app.py:112 once it builds an entry. On the Azure frame, which has a 'name' column (app.py:39), each entry's provider is that whole column. The model takes the intended provider tag as a parameter instead.
- Ingest.NormalizeAws: an empty date cell in a kept row becomes NaT in the source (app/ingest.py:32) without raising, and its positive cells become records with a missing year and month (lines 43-49). The model has no missing period, so the call either fails with BadDate or uses whatever date the parser gives for an empty cell.
- Dashboard.AwsAccounts: when the first account column is also the first cost column, pandas groups a column by itself. The model does not distinguish that case.
- Store.CostStore: SQLAlchemy sessions and `app.database` are not part of this model. The store is an in-memory class whose commit is atomic per batch.
- The GCP period (2025, 1) is fixed by the endpoint and is not checked against the export's contents.
- Upload.HandleUpload: the `account` query parameter defaults to the empty string, and the model accepts any string account as the source does.

## Findings

| source | as written | input that shows it | evidently intended | confidence | as-written member | corrected member |
|---|---|---|---|---|---|---|
| app/main.py:33 | the AWS frame keeps the `date` column the melt used as its identifier (app/ingest.py:36-41, 49), and each row's columns are passed to the cost-row constructor as keyword arguments. The cost row has no `date` field, so the first AWS row raises, nothing is staged or committed, and no estimate runs | an AWS export with one dated row and a positive "EC2($)" cell | the frame narrowed to the cost-row fields before staging, as the GCP normaliser does, so the rows are staged | not executed | Upload.AwsUploadNotStaged | Upload.HandleUploadUpsert |
| app/main.py:32-36 | every staged row is handed to `db.merge` without a primary key, so each becomes an insert. One commit then inserts them all, and the unique constraint on (provider, account, service, year, month) rejects the whole commit on any repeated key | uploading the same non-empty Azure or GCP export twice: the second commit repeats every key already stored and fails (an AWS upload fails earlier, at staging) | insert-or-overwrite by natural key, last write wins, one stored row per key | not executed | Store.ReuploadRejected | Store.UpsertLastWriteWins |
