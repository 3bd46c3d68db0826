# Elevate Living dashboard: accounting core

`app.py` is a Streamlit dashboard for a small property-holding company. Behind
the page sits a small accounting core, and this project models it in Dafny and
proves properties about it:

- **Loading the uploads** (`process_data`). Each uploaded CSV is a frame: a
  header and rows of cells. A Starling-style file has the column
  `Amount (GBP)`. In such a file that column is renamed to `Amount`, and
  `Spending Category` is renamed to `Category`. The files are then
  concatenated in upload order. No upload gives the empty batch. An upload
  with no `Date` column anywhere fails where the dates are converted.
  `ProcessData` keeps the source's loop, which gathers the standardised frames
  one by one before the concatenation.
- **The capitalisation rule.** A row is moved to the balance sheet when both
  of these hold:
  - its `Counter Party` contains `JMW`, `WTB` or `SOLICITORS`, ignoring case;
  - the absolute value of its amount is strictly above 5000 GBP.

  Every other row stays in profit and loss (P&L).
- **The figures.** The model computes:
  - total income;
  - operating expense;
  - net profit;
  - capitalised assets;
  - the per-category P&L summary;
  - cash at bank, which is the last row's `Balance (GBP)`, or 0 when there is
    no such column;
  - balance-sheet total assets;
  - equity, which is the net profit.

Amounts are integer pence, so the 5000 GBP threshold is 500000. A blank
amount is pandas' NaN. It fails every comparison and a sum skips it, so it adds
nothing to any figure. A blank category is dropped by the group-by, so the P&L
summary adds up to net profit when every P&L row has a category (in general,
when the uncategorised P&L amounts sum to 0).
`Metrics.PandLSummaryMatchesNetProfit` states both halves of this.

The script raises an exception in these cases, and the model returns a `Failure`
for each:
- a column the script indexes is missing (`Date`, `Counter Party`, `Amount`,
  `Category`);
- an `Amount` cell holds text;
- the last row's `Balance (GBP)` holds text.

In the code, cash at bank
is the last row's balance, equity is the net profit, and nothing checks that
the balance sheet balances.

Modules: `Wrappers` (Option, Result), `Ingest` (`process_data`), `Text`
(upper-casing and keyword search), `Partition` (the capitalisation split),
`Metrics` (sums and the group-by), `Dashboard` (the report for a loaded batch).

## Model

| member | source | states |
|---|---|---|
| Ingest.CellOf | app.py:39-42 | a column the row's file lacks reads as blank (NaN), as pandas fills it in an outer concat |
| Ingest.RenameColumn | app.py:22 | only `Amount (GBP)` becomes `Amount` and only `Spending Category` becomes `Category`; every other name is kept |
| Ingest.Standardize | app.py:21-22 | rows are untouched; with `Amount (GBP)` present every column goes through the rename table, otherwise the frame is unchanged; only `Amount (GBP)`→`Amount` and `Spending Category`→`Category` ever change; no `Amount (GBP)` survives |
| Ingest.AliasFilesAgree | app.py:21-22 | a file using the aliases and one using the canonical names, with the same rows, standardise to the same frame |
| Ingest.AliasCellAgrees | app.py:21-22 | after the rename a row reads under `Amount`/`Category` exactly what it held under `Amount (GBP)`/`Spending Category` |
| Ingest.OtherCellsAgree | app.py:21-22 | the rename leaves what a row reads under any other column unchanged |
| Ingest.MergeColumns | app.py:28 | the merged header holds exactly the columns of either input and extends the first |
| Ingest.Concat | app.py:28 | no frames give the empty batch; the batch has as many rows as all files together (order: ConcatAppend, ConcatPlacesFile; header: ConcatColumns) |
| Ingest.ConcatColumns | app.py:28 | a column is in the batch header exactly when some file has it |
| Ingest.ConcatAppend | app.py:23-28 | concatenating two runs of uploads puts every row of the first before every row of the second |
| Ingest.LastFileColumns | app.py:28 | every column of the last uploaded file is a column of the batch |
| Ingest.ConcatPlacesFile | app.py:18-28 | row k of file j is at position (rows of files before j) + k of the batch, with that file's header |
| Ingest.RowInMiddleFile | app.py:18-28 | row k of a file uploaded between two runs of files sits after all rows of the files before it |
| Ingest.ConcatSnoc | app.py:23-28 | one more file appends its rows, with its header, after the rows so far |
| Ingest.LastRowOfBatch | app.py:28 | the batch's last row is the last row of the last file |
| Ingest.StandardizeAllRows | app.py:18-23 | standardising the files keeps the total number of rows |
| Ingest.ProcessData | app.py:16-30 | no files give the empty batch; otherwise the concatenation of the standardised files in upload order, or a missing-`Date` failure exactly when no file has `Date`; row count is the sum of the files' row counts; header is the union of the standardised headers |
| Text.Upper | app.py:39 | same length, each character ASCII upper-cased |
| Text.ContainsIff | app.py:39 | the substring scan succeeds exactly when the needle occurs at some position |
| Text.ContainsAnyIff | app.py:39 | the alternation matches exactly when some keyword occurs at some position |
| Text.SolicitorNameIff | app.py:38-39 | a name matches exactly when JMW, WTB or SOLICITORS occurs in its upper-cased form |
| Text.IsSolicitorName | app.py:38-39 | the case-insensitive keyword search; no contract of its own, specified by Text.SolicitorNameIff (both directions) and Text.MatchIgnoresCase |
| Text.MatchIgnoresCase | app.py:39 | names equal up to ASCII case match alike |
| Text.EmptyNameNeverMatches | app.py:39 | the empty name never matches |
| Text.KeywordInsideName | app.py:38-39 | a keyword written in any case, anywhere in the name, matches |
| Partition.IsSolicitor | app.py:39 | is_solicitor: only a text counterparty can match (`na=False`); Partition.CapitalisedIff gives the full condition |
| Partition.IsCapitalised | app.py:42 | the mask `is_solicitor & (abs > 5000)`: a capitalised row is a solicitor row whose amount is above 500000 or below -500000 pence; Partition.CapitalisedIff and Partition.ThresholdIsStrict state it both ways |
| Partition.Assets | app.py:42 | a row is in assets_df exactly when it is in the batch and capitalised |
| Partition.PandL | app.py:43 | a row is in p_and_l_df exactly when it is in the batch and not capitalised |
| Partition.PartitionSplitsBatch | app.py:42-43 | the batch is an order-preserving interleaving of assets_df and p_and_l_df; their lengths add up to the batch's, and their multisets to the batch's multiset |
| Partition.PartitionAppend | app.py:42-43 | splitting the concatenation of two runs of rows is concatenating their splits |
| Partition.ThresholdIsStrict | app.py:42 | for a solicitor row with an amount, it is capitalised iff the amount is above 500000 or below -500000 pence; ±500000 stays in P&L |
| Partition.MissingCounterPartyNeverCapitalised | app.py:39 | a blank, empty or numeric counterparty is never capitalised (`na=False`) |
| Partition.CapitalisedIff | app.py:38-42 | capitalised exactly when the counterparty is text in which a keyword occurs (upper-cased) and the amount's magnitude exceeds the threshold |
| Partition.BoundaryExample | app.py:38-42 | "jmw solicitors" at -5000.00 GBP stays in P&L, at -5001.00 GBP it is capitalised |
| Metrics.SumIncome | app.py:46 | the sum of positive amounts is never negative |
| Metrics.SumExpense | app.py:47 | the sum of negative amounts is never positive |
| Metrics.SumAbs | app.py:49 | the sum of magnitudes is never negative |
| Metrics.TotalIncome | app.py:46 | total_income >= 0 |
| Metrics.OperatingExpense | app.py:47 | operating_exp <= 0 |
| Metrics.TotalAssets | app.py:49 | total_assets >= 0 |
| Metrics.NetProfit | app.py:48 | net_profit equals the plain sum of all P&L amounts |
| Metrics.IncomePlusExpense | app.py:46-48 | income plus expense is the plain sum of amounts, so zero or blank amounts count in neither |
| Metrics.SumsAppend | app.py:46-49 | every sum over a concatenation is the sum of the sums |
| Metrics.NeutralRowAddsNothing | app.py:46-47 | inserting a row with a zero or blank amount anywhere changes neither income nor expense |
| Metrics.PartitionSums | app.py:42-43 | the batch total is the assets total plus the P&L total |
| Metrics.BatchSumSplits | app.py:42-48 | the batch total is the capitalised total plus net profit |
| Metrics.CapitalisedAbsBound | app.py:42 | rows that are all capitalised sum to at least 500001 pence each in magnitude |
| Metrics.TotalAssetsBound | app.py:49 | total_assets is at least 500001 pence times the number of capitalised rows |
| Metrics.RefundRaisesAssets | app.py:42-49 | a capitalised payment and an equal refund from the same solicitor both add their magnitude to total_assets and leave net profit at 0 |
| Metrics.Categories | app.py:62 | the distinct non-blank categories among the rows, each once |
| Metrics.Summary | app.py:62 | one entry per distinct non-blank category, holding the sum of that category's amounts |
| Metrics.SummaryShape | app.py:62 | entry i of the tabulation is key i with its category total |
| Metrics.SummaryCoversCategories | app.py:62 | a category has a summary entry exactly when it is non-blank and some row carries it |
| Metrics.SplitWithin | app.py:62 | adding a new key to the key list adds that category's total |
| Metrics.TabulateTotal | app.py:62 | the entries for distinct keys sum to the amounts of the rows filed under those keys |
| Metrics.WithinAll | app.py:62 | summing over exactly the rows' non-blank categories, plus the uncategorised rows, gives the plain total |
| Metrics.SummaryTotal | app.py:62 | the summary's entries plus the uncategorised rows' amounts sum to the total of all amounts |
| Metrics.PandLSummary | app.py:62 | pl_summary has no entry for a blank category |
| Metrics.PandLSummaryMatchesNetProfit | app.py:46-62 | pl_summary's entries plus the uncategorised P&L amounts equal net_profit; with every P&L row categorised they equal net_profit |
| Dashboard.ToTxn | app.py:39-42 | reads `Counter Party`, `Amount` and `Category` of a row, a blank amount as NaN; no contract of its own, specified through Ingest.CellOf, Ingest.AliasCellAgrees and Ingest.OtherCellsAgree |
| Dashboard.IsEmpty | app.py:35 | df.empty, no rows or no columns; no contract of its own, Dashboard.Evaluate shows the prompt exactly when it holds |
| Dashboard.CashAtBank | app.py:77 | 0 when no file has `Balance (GBP)`; otherwise the last row's balance, NaN when that cell is blank; fails exactly when that cell is text |
| Dashboard.AddMoney | app.py:78 | total_assets + cash: NaN exactly when the cash is NaN, otherwise the cash plus total_assets |
| Dashboard.ReportOf | app.py:46-80 | the accounts for a batch's transactions and a cash figure: income, expense, total_assets and the P&L summary are TotalIncome, OperatingExpense, TotalAssets and PandLSummary; the balance-sheet total is AddMoney of total_assets and cash; income >= 0, expense <= 0, assets >= 500001 pence per capitalised row, net profit = income + expense = sum of P&L amounts, net profit + capitalised amounts = batch total, equity = net profit, summary + uncategorised = net profit |
| Dashboard.Evaluate | app.py:35-80 | shows the prompt exactly when the batch is empty; gives the accounts exactly when every column the page touches is present and readable; on a non-empty batch fails on a missing `Counter Party`, then a missing `Amount`, then a text amount, then a missing `Category`, then a text last `Balance (GBP)`, in that order, and a failure always names a missing column or points at a text cell; the report's income, expense, assets, P&L summary and cash are TotalIncome, OperatingExpense, TotalAssets, PandLSummary and CashAtBank of the batch, and its balance-sheet total is AddMoney of total_assets and cash (NaN when cash is NaN); income >= 0, expense <= 0, assets >= 500001 pence per capitalised row, net profit = income + expense = sum of P&L amounts, net profit + capitalised amounts = batch total, equity = net profit, summary + uncategorised = net profit |
| Dashboard.NoUploadsNoData | app.py:25-35 | no uploads give the upload prompt |
| Dashboard.CashFromLastFile | app.py:77 | cash at bank is the balance on the last row of the last uploaded file |
| Dashboard.BalanceFromLastFrame | app.py:77 | the batch's last row reads, under `Balance (GBP)`, the balance on the last row of the last file, whether or not that file was renamed |
| Dashboard.BalanceSheetFromLastFile | app.py:77-78 | when the page shows the accounts, cash is the last uploaded file's last balance and the balance-sheet total is total_assets plus it |
| Dashboard.ReportWithCash | app.py:77-78 | on a batch that shows the accounts, a numeric cash figure v makes the balance-sheet total total_assets + v |
| Dashboard.CashNaNWhenLastFileLacksBalance | app.py:77 | cash at bank is NaN when some file has `Balance (GBP)` but the last file does not |

## Left out

- The Streamlit page and the Plotly chart (app.py:6-13, 51-88). They only show the figures. The model stops at the values they display.
- `pd.read_csv` (app.py:19). A frame is given already parsed, with money cells already in pence. Reading the file is library code.
- Converting dates with `pd.to_datetime(..., dayfirst=True)` (app.py:29). Date cells are opaque, and a date pandas cannot parse is not modelled as an error. Only the missing `Date` column is modelled.
- The descending date sort of the transaction log (app.py:85). It is for display only.
- Floating-point money and the `£{:,.2f}` formatting. Amounts are exact integer pence.
- Text.UpperChar: upper-cases ASCII only. Python's case-insensitive matching also folds a few non-ASCII letters, such as 'ſ' to 's'.
- Metrics.Summary: lists categories in order of first appearance. pandas sorts the group keys, so only the display order differs.
- Ingest.CellOf: reads the first column of a given name. A file that has both `Amount (GBP)` and `Amount` gets two `Amount` columns after the rename. A file that has `Amount (GBP)`, `Spending Category` and `Category` gets two `Category` columns, and the group-by on `Category` (app.py:62) would then raise. In both cases pandas would select both columns or refuse to concatenate, while the model reads the first one. These cases are not modelled.
- Ingest.MergeColumns: only which columns the merged header holds is proved, not their order. No figure depends on the order.
- Dashboard.Evaluate: a `Counter Party` column with no text values at all makes pandas' `.str` raise. The model reads such a column as never matching.
- Dashboard.Evaluate: when pandas raises partway through the page, Streamlit keeps what it had already drawn. The model returns only the failure.
