# Retail BI ETL pipeline — a verified model of the transform stage

This project models the transformation stage of the retail business-intelligence
ETL pipeline (`ETLPipeline` in `02_etl/pipeline.py`). The pipeline reads a fact
table of sales and builds three derived tables from it:

- the derived columns of each sale: year, month, day of week and margin %;
- `vendas_mensais`, the monthly rollup: revenue, profit, quantity, number of
  sales and average ticket per (year, month);
- `rfm_clientes`, the customer RFM table: recency in days, frequency and
  monetary value per customer, a 1–5 quintile score for each, the score
  string and the segment (Champions, Leais, Potencial, Em Risco, Perdidos);
- `abc_produtos`, the ABC product table: revenue and quantity per product,
  ranked by revenue from largest to smallest, with running revenue, its share
  of the total and the class A, B or C.

Modules, one per file:

- `Calendar` (`calendar.dfy`): the proleptic Gregorian calendar on day numbers
  counted from 1970-01-01. It gives the year, month and weekday of a timestamp.
- `Sales` (`sales.dfy`): the sale record, float division as a `Quotient`
  (finite, ±infinity or not-a-number) and the normalisation of one fact row.
- `Grouping` (`grouping.dfy`): the sorted group-by shared by the three
  reductions. It is a fold into a key-ascending list of aggregates, and
  `GroupSales` computes it with a loop.
- `Monthly` (`monthly.dfy`), `Rfm` (`rfm.dfy`) and `Abc` (`abc.dfy`): the three tables.
- `Wrappers` (`wrappers.dfy`): the `Option` type used for the outcomes of
  reading and of binning.
- `Pipeline` (`pipeline.dfy`): the `EtlPipeline` class. Its fields are the
  four tables. `Transform` replaces them step by step, and `Run` sequences
  extract, transform and load with early return.

Modelling choices:

- Money is an integer (cents). Timestamps are integer seconds since 1970-01-01.
- Recency is the floor of (as-of − latest sale) over 86400 s, because a time
  delta's day count rounds down. The as-of instant is a parameter.
- Shares and margins are exact reals wrapped in `Quotient`. A division by zero
  gives +infinity, −infinity or not-a-number, as floating point does.
  `classificar_abc` on not-a-number returns C, because every comparison with
  NaN is false.
- Quintile binning takes the four inner edges as input. A value's score is the
  label of its right-closed bin: R labels are 5..1 and F and M labels are 1..5.
  There are five labels and duplicate edges are dropped, so the binning fails
  unless the six edges (minimum, four inner edges, maximum) are strictly
  increasing. When it fails, `Transform` returns false. At that point the fact
  table and the monthly table have already been replaced, and the RFM and ABC
  tables are left as they were.
- The model follows the code on these points:
  - segment labels are the code's Portuguese names;
  - a column with too few distinct quintile edges makes the binning fail; it is
    not cut into fewer bins;
  - ties in the revenue ranking have no defined order; they are not broken by
    product id;
  - a zero revenue total is not an error. With non-negative revenues every
    share is not-a-number and every class is C (`Abc.AbcZeroRevenue`). With
    revenues of both signs a share is +infinity, −infinity or not-a-number,
    classed C, A and C respectively.

## Model

| member | source | states |
|---|---|---|
| Calendar.CivilFromDays | 02_etl/pipeline.py:52-53 | the year, month and day of a day number form a valid calendar date whose day number is that number |
| Calendar.CivilFromDaysInverse | 02_etl/pipeline.py:52-53 | every valid date is the calendar date of its own day number, so day numbers and dates are in one-to-one correspondence |
| Calendar.DayNumber | 02_etl/pipeline.py:52-54 | the calendar day of a timestamp is the n with n·86400 ≤ t < (n+1)·86400 |
| Calendar.Weekday | 02_etl/pipeline.py:54 | the day of week is in 0..6 |
| Calendar.WeekdayAdvances | 02_etl/pipeline.py:54 | the weekday advances by one each day and repeats every seven days |
| Calendar.EpochIsThursday | 02_etl/pipeline.py:54 | day 0 is 1970-01-01 and has weekday 3 (Thursday, Monday = 0) |
| Sales.Percent | 02_etl/pipeline.py:55-57 | part/whole·100 is finite exactly when whole ≠ 0, and then (value · whole = part · 100); otherwise +inf, −inf or NaN by the sign of part |
| Sales.Derive | 02_etl/pipeline.py:52-57 | month in 1..12, weekday in 0..6 and equal to `Weekday` of the sale's day number (Monday = 0), some valid day of that year and month has the sale's day number, margin = Percent(profit, revenue) |
| Grouping.AccumulateGroups | 02_etl/pipeline.py:60-65 | the aggregates come in strictly ascending key order, their keys are exactly the keys of the sales, and each equals the reduction of its own group |
| Grouping.AggregateMeasures | 02_etl/pipeline.py:60-64 | a group's aggregate holds the sums of its revenue, profit and quantity, its number of sales, and its latest date (one of its dates, at least every date) |
| Grouping.AccumulateConserves | 02_etl/pipeline.py:60-65 | summed over the groups, each measure equals its sum over the ledger |
| Grouping.GroupSales | 02_etl/pipeline.py:60-65 | the group-by loop returns the fold `Accumulate` of the ledger |
| Monthly.MonthlyRollupOrdered | 02_etl/pipeline.py:60-65 | rows come in strictly ascending (year, month) order, so no month occurs twice |
| Monthly.MonthlyRollupMonths | 02_etl/pipeline.py:60-65 | there is a row for every month that has a sale and for no other month |
| Monthly.MonthlyRollupRows | 02_etl/pipeline.py:60-70 | each row has at least one sale, the sums of revenue, profit and quantity and the count of its month's sales, and ticket · count = revenue |
| Monthly.RollupRowTicket | 02_etl/pipeline.py:68-70 | ticket is revenue divided by number of sales |
| Monthly.MonthlyConservation | 02_etl/pipeline.py:60-65 | summed over the months, revenue, profit, quantity and sale count equal the ledger's totals |
| Monthly.MonthlyCountIsSalesCount | 02_etl/pipeline.py:64-67 | the monthly sale counts add up to the number of sales |
| Rfm.RecencyDays | 02_etl/pipeline.py:76 | recency is the number of whole days from the latest sale to the as-of instant, rounded down |
| Rfm.BinIndexLocates | 02_etl/pipeline.py:84-86 | with increasing edges, the bin index k puts v above edge k−1 and at or below edge k (right-closed bins) |
| Rfm.RecencyScore | 02_etl/pipeline.py:84 | the R score is in 1..5 and is 5 minus the bin index (labels 5,4,3,2,1) |
| Rfm.DirectScore | 02_etl/pipeline.py:85-86 | the F and M scores are in 1..5 and are 1 plus the bin index (labels 1..5) |
| Rfm.RecencyScoreReversed | 02_etl/pipeline.py:84 | a larger recency never gets a higher R score |
| Rfm.DirectScoreMonotone | 02_etl/pipeline.py:85-86 | a larger frequency or monetary value never gets a lower score |
| Rfm.DirectScoreBin | 02_etl/pipeline.py:85-86 | score k means v is in the right-closed bin (edge k−2, edge k−1] |
| Rfm.ConstantColumnRejected | 02_etl/pipeline.py:84-86 | a column whose values are all equal cannot be binned |
| Rfm.ScoreStringRoundTrip | 02_etl/pipeline.py:88-92 | the score string has length 3, characters 0 and 1 are the R and F digits, and reading it back yields (R, F, M) |
| Rfm.ParseScoreInverse | 02_etl/pipeline.py:88-92 | every string that reads as three digits is the score string of those digits |
| Rfm.SegmentIsFirstMatch | 02_etl/pipeline.py:95-105 | the segment is the label of the first rule in the ordered table that matches, Perdidos when none does |
| Rfm.SegmentByScores | 02_etl/pipeline.py:95-105 | for R, F in 1..5 each segment holds exactly on the (R, F) pairs listed, so every score gets exactly one of the five labels |
| Rfm.SegmentIgnoresMonetary | 02_etl/pipeline.py:95-107 | the segment does not depend on the M score |
| Rfm.FirstMatchWins | 02_etl/pipeline.py:96-99 | (R, F) = (4, 4) matches the first two rules and gets Champions |
| Rfm.FallThroughToPerdidos | 02_etl/pipeline.py:96-105 | (1, 5) gets Perdidos, and (5, 5) falls through to Perdidos once the first rule is skipped |
| Rfm.EmptyLedgerRejected | 02_etl/pipeline.py:84-86 | with no customers the binning fails |
| Rfm.EqualFrequenciesRejected | 02_etl/pipeline.py:85 | when every customer has the same number of sales the frequency binning fails |
| Rfm.CustomerRfmRows | 02_etl/pipeline.py:75-92 | each row's frequency, monetary value and recency come from that customer's own sales, with the scores, score string and segment computed from them |
| Rfm.CustomerRfmOrdered | 02_etl/pipeline.py:75-79 | rows come in strictly ascending customer order, one per customer |
| Rfm.CustomerRfmCustomers | 02_etl/pipeline.py:75-81 | the customers of the table are exactly the customers with a sale |
| Rfm.CustomerRfmFrequencies | 02_etl/pipeline.py:77 | the frequencies add up to the number of sales |
| Rfm.CustomerRfmScoreDirection | 02_etl/pipeline.py:84-86 | between two customers, more recency never means a higher R score, and more frequency or monetary value never means a lower F or M score |
| Abc.SalesByProductRows | 02_etl/pipeline.py:111-114 | one entry per product sold, in ascending product order, holding the sums of that product's revenue and quantity |
| Abc.SalesByProductRevenue | 02_etl/pipeline.py:111-118 | the product revenues add up to the ledger's revenue |
| Abc.SortByRevenueDescending | 02_etl/pipeline.py:116 | the result is in non-increasing revenue order and is a permutation of the input |
| Abc.RunningRevenue | 02_etl/pipeline.py:117 | entry i of the cumulative sum is the revenue of products 0..i |
| Abc.RevenueTotalPermutation | 02_etl/pipeline.py:116-118 | reordering products does not change total revenue |
| Abc.ClassifyBands | 02_etl/pipeline.py:121-127 | A exactly for share ≤ 80, B exactly for 80 < share ≤ 95, C exactly for share > 95 |
| Abc.ThresholdExamples | 02_etl/pipeline.py:121-127 | shares 79.9, 80, 80.1, 95 and 95.1 get A, A, B, B and C |
| Abc.ClassifyMonotone | 02_etl/pipeline.py:121-129 | a larger share never gets an earlier class |
| Abc.ShareOrder | 02_etl/pipeline.py:119 | over a positive total, a larger cumulative revenue never has a smaller share |
| Abc.ClassOfShare | 02_etl/pipeline.py:119-127 | over a positive total, the class follows from 100·cumulative compared with 80·total and 95·total |
| Abc.AbcPrefix | 02_etl/pipeline.py:117-129 | row i of the first n rows carries product i, the revenue of products 0..i, its share of the total and its class |
| Abc.AbcTable | 02_etl/pipeline.py:117-129 | one row per ranked product; row i carries the prefix revenue 0..i, its share of the total revenue and the class of that share |
| Abc.RankingOfTable | 02_etl/pipeline.py:116-130 | the table lists the products in ranking order |
| Abc.AbcClosure | 02_etl/pipeline.py:117-119 | the last cumulative revenue is the total, and with a positive total its share is exactly 100 and its class C |
| Abc.AbcSharesGrow | 02_etl/pipeline.py:116-129 | with non-negative revenues and a positive total, shares are finite and non-decreasing along the ranking, and classes never go back from C to B or from B to A |
| Abc.AbcZeroRevenue | 02_etl/pipeline.py:118-127 | with non-negative revenues totalling zero every share is not-a-number and every class is C |
| Abc.AbcTableOfLedger | 02_etl/pipeline.py:111-130 | any such table has one row per product sold, each with that product's totals, and its last cumulative revenue is the ledger's revenue |
| Pipeline.NormaliseFacts | 02_etl/pipeline.py:52-57 | every row, in order, keeps its sale and gets that sale's derived columns (year, month, weekday and margin, as `Derive` states them) |
| Pipeline.BuildAbc | 02_etl/pipeline.py:111-130 | the result is the ABC table of a revenue-descending permutation of the per-product totals |
| Pipeline.EtlPipeline.constructor | 02_etl/pipeline.py:23-25 | a new pipeline holds no tables |
| Pipeline.EtlPipeline.Extract | 02_etl/pipeline.py:27-44 | succeeds exactly when the read succeeded; then the fact table is the read ledger, else it is unchanged |
| Pipeline.EtlPipeline.Transform | 02_etl/pipeline.py:46-137 | the fact rows get their derived columns and the monthly table is rebuilt; it succeeds exactly when the RFM binning does, and then the RFM table is the ledger's and the ABC table is a revenue-descending ABC table of its products; on failure the RFM and ABC tables are unchanged |
| Pipeline.EtlPipeline.Run | 02_etl/pipeline.py:173-187 | succeeds exactly when the read, the RFM binning and the write all succeed; a failed read changes nothing; otherwise the fact and monthly tables are those of the read ledger; a failed binning leaves the RFM and ABC tables as they were; a successful binning leaves the RFM and ABC tables of the ledger, whether or not the write succeeds |

## Left out

- Reading and writing the CSV files, logging and the printed statistics in
  `extract` and `load` are I/O. The read's outcome is a parameter of
  `Extract` and `Run`. The write's outcome is the `written` parameter of `Run`.
  The dimension tables that `extract` also reads are not used by `transform`
  and are not modelled.
- `.round(2)` on margin, ticket and share is float rounding. The model keeps
  exact quotients. The source rounds the share before `classificar_abc`
  classifies it (02_etl/pipeline.py:129), so a share just above a threshold
  can round onto it: an exact share of 80.004 is B in the model, while the
  source rounds it to 80.0 and gives A.
- Timestamps are whole seconds. When sale timestamps are whole seconds,
  truncating the as-of instant to whole seconds does not change recency.
  Sub-second sale timestamps are not modelled: they can change recency by a
  day. A last sale at 1970-01-01T00:00:00.7 and an as-of instant one day later
  at 00:00:00.5 are 23:59:59.8 apart, so the source's recency is 0, while the
  same instants truncated to seconds (0 and 86400) give 1.
- Computing the quintile edges inside `pd.qcut` is floating-point
  interpolation. The model takes the four inner edges as inputs and requires
  nothing of them beyond what the binning checks.
- The ledger is assumed complete: a `Sale` has no missing (NaN or NaT)
  field. On incomplete data pandas behaves in four ways the model does not
  capture: `sum` skips NaN (02_etl/pipeline.py:61-63, 78); `'count'` on
  `ID_Venda` counts only non-null ids (lines 64, 77), so `Qtd_Vendas` and
  `Frequencia` can be smaller than the number of rows; `max` of the dates
  skips NaT (line 76); and `groupby` drops rows whose key (`Ano`/`Mes`,
  `ID_Cliente`, `ID_Produto`) is missing (lines 60, 75, 111).
  `Monthly.MonthlyCountIsSalesCount` and `Rfm.CustomerRfmFrequencies` hold
  for complete ledgers only.
- Abc.SortByRevenueDescending: the order of products with equal revenue is not
  stated, because the source's sort is not stable.
- The exceptions pandas could raise outside the binning, such as type errors
  in malformed columns, are not modelled. The only failure of `transform` is
  the rejected binning. An empty ledger fails there, as does any other column
  with too few distinct quintile edges.
- `Transform` builds the monthly table whole. It does not model the in-place
  column rename and the added ticket column one by one.
- The model leaves out `03_ml`, `05_api`, `run_pipeline.py` and the API tests.
  They are model-training wrappers, HTTP endpoints, process orchestration and
  response-shape tests, not part of the transformation.
