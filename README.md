# MA60 deviation of market indices — Dafny model

The script `src/index_ma60_deviation.py` draws, for a fixed list of A-share
and Hong Kong market indices, the daily deviation of the closing level from
its 60-session moving average: `(close - ma60) / ma60`. This project models
the parts of the script that make decisions:

- the deviation engine `calculate_ma60_and_deviation`. It orders the daily table
  by date, adds the trailing 60-row mean of `close` (no value until 60 rows of
  history exist), and adds the deviation (modules `Ordering` and `Ma60`, over
  the table types of `Frames`);
- the selection of rows the chart draws in `plot_and_save_deviation`: the rows
  dated from the start date to the latest date (module `ChartWindow`);
- the choice of data branch in the main loop. The display-name text before the
  first `-` selects the branch, and a Hong Kong index is also checked against
  the Hong Kong listing (modules `Dispatch` and `Listing`);
- the main loop itself. It visits every configured index (as long as no fetch
  fails), skips one that takes no branch, and hands the engine's table and its
  window to the plotting step (module `Batch`).

Numbers are exact `real`s. A float cell (`Frames.Cell`) has four states:
a finite value, NaN (pandas' missing-value marker) or one of the two
infinities. That is enough to state what the script does when the moving
average is zero: it does not guard the division at line 48. A positive close
over a zero average gives +inf, a negative one gives -inf, and a zero close
gives NaN. The model keeps exactly these outcomes and promises no other
behaviour.

Dates are day numbers. The fetched table is a parameter of the engine and of
the main loop.

Three things the script does not do are therefore absent from the model. It
does not retry a failed fetch or fall back to another provider. It does not
reject rows that share a date; they are sorted like any others. It does not
report a zero average as an error.

## Model

| member | source | states |
|---|---|---|
| `Ordering.SortByDate` | src/index_ma60_deviation.py:44 | the rows come back in ascending date order, as a permutation of the input (same multiset, same length) |
| `Ordering.Insert` | src/index_ma60_deviation.py:44 | placing one row into a date-sorted table keeps it sorted and adds exactly that row |
| `Ordering.SortedPermutationUnique` | src/index_ma60_deviation.py:44 | when dates are distinct, two date-sorted permutations of one table are the same sequence |
| `Ordering.SortOrderIndependent` | src/index_ma60_deviation.py:44 | when dates are distinct, sorting gives the same table whatever the input order |
| `Ordering.DistinctDatesOfPermutation` | src/index_ma60_deviation.py:44 | reordering a table with distinct dates keeps the dates distinct |
| `Ma60.RollingMean` | src/index_ma60_deviation.py:46 | the mean is missing exactly at positions 0..58 (fewer than 60 rows of history); from position 59 on it is a number that, multiplied by 60, gives the sum of the closes of the 60 rows ending at that position |
| `Ma60.DeviationOf` | src/index_ma60_deviation.py:48 | a missing average gives a missing deviation. For a nonzero average `m` the deviation `d` satisfies `m * (1 + d) == close`, so the close can be recovered. For `m > 0`, `d` is positive, zero or negative exactly when close is above, equal to or below `m`; for `m < 0` the sign is reversed. For `m == 0` the result is +inf, -inf or NaN as the close is positive, negative or zero |
| `Ma60.Augment` | src/index_ma60_deviation.py:46-48 | adding the columns keeps every row's date and close and drops or adds no row. Positions 0..58 have neither average nor deviation; from position 59 the average is a number. The deviation is missing exactly where the average is missing, or where average and close are both zero |
| `Ma60.CalculateMa60AndDeviation` | src/index_ma60_deviation.py:33-49 | the result has as many rows as the input, holds the input rows in ascending date order (a permutation), and carries the `ma60` and `deviation` columns that `Augment` gives that order |
| `Ma60.AddColumns` | src/index_ma60_deviation.py:46-48 | a running sum of the last 60 closes, updated row by row, yields exactly the columns `Augment` specifies |
| `Ma60.WindowSumStep` | src/index_ma60_deviation.py:46 | taking row `i` into the trailing window adds its close, and from row 60 on drops the close 60 rows back |
| `Ma60.Compute` | src/index_ma60_deviation.py:43-49 | sorting and then adding the columns is a valid result of the engine for every table |
| `Ma60.NoAverageWithoutHistory` | src/index_ma60_deviation.py:46 | a table of fewer than 60 rows has no average and no deviation anywhere |
| `Ma60.Ma60WithinWindow` | src/index_ma60_deviation.py:46 | the average at position `i >= 59` lies between the smallest and the largest close of rows `i-59..i` |
| `Ma60.Ma60Slides` | src/index_ma60_deviation.py:46 | the average at `i+1` is the one at `i` plus (entering close - leaving close) / 60: the window counts rows, not days |
| `Ma60.FlatSeries` | src/index_ma60_deviation.py:46-48 | on a constant series the average equals the level and, for a nonzero level, the deviation is 0 |
| `Ma60.EngineOutputUnique` | src/index_ma60_deviation.py:43-49 | when dates are distinct, two tables holding the same rows in any order give the same result |
| `Ma60.SortedTableKeepsOrder` | src/index_ma60_deviation.py:44-48 | a table already in strictly ascending date order keeps its order; only the two columns are added |
| `ChartWindow.LatestDate` | src/index_ma60_deviation.py:65 | the latest date is the date of some row and no row is dated later |
| `ChartWindow.KeepBetween` | src/index_ma60_deviation.py:68 | the boolean mask keeps no more rows than the table has, and every kept row is dated in `[lo, hi]`; `KeepBetweenMembers` and `KeepBetweenCounts` state which rows and how often |
| `ChartWindow.ChartRows` | src/index_ma60_deviation.py:64-68 | the drawn rows are no more than the table's, none for an empty table, and each is dated from the start date to the latest date; `WindowMembers` states that exactly the rows dated on or after the start are drawn |
| `ChartWindow.KeepBetweenMembers` | src/index_ma60_deviation.py:68 | a row is selected exactly when the table holds it and it is dated in `[lo, hi]` |
| `ChartWindow.WindowMembers` | src/index_ma60_deviation.py:64-68 | the chart keeps exactly the rows dated on or after the start date: the upper bound, the latest date, removes none |
| `ChartWindow.KeepBetweenCounts` | src/index_ma60_deviation.py:68 | the selection holds each row dated in `[lo, hi]` exactly as many times as the table does, and no other row |
| `ChartWindow.KeepAll` | src/index_ma60_deviation.py:68 | when every row is dated in `[lo, hi]` the selection is the whole table |
| `ChartWindow.FirstFrom` | src/index_ma60_deviation.py:68 | the first position dated on or after the start, with every earlier row dated before it |
| `ChartWindow.SortedSelectionIsSuffix` | src/index_ma60_deviation.py:68 | on a date-sorted table the selection is the suffix starting at the first row dated on or after the start |
| `ChartWindow.LastIsLatest` | src/index_ma60_deviation.py:65 | in a date-sorted table the last row carries the latest date |
| `ChartWindow.WindowEndsAtLatest` | src/index_ma60_deviation.py:64-68 | on a date-sorted table reaching the start date, the chart is a non-empty suffix whose last row is the table's last row, dated with the latest date |
| `Dispatch.FirstField` | src/index_ma60_deviation.py:104 | `name.split("-")[0]` is a prefix of the name, holds no `-`, and is followed by `-` unless it is the whole name |
| `Dispatch.FirstFieldUnique` | src/index_ma60_deviation.py:104 | those three properties determine the first field |
| `Dispatch.PrefixOfJoinedName` | src/index_ma60_deviation.py:104 | a name written `prefix-rest`, with no `-` in the prefix, has that prefix as its first field |
| `Dispatch.SelectBranch` | src/index_ma60_deviation.py:104-113 | prefix `A股` always selects the A-share branch. Prefix `港股` selects the Hong Kong branch exactly when the code is listed. Every other case selects no branch, so the index gets no series |
| `Dispatch.ConfiguredIndicesAreDispatched` | src/index_ma60_deviation.py:18-29 | each of the eight configured A-share indices always takes the A-share branch; the Hang Seng index takes the Hong Kong branch exactly when listed |
| `Listing.InIndex` | src/index_ma60_deviation.py:104 | `code in column` as pandas evaluates it: true exactly when some index label of the column is the code string; the values are not consulted |
| `Listing.InValues` | src/index_ma60_deviation.py:104 | the evidently intended test: true exactly when some value of the column is the code |
| `Listing.NeverInDefaultIndex` | src/index_ma60_deviation.py:104 | as written, `code in column` tests index labels, and no code string is a label of the default index |
| `Listing.HongKongSkippedAsWritten` | src/index_ma60_deviation.py:104 | as written, no index ever takes the Hong Kong branch, even when the listing holds its code |
| `Listing.HangSengSkippedAsWritten` | src/index_ma60_deviation.py:104 | for `港股-恒生指数` with `HSI` listed, the test as written selects no branch, while the value test selects Hong Kong |
| `Listing.HongKongSelectedWhenListed` | src/index_ma60_deviation.py:104 | with the value test, a `港股` index takes the Hong Kong branch exactly when its code is among the listed values |
| `Batch.RunBatch` | src/index_ma60_deviation.py:97-115 | every configured index is visited in order. An index yields no chart exactly when it selects no branch, given the listing test's answer for it, and the loop carries on. Otherwise its chart carries its name, a valid engine result for its fetched table, and that result's window from the start date |
| `Batch.HangSengNeverChartedAsWritten` | src/index_ma60_deviation.py:104-115 | with the listing test as written, the loop leaves the Hang Seng index without a chart, whatever codes the listing holds |
| `Batch.HangSengChartedWhenIntended` | src/index_ma60_deviation.py:104-115 | with the intended value test, the loop charts the Hang Seng index exactly when `HSI` is among the listed codes |
| `Batch.ChartEndsAtLatest` | src/index_ma60_deviation.py:114-115 | the drawn window of an engine result that reaches the start date is non-empty and ends on the row with the latest date |

## Left out

- Network fetches (lines 104, 105 and 109): the answer of the Hong Kong listing test and each daily table are parameters of `Batch.RunBatch`. No retry or fallback is modelled, because the script has none.
- Column selection and renaming (lines 105-106 and 109): a fetched table is already a sequence of `date`/`close` rows.
- Date parsing with `pd.to_datetime` (line 43) and `pd.Timestamp` (line 64): dates are day numbers. Line 43 overwrites the caller's `date` column in place. The model works on values, so that aliasing is not represented; on day numbers the overwrite changes nothing.
- Plotting, fonts, axis formatting, the title, the file name and saving (lines 14-16 and 70-95): only the row selection of lines 64-68 is modelled. For an empty table pandas gives no latest date (NaT), and formatting it in the title fails; the model does not cover that failure.
- Console printing (lines 110-111).
- Floating-point rounding: sums, means and quotients are exact over `real`. Signed zero is not modelled either (a mean of -0.0 would flip the infinity's sign). NaN or infinite closes in a fetched table are not modelled; closes are finite.
- Ma60.CalculateMa60AndDeviation: for rows that share a date, only "sorted and a permutation" is promised, because pandas' default sort is not stable. The result is unique only when dates are distinct (`Ma60.EngineOutputUnique`).
- Batch.RunBatch: the model has no failing fetch. In the script nothing catches an exception from the calls at lines 104, 105 and 109 (a network error, or a response without the `代码`, `date`, `close` or `latest` column), so such a failure ends the whole run at that index and the indices after it get no chart.
- Batch.RunBatch: for an empty fetched table the script fails when it formats the missing latest date (NaT) at line 79, which ends the whole run and leaves the remaining indices without charts. The model instead gives that index a chart with an empty window and goes on to the next index.
- Dict iteration order: the configured indices are a sequence in their written order, which is the order Python visits them.

## Findings

| source | as written | input that shows it | evidently intended | confidence | as-written member | corrected member |
|---|---|---|---|---|---|---|
| src/index_ma60_deviation.py:104 | `code in ak.stock_hk_index_spot_em()["代码"]` applies `in` to a pandas Series, which tests the Series' index labels, not its values | `港股-恒生指数` with code `HSI`, where the listing's code column holds `HSI` under the default integer index: the test is false, so the Hong Kong index is never charted | test whether the code is among the column's values (`code in column.values`) | medium: it depends on the listing having its default integer index; not executed | `Listing.HongKongSkippedAsWritten` | `Listing.HongKongSelectedWhenListed` |
