# Superstore dashboard: filters and roll-ups

This project models the data logic of a single-page Streamlit sales dashboard
(`dashboard.py`), written in Dafny. The page loads a table of orders and keeps the
orders between two dates. It then narrows them by the user's Region, State and City
selections and shows four views of what is left: sales by Category, sales by Region,
a monthly time series and a Sub-Category × month pivot.

Modules, from the bottom up:

- `Orders`: parsed order dates and order records, with `Sales` as an integer (cents).
- `Text`: Python's `str` ordering, which pandas uses to sort group keys. Also zero-padded decimal text, with proofs that padded numbers sort like the numbers.
- `Masks`: boolean masks (`>=`, `<=`, `isin`, `&`) and `df[mask]`.
- `Filtering`: the date filter (line 37). Also the filter chain `df2`/`df3`/`df4` (lines 41-58), which is computed and then never used. Also the eight-way `if/elif` ladder that builds `filtered_df` (lines 61-76). All three are compared with `Matching`, a reference filter that says "satisfy the date range and every non-empty selection".
- `Months`: the two month keys. One is the time-series text `"%Y : %b"`. The other is the pivot's monthly period, written `YYYY-MM`.
- `GroupBy`: `groupby(key)['Sales'].sum()`, built as a sorted association list.
- `Pivot`: `pivot_table(..., aggfunc='sum', fill_value=0)`.
- `Dashboard`: the whole page (`Compute`), the corrected page (`Intended`) and worked examples.

Every operation in the source is a vectorised pandas expression with no loop, so
every operation is modelled as a pure function. Rebinding `df`, the `.copy()` calls
and the columns `month_year`/`month` that are added in place (lines 118 and 165)
create no state worth modelling. They become a function from a row to its month key.

In two places the script's own code points to a behaviour other than the one it computes. This model follows what the code computes:

- The unused `df4` chain (lines 41-58) and the unreachable `else` (lines 75-76) both combine all three location selections. The ladder that builds `filtered_df` ignores the region selection when all three selections are non-empty.
- The time-series axis is given `tickformat="%b-%Y"` (line 123), which treats the keys as dates, and the pivot's period columns (line 166) are in calendar order. The time series itself is grouped by its text label, which pandas sorts alphabetically.

Both differences are listed under "## Findings".

## Model

| member | source | states |
|---|---|---|
| `Masks.Where` | dashboard.py:37 | `df[mask]` keeps exactly the rows the mask accepts. The result is an ordered subsequence of the table, so no row is reordered or changed. |
| `Masks.WhereCounts` | dashboard.py:44 | Every occurrence of an accepted row is kept, and no occurrence of a rejected row. |
| `Masks.WhereAll` | dashboard.py:37 | A mask that accepts every row returns the table unchanged. |
| `Masks.WhereAnd` | dashboard.py:41-58 | Masking a masked table equals masking once with `&`. This is why the chain collapses to one combined mask. |
| `Masks.SubsequenceTransitive` | dashboard.py:37-76 | A subsequence of a subsequence is a subsequence of the original. |
| `Filtering.DateMask` | dashboard.py:37 | The mask `(Order Date >= date1) & (Order Date <= date2)` accepts exactly the rows dated from `date1` to `date2`, both included. |
| `Filtering.DateFilter` | dashboard.py:37 | The date-filtered table is an ordered subsequence of the loaded table. It holds exactly the rows with `date1 <= Order Date <= date2`. |
| `Filtering.DateFilterReversed` | dashboard.py:37 | A start date after the end date gives an empty table. |
| `Filtering.Matching` | dashboard.py:41-58 | The reference filter. A row is kept if and only if it is in the date range and in every non-empty selection. |
| `Filtering.ChainIsConjunction` | dashboard.py:41-58 | `df4` equals the reference filter for every combination of selections. |
| `Filtering.BranchTaken` | dashboard.py:61-76 | The final `else` is never taken. With all three selections non-empty, the `state and city` arm runs. |
| `Filtering.NoSelectionKeepsAll` | dashboard.py:61-62 | With no location selected, `filtered_df` is the date-filtered table unchanged, which is also the reference result. |
| `Filtering.FullRangeKeepsAll` | dashboard.py:27-37 | With a date range covering every order (as the date inputs default to the table's first and last dates) and no location selected, `filtered_df` is the loaded table unchanged. |
| `Filtering.DispatchIsConjunction` | dashboard.py:61-74 | In every emptiness pattern except "all three non-empty", `filtered_df` equals the reference filter. |
| `Filtering.DispatchIgnoresRegion` | dashboard.py:67-68 | With all three selections non-empty, `filtered_df` equals the reference filter with the region selection removed. |
| `Filtering.ChainAgreesWithDispatch` | dashboard.py:41-76 | `df4` and `filtered_df` are equal except when all three selections are non-empty. |
| `Filtering.FilteredIsSubsequence` | dashboard.py:37-76 | `filtered_df` is an ordered subsequence of the date-filtered table. That table is an ordered subsequence of the loaded table. |
| `Months.PeriodTextOrder` | dashboard.py:165-166 | One period's text sorts before another's if and only if its month is earlier in the calendar. |
| `Months.PeriodTextInjective` | dashboard.py:165 | Different months have different period texts. |
| `Months.LabelYearFirst` | dashboard.py:121 | A `"%Y : %b"` label from an earlier year sorts before every label from a later year. |
| `Months.LabelWithinYear` | dashboard.py:121 | Within one year, labels sort by the alphabetical order of the month abbreviations. |
| `Months.LabelInjective` | dashboard.py:118-121 | Different months have different labels. |
| `Months.LabelOrderIsNotCalendar` | dashboard.py:121 | "2014 : Apr" sorts before "2014 : Feb", although February comes first in the calendar. |
| `GroupBy.Insert` | dashboard.py:78 | Adding one row to a sorted roll-up keeps it sorted, adds the row's key and adds the row's sales to that key and to the total. |
| `GroupBy.GroupSum` | dashboard.py:78 | The roll-up's keys are in ascending order and are exactly the keys present in the table. Its total is the table's total sales, and for each key the roll-up reports that key's sales. |
| `GroupBy.AscendingIsStrict` | dashboard.py:107 | In a sorted roll-up the keys strictly increase, so each key has exactly one row. |
| `GroupBy.GroupSumRows` | dashboard.py:107 | For the Category, Region and month-label roll-ups: one row per distinct key present, keys strictly ascending, each row's total equal to the sum of `Sales` over its rows, and the rows together equal to the table's total sales. |
| `GroupBy.LabelRowsAreMonths` | dashboard.py:118-121 | Two rows of the label-keyed time series are the same row if and only if their orders fall in the same calendar month. |
| `GroupBy.PeriodRowsChronological` | dashboard.py:165-166 | Rows keyed by the monthly period come out in calendar order. |
| `GroupBy.LabelSeriesExample` | dashboard.py:121 | For orders in February and April 2014, the time series lists April first. |
| `Pivot.Row` | dashboard.py:166 | A pivot row has one cell per column, and each cell is the sales sum for its sub-category and month. |
| `Pivot.RollupKeys` | dashboard.py:166 | The pivot's index and column keys have no duplicates, and together they cover every row of the table. |
| `Pivot.HitsOnce` | dashboard.py:166 | Each order adds to exactly one column of its sub-category's row. |
| `Pivot.RowSum` | dashboard.py:166 | Over distinct columns that cover every month, a sub-category's cells add up to its total sales. |
| `Pivot.PivotShape` | dashboard.py:166 | One row per distinct sub-category, in ascending order, and one column per distinct month, with period texts strictly ascending (calendar order, by `Months.PeriodTextOrder`). Each cell is the sales sum for its pair. |
| `Pivot.PivotFillsZero` | dashboard.py:166 | A (sub-category, month) pair with no orders holds 0. |
| `Pivot.PivotRowTotals` | dashboard.py:166 | Each pivot row's cells sum to that sub-category's total. This equals the matching row of the Sub-Category roll-up. |
| `Pivot.PivotGrandTotal` | dashboard.py:166 | All cells together sum to the table's total sales. |
| `Pivot.PivotNonNegative` | dashboard.py:166 | If no order has negative sales, no cell is negative. |
| `Dashboard.RollUps` | dashboard.py:78-166 | Every roll-up and the pivot sum to the total sales of `filtered_df`. |
| `Dashboard.Compute` | dashboard.py:37-166 | The page as written: `filtered_df` is an ordered subsequence of the loaded table, and every view conserves its total sales. |
| `Dashboard.Intended` | dashboard.py:41-58 | The corrected page: its table is the reference filter, and its period-keyed time series conserves total sales. |
| `Dashboard.IntendedSeriesChronological` | dashboard.py:121 | The corrected time series is in calendar order. |
| `Dashboard.ComputeAgreesWithIntended` | dashboard.py:41-76 | Unless all three location selections are non-empty, the written page and the corrected page show the same filtered table, Category and Region roll-ups, and pivot. |
| `Dashboard.JanuaryExample` | dashboard.py:37 | Of a January order and a February order, a January date range keeps only the January one, and both roll-ups total 100. |
| `Dashboard.EastExample` | dashboard.py:63-64 | With only the East region selected and a range covering both orders, only the East order is kept. |
| `Dashboard.RegionIgnoredExample` | dashboard.py:67-68 | Selections West / New York / New York City still show an East order from New York City. The reference filter and `df4` show nothing. |

## Left out

- Page layout, title, columns, sidebar headers and the multiselect widgets (lines 9-11, 23, 30-34, 39-40, 47, 54) are user interface. The selections are parameters (`Criteria`).
- File upload, the hard-coded working directory and `read_csv` (lines 14-21) are I/O. The model receives the table already loaded.
- Parsing with `pd.to_datetime` (lines 24, 27-28, 31, 34) is a library call. Dates arrive already parsed. `Day` is bounded to 1-31 without per-month lengths, because only its ordering matters. `Year` is limited to four digits, as `%Y` prints them.
- Every `Order Date` and both date inputs are taken to be at midnight. The source compares full timestamps (line 37), so an order timed later in the day of `date2` would be dropped there; the model compares calendar dates only.
- The default start and end dates (the table's minimum and maximum, lines 27-28) are not computed; any two dates are accepted. `Filtering.FullRangeKeepsAll` covers every range that includes all orders, which the defaults do.
- All Plotly figures, styling, `background_gradient` and `ff.create_table` (lines 82-90, 95, 108, 122-127, 137-155, 160-162, 167) are rendering. This includes the pie charts and tree map, which group `filtered_df` by Segment, Category and Region themselves.
- CSV export and UTF-8 encoding behind the download buttons (lines 96-103, 109-116, 128-135) are serialisation, so the export round trip is not modelled.
- `Sales` is an integer (such as cents), not a float, so totals are exact. The `'${:,.2f}'` text labels (line 82) are formatting.
- Pandas' handling of missing values (NaN keys are dropped by `groupby`) is not modelled, because every record here has every field.
- `%b` is modelled with English (C locale) abbreviations.
- The `region` variable being rebound to the Region roll-up at line 107 is not modelled. It happens after the last use of the selection, so it changes nothing.

## Findings

| source | as written | input that shows it | evidently intended | confidence | as-written member | corrected member |
|---|---|---|---|---|---|---|
| dashboard.py:67-68 | With Region, State and City all selected, the `state and city` arm runs first and the Region selection is dropped. The `else` at lines 75-76, which combines all three, can never run. | One East order in New York City, with selections Region = West, State = New York, City = New York City. The order is shown. | All three selections combined, as the unused chain `df4` (lines 41-58) and the unreachable `else` do. | medium; not executed | `Dashboard.RegionIgnoredExample` | `Filtering.ChainIsConjunction` |
| dashboard.py:121 | The time series is grouped by the text `"%Y : %b"`, so within a year its rows are in alphabetical order of month names. | Orders in February and April 2014: the "2014 : Apr" row comes before "2014 : Feb". | Calendar order, as the month axis format `"%b-%Y"` (line 123) suggests. The pivot's period columns (line 166) already sort this way. | medium; not executed | `GroupBy.LabelSeriesExample` | `Dashboard.IntendedSeriesChronological` |
