# Uber driver panel — a Dafny model of its record keeping and summaries

`Uber_pai.py` is a one-page Streamlit panel in which a ride-hailing driver logs
each day (revenue, kilometres, six kinds of expense, hours, a daily target, notes)
or marks it as a day off. It keeps the log as a table (`dados`) in the file
`dados_uber.csv`. For a chosen month it shows the gross revenue, expenses and net
profit, with a pie chart of the month's expenses. For a chosen year it shows only
the year's net profit ("Lucro Total do Ano"). It also draws a bar chart of net
profit per month and prints a few general indicators.

This project models that logic:

- `records.dfy` (`Records`): the row (`Record`, one field per CSV column), the six
  expense categories, and the two rows that the "Registrar Dia" form builds.
- `storage.dfy` (`Storage`): the class `Store`. Its field `file` is the CSV file
  (`None` when there is none) and its field `rows` is the in-memory table. Its
  methods load, append and save.
- `session.dfy` (`Session`): the file together with the memo that
  `@st.cache_data` keeps between reruns. It holds the finding below.
- `aggregate.dfy` (`Aggregate`): the month and year masks, and gross revenue,
  expenses, the per-category breakdown and net profit. It also builds the
  descending month and year pickers.
- `series.dfy` (`Series`): the "Comparar Meses" bar series. Worked rows are
  grouped by their `Mês` key, in ascending month order.
- `indicators.dfy` (`Indicators`): days, days worked, days off, mean revenue and
  targets met.
- `seqs.dfy` (`Seqs`), `ordering.dfy` (`Ordering`), `optional.dfy` (`Optional`):
  generic helpers. They cover a pandas boolean mask, a column sum, Python's
  `s[:n]`, Python's order on `str` and `sorted(set(...))`.

Amounts, kilometres and hours are exact `real`s. Dates are strings and are not
validated. Only `Aggregate.ChoicesWidth` assumes a minimum date length. Lemmas
that link the `startswith` masks to the `Mês` key constrain the chosen prefix
instead: a month of exactly seven characters, or a year of at most seven.

Total expenses are defined as in the code: the total of the six per-category
sums (`.sum().sum()`). So `ExpensesByCategory` holds by construction, and the
per-row content is in `ExpensesByRow`.

`Storage.Store` and `Session.Server` describe the same file. `Store.RegisterWorked`
and `Store.RegisterDayOff` are the save run `Session.SaveRun` on a server with no
memo: both write the loaded rows plus the new one.

Points of the code's behaviour that the model keeps:
- The month and year pickers list the prefixes of all rows, days off included.
- The general indicators cover the whole table, not one month.
- The figure the page labels "Lucro médio diário" is the mean *revenue* of worked
  days, not a mean profit.
- pandas gives NaN for the mean when no day was worked. The model returns `None`.

## Model

| member | source | states |
|---|---|---|
| `Records.WorkedRecord` | Uber_pai.py:51-73 | the saved row is marked as worked and carries every entered value unchanged; the "Outros" description is kept only when that expense is positive; its profit is revenue minus the six costs |
| `Records.WorkedRecordNonNegative` | Uber_pai.py:39-50 | values accepted by number inputs whose minimum is 0.0 give a row with no negative numeric field |
| `Records.DayOffRecord` | Uber_pai.py:80-95 | the day-off row is not worked, every numeric cell is 0 and every text cell empty, so its expense and profit are 0 |
| `Storage.Store.constructor` | Uber_pai.py:16-30 | a run starts by loading the file; a missing file gives the empty table |
| `Storage.Store.Load` | Uber_pai.py:16-24 | loading yields the file's rows, or the empty table when there is no file |
| `Storage.Store.Save` | Uber_pai.py:27-28 | saving replaces the whole file by the current table, so loading it again gives that table back |
| `Storage.Store.Append` | Uber_pai.py:74 | the new row becomes the last one and the earlier rows are unchanged |
| `Storage.Store.RegisterWorked` | Uber_pai.py:57-75 | "Salvar Registro" appends the worked row built from the inputs and the file then holds the new table |
| `Storage.Store.RegisterDayOff` | Uber_pai.py:79-97 | "Salvar como dia não trabalhado" appends the blank day-off row and the file then holds the new table |
| `Seqs.Take` | Uber_pai.py:106 | Python's `str[:n]` (also at lines 139 and 146): a prefix of the string, `n` characters long or the whole string if shorter |
| `Ordering.Below` | Uber_pai.py:106 | Python's `<` on `str`, which orders `sorted` here and at line 139 and the `groupby` keys at line 147: lexicographic by code point, a proper prefix first; `BelowIrreflexive`, `BelowTransitive` and `BelowTotal` make it a strict total order |
| `Aggregate.Worked` | Uber_pai.py:156 | `dados[dados['Trabalhou'] == True]` (also at line 147): no longer than the table, every kept row is a worked row of the table |
| `Indicators.MetTarget` | Uber_pai.py:159 | the mask `(Trabalhou == True) & (Valor Recebido >= Meta)` |
| `Series.Group` | Uber_pai.py:147 | the `groupby("Mês")` group of one key: rows of the input whose `Mês` is that key |
| `Series.Bars` | Uber_pai.py:147-149 | `apply` of the profit formula over the listed keys: one bar per key, labelled with that key, in key order |
| `Aggregate.SelectMembers` | Uber_pai.py:107 | a row is in the month subset exactly when it is a worked row of the table whose date starts with the chosen prefix |
| `Aggregate.SelectConcat` | Uber_pai.py:140 | the subset keeps the table's order: it distributes over concatenation of tables |
| `Aggregate.SelectAppend` | Uber_pai.py:107 | appending a row adds it at the end of a period's subset only if it is a worked day of that period, and adds its profit to the period's net profit |
| `Aggregate.SelectMonth` | Uber_pai.py:106-107 | for a prefix of exactly seven characters, the `startswith` mask selects exactly the worked rows whose `Mês` equals that prefix |
| `Aggregate.SelectYearByMonthKey` | Uber_pai.py:139-140 | the year subset is the worked rows whose `Mês` starts with the year |
| `Aggregate.ExpensesByCategory` | Uber_pai.py:110-119 | the month's total expenses equal the sum of the six per-category sums shown in the pie chart |
| `Aggregate.ExpensesByRow` | Uber_pai.py:110 | summing the columns and then the column sums equals summing each row's six costs |
| `Aggregate.ProfitByRow` | Uber_pai.py:109-111 | net profit (gross minus expenses) is the sum over rows of revenue minus costs |
| `Aggregate.ProfitConcat` | Uber_pai.py:141 | gross, expenses and the annual net profit of two parts of a table add up to those of the whole |
| `Aggregate.BreakdownShares` | Uber_pai.py:118-121 | for non-negative rows gross revenue is non-negative and each pie slice lies between 0 and the total expenses |
| `Aggregate.Choices` | Uber_pai.py:106 | the picker lists the `n`-character prefixes of the dates in strictly descending order: each prefix in the table exactly once and nothing else; it is empty exactly when the table is |
| `Aggregate.ChoicesUnique` | Uber_pai.py:139 | any strictly descending listing of the table's prefixes equals the picker |
| `Aggregate.ChoicesWidth` | Uber_pai.py:106 | when every date has at least `n` characters, each picker entry has exactly `n` |
| `Ordering.SortUnique` | Uber_pai.py:106 | `sorted` of the unique values is strictly ascending and has exactly the input's values |
| `Series.SeriesMonths` | Uber_pai.py:146-147 | the bars are in strictly ascending month order, one per month that has a worked day and none for other months |
| `Series.SeriesProfits` | Uber_pai.py:147-149 | each bar holds the net profit of its month's worked rows, a group that is never empty; for a seven-character month this equals the "Resumo Mensal" net profit |
| `Series.GroupIsMonthSubset` | Uber_pai.py:146-148 | the group of a seven-character month among worked rows is the month subset of "Resumo Mensal" |
| `Series.BarsTotal` | Uber_pai.py:147-149 | bars over distinct keys that cover every row's month add up to the net profit of the rows |
| `Series.SeriesTotal` | Uber_pai.py:147-149 | the bars add up to the net profit of all worked rows |
| `Series.SeriesYear` | Uber_pai.py:141-149 | the bars of one year's months add up to that year's "Lucro Total do Ano" |
| `Series.SeriesDayOff` | Uber_pai.py:147 | saving a day off leaves the bar series unchanged |
| `Indicators.DaysPartition` | Uber_pai.py:155-157 | days worked plus days off is the row count, and days off is the number of rows not worked |
| `Indicators.TargetsBound` | Uber_pai.py:159 | days with the target met are at most the days worked |
| `Indicators.MeanDefined` | Uber_pai.py:158 | the mean revenue is absent exactly when no day was worked; otherwise it times the days worked is their gross revenue |
| `Indicators.MeanBounds` | Uber_pai.py:158 | the mean revenue lies between any lower and upper bound of the worked days' revenues |
| `Indicators.AppendDayOff` | Uber_pai.py:155-159 | saving a day off adds one to the days and to the days off and leaves the other figures unchanged |
| `Indicators.AppendWorkedDay` | Uber_pai.py:155-159 | saving a worked day adds one worked day, adds one met target when revenue reaches the target, and recomputes the mean over the extended worked rows |
| `Storage.Loaded` | Uber_pai.py:16-24 | the table a load yields: the file's rows, or the empty table when there is no file |
| `Aggregate.MonthKey` | Uber_pai.py:146 | the `Mês` value `Data.str[:7]`: a prefix of the date, seven characters long or the whole date if shorter |
| `Aggregate.Select` | Uber_pai.py:107 | the month (or year, line 140) subset: no longer than the table, and every row in it is a worked row of the table whose date starts with the prefix |
| `Aggregate.Gross` | Uber_pai.py:109 | `Valor Recebido.sum()` over a subset |
| `Aggregate.Breakdown` | Uber_pai.py:118-119 | the per-category sums fed to the pie chart, one per category in the order of `categorias` |
| `Aggregate.Expenses` | Uber_pai.py:110 | the total of the six per-category sums |
| `Aggregate.Profit` | Uber_pai.py:111 | gross revenue minus total expenses, the formula also used for the annual profit at line 141 |
| `Series.MonthlySeries` | Uber_pai.py:146-149 | worked rows grouped by `Mês` in ascending key order, each group's net profit as one bar |
| `Indicators.MeanRevenue` | Uber_pai.py:158 | the mean revenue of worked rows, absent exactly when there is no worked row |
| `Indicators.Summarize` | Uber_pai.py:155-159 | the general figures; total days is the row count and days worked never exceed it |
| `Session.CachedLoad` | Uber_pai.py:14-30 | a load under `@st.cache_data`: when there is a memo it returns it and leaves the server as it was; otherwise it returns the file's rows and memoizes them; the file is never touched |
| `Session.ViewRun` | Uber_pai.py:30 | a rerun that only reads leaves the file as it was and always leaves a memo |
| `Session.SaveRunAsWritten` | Uber_pai.py:74-75 | as written, a save writes the memo plus the new row and keeps the memo |
| `Session.SaveRunAsWrittenUsesMemo` | Uber_pai.py:14-30 | as written, a save writes the memoised table plus the new row, whatever the file held, and the memo stays as it was |
| `Session.CachedSavesLoseFirstRow` | Uber_pai.py:14-97 | as written, opening the page and then saving two days leaves only the second in the file, and a later view still shows the empty table |
| `Session.SaveRun` | Uber_pai.py:27-28 | with the memo cleared on save, the file holds the previous rows plus the new one, and the memo is coherent with the file |
| `Session.ViewRunCoherent` | Uber_pai.py:30 | with a coherent memo, a reading run shows exactly what the file holds |
| `Session.SaveRunsKeepEveryRow` | Uber_pai.py:74-75 | with the memo cleared on save, a series of saves leaves every saved row in the file, in the order saved |

## Findings

| source | as written | input that shows it | evidently intended | confidence | as-written member | corrected member |
|---|---|---|---|---|---|---|
| Uber_pai.py:14-30 | `@st.cache_data` memoises `carregar_dados`, so every rerun works on the table of the first load. Each save writes that stale table plus one row. | On a server with no file: open the page, save day A, then save day B. The file holds only B and the history still shows an empty table. | Each save keeps every earlier row, for example by clearing the memo after `salvar_dados`. | medium: follows from the documented semantics of `st.cache_data`; not executed | `Session.CachedSavesLoseFirstRow` | `Session.SaveRunsKeepEveryRow` |

The rest of the model uses the corrected behaviour: `Storage.Store.Load` reads
the file itself.

## Left out

- The Streamlit page is not modelled: page setup, menu, widgets, metrics, markdown and the history table (Uber_pai.py:8-12, 33-56, 100-102, 113-115, 142, 161-164).
- The "Histórico Diário" sort by date (Uber_pai.py:102) is not modelled. It only orders a display.
- The pie and bar charts (matplotlib) and the PDF export (FPDF, BytesIO) are left out. They are foreign rendering libraries. The model keeps the data they are drawn from: `Breakdown` and `MonthlySeries`.
- CSV serialisation is left out. The file is modelled as the sequence of rows it holds, so column types and the date objects that `st.date_input` yields before a round trip through the file are not modelled. Write failures are not modelled either.
- Floating point and the `:.2f` formatting are left out. Amounts are exact reals.
- The `Mês` column that the comparison page adds to `dados` in place (Uber_pai.py:146) is modelled as the derived value `Aggregate.MonthKey`. It is only read by the grouping that follows and is never saved.
- With an empty table the pickers are empty (`Aggregate.Choices`). What the page then does with the `None` that `st.selectbox` returns is not modelled: `Select` always takes a prefix string.
- `Storage.Store` loads without the memo of `@st.cache_data`. The memo is modelled only in `Session`.
- The browser session, reruns triggered by widgets and concurrent servers sharing one file are not modelled.
