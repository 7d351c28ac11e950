# Production dashboard: refresh aggregation

This project models the refresh callback `atualizar_dashboard` of the production dashboard
(`dashboard_producao.py`). The callback runs on every refresh. It takes the production records
read from the `producao` table and the worker (`montador`) chosen in the dropdown, and it builds
these outputs:

- the data of the bar chart "Produção por SKU";
- the data of the bar chart "Produção por Montador";
- the data of the box plot "Tempo de Montagem (minutos)";
- the production table;
- the dropdown's options.

If the load returns no rows, the callback instead shows three empty figures titled
"Sem dados disponíveis" and the paragraph "Sem registros disponíveis.".

Everything is modelled as pure functions over `seq<Record>`:

- `wrappers.dfy`: `Option`, used for every nullable column.
- `ordering.dfy`: Python's string order, and the `sorted(...unique())` listing proved strictly
  ascending, complete and unique.
- `sequences.dfy`: row selection (boolean mask, `dropna`). It is proved to be a subsequence that
  keeps exactly the accepted rows with their multiplicities.
- `records.dfy`: the record, its ten columns, the table cells and the loader's outcome and order.
- `aggregation.dfy`: `groupby(key)["id"].count()`, as a hash-style tally proved equal to a
  per-key count, and the sorted bar data.
- `dashboard.dfy`: the filter, the three figures, the table, the options, the callback, and the
  properties that relate them.

Pandas behaviour that the model reproduces:

- `df["montador"] == w` is false for a null worker, so such rows are dropped by the filter.
- `if filtro_montador:` treats both `None` and `""` as "no filter".
- `groupby` drops null keys and sorts keys ascending.
- `["id"].count()` counts only non-null ids. A group whose ids are all null therefore still
  appears, with count 0.

Two behaviours of the code are worth stating plainly:

- The dropdown options are built from the filtered frame, because line 118 runs after the
  rebinding at line 92. Once a worker is chosen, the dropdown offers at most that worker
  (`FilteredWorkerView`, `ThreeRecordScenario`).
- The titles and the placeholder text are the Portuguese strings of the code.

## Model

| member | source | states |
|---|---|---|
| `Records.LoadedRows` | dashboard_producao.py:44-46 | a failed load gives the callback an empty table |
| `Dashboard.Refresh` | dashboard_producao.py:84-130 | the table area is the placeholder exactly when the load is empty; the guard looks at the unfiltered load |
| `Dashboard.EmptyLoadShowsPlaceholders` | dashboard_producao.py:86-89 | a failed or empty load gives three "Sem dados disponíveis" figures, the "Sem registros disponíveis." paragraph and no options, and no grouping |
| `Dashboard.ApplyFilter` | dashboard_producao.py:91-92 | a dropdown value of `None` or `""` leaves the rows unchanged; any other value keeps exactly the rows whose worker equals it, with their multiplicities, in input order (a subsequence) |
| `Dashboard.KeepWorker` | dashboard_producao.py:92 | the mask keeps exactly the rows whose worker is `w` (null workers never match), each as often as in the input, in order |
| `Sequences.Filter` | dashboard_producao.py:92 | a selection keeps exactly the accepted rows with their multiplicities, as a subsequence, and is the identity when every row is accepted |
| `Sequences.SubsequenceKeepsOrder` | dashboard_producao.py:92 | deleting rows preserves any pairwise order the table had |
| `Records.StartsNoEarlier` | dashboard_producao.py:33 | `ORDER BY data_inicio DESC` may place a record before another with the same start |
| `Records.StartOrderTotal` | dashboard_producao.py:33 | any two records can be placed one before the other under that order |
| `Records.NewestFirst` | dashboard_producao.py:33 | in a newest-first load, the records with a null start come before all the others (PostgreSQL's NULLs first when descending) |
| `Dashboard.FilterKeepsNewestFirst` | dashboard_producao.py:33 | when the load is newest-first, so are the filtered rows and the box-plot rows |
| `Dashboard.KeepWorkerCount` | dashboard_producao.py:92 | filtering on worker `w` keeps all of `w`'s counted rows |
| `Aggregation.Tally` | dashboard_producao.py:96 | the group-by tally has a key exactly for each non-null key present, and each key's value is the number of rows with that key and a non-null `id` |
| `Aggregation.Values` | dashboard_producao.py:118 | the `dropna` of a key column holds exactly the non-null keys present |
| `Aggregation.GroupCount` | dashboard_producao.py:96 | the count-chart data lists the present non-null keys in strictly ascending order, each with its count of rows with non-null `id`; null keys form no bar |
| `Aggregation.GroupCountUnique` | dashboard_producao.py:96 | that contract determines the chart data completely |
| `Aggregation.GroupCountTotal` | dashboard_producao.py:96 | the bars add up to the rows with a non-null key and a non-null `id`, never more than the row count |
| `Dashboard.FilteredWorkerView` | dashboard_producao.py:91-118 | with worker `w` chosen, the worker chart is `[Bar(w, n)]`, where `n` is `w`'s count in the unfiltered load, or `[]` when `w` has no rows; the options are `[w]` or `[]` |
| `Dashboard.UnmatchedFilterView` | dashboard_producao.py:86-118 | a non-empty load and a chosen worker with no rows give empty bar data, an empty box plot, a header-only table and no options, not the placeholder |
| `Dashboard.DurationRows` | dashboard_producao.py:111 | the box-plot rows are exactly the rows with a non-null duration, with their multiplicities, as a subsequence |
| `Dashboard.DurationRowsAreFinished` | dashboard_producao.py:111 | on rows whose duration is derived as the query derives it, the box plot receives exactly the records with both timestamps, that is, the finished ones |
| `Ordering.Less` | dashboard_producao.py:118 | Python's `str <`, the order of the sorted group keys and of `sorted`, is strict: it never relates a string to itself |
| `Ordering.LessIsLexicographic` | dashboard_producao.py:118 | that order holds exactly when `a` is a proper prefix of `b`, or has the smaller code point at the first position where they differ |
| `Ordering.LessTransitive` | dashboard_producao.py:118 | Python's string order is transitive |
| `Ordering.LessTotal` | dashboard_producao.py:118 | Python's string order is total on distinct strings |
| `Ordering.Insert` | dashboard_producao.py:118 | inserting into a strictly ascending list keeps it strictly ascending and adds exactly the new element |
| `Ordering.SortUnique` | dashboard_producao.py:118 | `sorted(unique(xs))` is strictly ascending and holds exactly the elements of `xs` |
| `Ordering.AscendingUnique` | dashboard_producao.py:118 | two strictly ascending lists with the same elements are equal |
| `Dashboard.WorkerOptions` | dashboard_producao.py:118 | the options are strictly ascending (so there are no duplicates), have label equal to value, and are exactly the non-null workers of the filtered rows |
| `Dashboard.WorkerOptionsUnique` | dashboard_producao.py:118 | that contract determines the options completely |
| `Dashboard.OptionsIgnoreRowOrder` | dashboard_producao.py:118 | the options depend only on which records were loaded, not on their order |
| `Records.Header` | dashboard_producao.py:122 | the header has ten distinct entries, and every column name of the frame (`id` … `tempo_minutos`) is among them |
| `Records.Field` | dashboard_producao.py:125 | `df.iloc[i][col]` shows a value of the column's type, or null |
| `Records.HeaderLabelsCells` | dashboard_producao.py:122-126 | the body cell under the header entry that names column `c` holds that column's value |
| `Records.RenderRow` | dashboard_producao.py:124-126 | a body row has exactly one cell per header column |
| `Records.RowRoundTrip` | dashboard_producao.py:124-126 | every column of a record can be read back from its row |
| `Dashboard.RenderTable` | dashboard_producao.py:121-127 | the table has the header, one body row per filtered record, and one cell per column in each row |
| `Dashboard.TableRoundTrip` | dashboard_producao.py:121-127 | the table body shows exactly the filtered records, in order |
| `Dashboard.ScenarioRecordsDerived` | dashboard_producao.py:31 | the scenario's records carry the duration the query derives from their timestamps, and none for the unfinished one |
| `Dashboard.ThreeRecordScenario` | dashboard_producao.py:84-130 | three records (A built X1 and X2, B has an unfinished X1): unfiltered counts {X1:2, X2:1} and {A:2, B:1}, two box-plot rows, options [A, B]; with "B" chosen: {X1:1}, {B:1}, no box-plot rows, options [B] |

## Left out

- `carregar_dados` (lines 25-46): the database connection, the SQL query, `pd.read_sql` and
  `pd.to_datetime` are I/O. Only its contract is modelled. `Records.Load` is a sequence of records
  or a failure, and a failure becomes an empty table. `Records.NewestFirst` is the
  `ORDER BY data_inicio DESC` order, with NULLs first as in PostgreSQL. The loaded rows are a
  parameter of `Dashboard.Refresh`.
- The duration's floating-point value and the box-plot statistics. `tempo_minutos` is a `real`,
  and timestamps are whole seconds.
- `Records.Record` does not tie the duration to the timestamps. `Records.DurationDerived` states
  what line 31 guarantees: the duration is present exactly when both timestamps are, and then
  equals their difference in minutes. The callback's operations neither need nor assume this.
  Only `DurationRowsAreFinished` and the three-record scenario use it.
- Plotly figure construction and styling (`go.Figure`, `px.bar`, `px.box`, `update_traces`,
  `update_layout`, colours, text placement). `Dashboard.Figure` records only the title and the
  data handed to the plotting call.
- The HTML rendering of a cell value (how Dash prints a number, a date or a null) and the table's
  style. `Records.Cell` keeps the typed value.
- The Dash app, the layout, the callback wiring, the unused `n_clicks` and `run_server`
  (lines 49-83, 134-135): these are UI and server.
- The `pkgutil` compatibility shim (lines 1-6): this is environment patching.
- `Dashboard.Refresh`: its own contract states only the placeholder guard. The outputs in the
  other cases are stated by `ApplyFilter`, `GroupCount`, `DurationRows`, `RenderTable`,
  `WorkerOptions` and the lemmas about `Refresh`.
