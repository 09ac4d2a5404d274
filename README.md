# Sichuan car-insurance dashboard — a Dafny model of its own logic

The dashboard is a React front end over DuckDB-WASM. A user loads one
Parquet file into the table `car_insurance`, narrows it with four
multi-value filters (year-month, city, insurance type, business type), and
reads KPIs, a monthly trend, top-10 rankings and a company market-share
chart. This project models the parts of it that are the application's own
logic:

- **WHERE-clause builder** (`SqlFilters`).
  - `buildWhereClause` turns the four selection lists into
    `WHERE "<col>" IN ('v1', 'v2') AND …`.
  - `escapeSQL` doubles single quotes.
  - The model includes a parser for the generated text and proves the full
    round trip: parsing the clause and decoding it gives back the selection
    it came from.
- **Filter record and bar** (`Filters`): `FilterState`, the single-key
  update, the clear-button rule and the loading of selector options.
- **Multi-select control** (`MultiSelect`): toggle, select-all, clear, the
  option search, the button text, and the open/closed flag.
- **Upload gate** (`FileUpload`): the first file is accepted only when its
  name ends with `.parquet`; the model also covers the drag highlight.
- **Data session** (`Session`): the provider's six state fields and how
  `initialize`, `loadFile` and `loadFromURL` update them. The same module
  holds the "Data not loaded" guard on `query` and `getDistinct`.
- **Engine singleton** (`Engine`): the module-level `db`/`conn` handles and
  lazy initialisation. It also covers `closeDB`, the file name taken from
  a URL, and the `getRowCount` default.
- **Result reshaping** (`Reshape`, `Dashboard`, `CompanyAnalysis`):
  - KPI defaults and the trend mapping;
  - ranking shares and the company shares of the overall total, proved
    about exact reals;
  - the `loading` bracket around each fetch, and the tab that selects one
    panel.
- **Routing** (`App`): the current page, the switch to the dashboard once
  data is loaded, and which of the three main views renders. It also
  covers the error banner.

The database engine is an oracle. Every engine call is a parameter: an
`Outcome` (pass, or a thrown value) or a `Result` carrying the rows the
query returns. A thrown value is either an `Error`, which has a message,
or some other value. This mirrors the source's
`err instanceof Error ? err.message : fallback`.

Where the code and its description differ, the model follows the code:

- The filters restrict on column `城市` (src/shared/sql/filters.ts:16).
  The dashboard, however, groups its rankings by `地市` and `保险`
  (src/features/dashboard/index.tsx:106,133).
  `Dashboard.RankingColumnsDifferFromFilterColumns` records that these are
  different columns.
- The error banner is guarded by JavaScript truthiness
  (src/app/App.tsx:31). An empty error message therefore shows no banner;
  see `App.ErrorBannerCases`.
- Inside `loadFile`/`loadFromURL`, `initialize` catches its own error.
  A failed initialisation therefore does not stop the load: the session
  can end loaded but not initialised, still showing the initialisation
  error. `Session.LoadedDespiteFailedInitialize` exhibits this. It happens
  only when the start failed before `db` was assigned (bundle selection or
  worker creation, src/shared/duckdb/client.ts:17-26) and the second
  start, made by `getConnection` inside the load, succeeds;
  `Engine.RetryAfterFailedPrepare` exhibits that.
- `initDuckDB` assigns `db` before instantiating and connecting. If either
  step fails, `db` stays set and `conn` stays null. After that,
  `getConnection` returns null for good, and every load fails: with the
  null-dereference error once the bytes have been read, or with the read's
  own failure before that. `Engine.StuckAfterFailedConnect` and
  `Engine.StuckAfterFailedFirstLoad` exhibit this.
- There is no schema validation of a loaded file and no staleness check
  on concurrent fetches. Neither is modelled.

## Model

| member | source | states |
|---|---|---|
| SqlFilters.ClauseColumn | src/shared/sql/filters.ts:11-26 | each dimension restricts a fixed, non-empty column name (年月, 城市, 险种, 业务类型) containing no double quote, so the quoted identifier cannot end early |
| SqlFilters.OptionsComeFromClauseColumns | src/features/filters/index.tsx:39-44 | the column each selector loads its options from is the column the WHERE clause restricts for that dimension |
| SqlFilters.Escape | src/shared/sql/filters.ts:39-41 | output length is input length plus the number of single quotes; a quote-free string is returned unchanged |
| SqlFilters.UnescapeEscape | src/shared/sql/filters.ts:39-41 | collapsing each doubled quote back to one quote recovers the original string (escape round trip) |
| SqlFilters.EscapePairsQuotes | src/shared/sql/filters.ts:40 | in escaped text every single quote belongs to an adjacent pair |
| SqlFilters.ReadEscapedLiteral | src/shared/sql/filters.ts:10 | a literal `'…'` built from an escaped value is read back as exactly that value, and reading stops at its closing quote, never earlier |
| SqlFilters.ReadIdentBack | src/shared/sql/filters.ts:11 | a double-quoted column name without inner double quotes is read back exactly |
| SqlFilters.Literals | src/shared/sql/filters.ts:10 | each value becomes its own quoted, escaped literal, in list order |
| SqlFilters.BuildWhereClause | src/shared/sql/filters.ts:6-34 | the clause is the empty string exactly when all four lists are empty; otherwise it starts with `WHERE `; it is the conjunction of one `IN` condition per non-empty dimension, in the order year-month, city, insurance type, business type |
| SqlFilters.ConditionsEmptyIff | src/shared/sql/filters.ts:9-31 | there is no condition exactly when nothing is selected |
| SqlFilters.ParseValuesBack | src/shared/sql/filters.ts:10 | a `, `-separated list of literals followed by `)` parses back to the original values, in order |
| SqlFilters.ParseClauseBack | src/shared/sql/filters.ts:10-11 | a rendered `"<col>" IN (…)` condition parses back to its column and values |
| SqlFilters.ParseConjunctionBack | src/shared/sql/filters.ts:33 | conditions joined with ` AND ` parse back to the same conditions in the same order |
| SqlFilters.ParseWhereBack | src/shared/sql/filters.ts:29-33 | the whole clause, empty or `WHERE …`, parses back to its conditions |
| SqlFilters.ConditionsWellFormed | src/shared/sql/filters.ts:9-27 | every generated condition has a non-empty value list and a column free of double quotes |
| SqlFilters.ClauseColumnsDistinct | src/shared/sql/filters.ts:11-26 | different dimensions restrict different columns |
| SqlFilters.ValuesForConditionsOver | src/shared/sql/filters.ts:9-27 | over distinct dimensions taken in order, the conditions carry each dimension's selection under its column, and nothing for a dimension not examined |
| SqlFilters.DecodeDimension | src/shared/sql/filters.ts:9-27 | the condition on a dimension's column carries exactly that dimension's selection (none when it is empty) |
| SqlFilters.DecodeConditions | src/shared/sql/filters.ts:9-27 | reading each dimension's values off its condition (none when absent) rebuilds the selection |
| SqlFilters.WhereClauseRoundTrip | src/shared/sql/filters.ts:6-41 | the clause text determines the selection: parsing then decoding the clause of any selection returns that selection, so values containing quotes cannot alter the query's structure |
| Filters.DefaultSelectsNothing | src/features/filters/index.tsx:12-17 | the default state selects nothing, and it is the only state that selects nothing |
| Filters.HandleChange | src/features/filters/index.tsx:62-64 | the changed key holds the new values; the other three lists are unchanged |
| Filters.HandleChangeLaws | src/features/filters/index.tsx:62-64 | setting a key to its current value changes nothing; of two changes of one key the later wins |
| Filters.ClearButtonShownIffSelection | src/features/filters/index.tsx:113-118 | the clear button shows exactly when some list is non-empty, that is, when the state is not the default; the default state its click produces hides it |
| Filters.OptionColumn | src/features/filters/index.tsx:39-44 | each selector loads its options from a fixed, non-empty column |
| Filters.FiltersPanel.constructor | src/features/filters/index.tsx:26-32 | options start empty and `loading` starts true |
| Filters.FiltersPanel.LoadOptions | src/features/filters/index.tsx:34-60 | before data is loaded nothing changes; otherwise `loading` ends false; each key gets its column's distinct values when all four fetches succeed, and the options stay as they were when any fetch fails |
| MultiSelect.Filter | src/features/filters/MultiSelect.tsx:34-40 | `Array.filter` keeps an order-preserving subsequence containing only kept elements, each kept element as often as in the input |
| MultiSelect.Toggle | src/features/filters/MultiSelect.tsx:38-44 | a selected option is removed (every occurrence), with the rest kept in order and with their multiplicities; an unselected option is appended at the end |
| MultiSelect.ToggleFlipsMembership | src/features/filters/MultiSelect.tsx:38-44 | toggling flips whether the option is checked and leaves every other option's checkbox as it was |
| MultiSelect.ToggleTwiceRestores | src/features/filters/MultiSelect.tsx:38-44 | toggling an unselected option twice gives back the original selection |
| MultiSelect.SelectAll | src/features/filters/MultiSelect.tsx:46-48 | select-all yields the options themselves, so every option is checked |
| MultiSelect.ClearAll | src/features/filters/MultiSelect.tsx:50-52 | clear yields a selection in which no option is checked |
| MultiSelect.FilteredOptions | src/features/filters/MultiSelect.tsx:34-36 | the shown options are an order-preserving subsequence of the options; each contains the lower-cased search text, and each matching option is shown as often as it occurs |
| MultiSelect.EmptySearchShowsAll | src/features/filters/MultiSelect.tsx:34-36 | with an empty search every option is shown, in order |
| MultiSelect.PlaceholderOf | src/features/filters/MultiSelect.tsx:16 | the placeholder is the caller's, or `全部` when the caller passes none |
| MultiSelect.DisplayText | src/features/filters/MultiSelect.tsx:54-59 | the button shows the placeholder (`全部` by default) for an empty selection, the single value for one, and `已选 N 项` for two or more |
| MultiSelect.CountLabelNamesCount | src/features/filters/MultiSelect.tsx:59 | the number inside `已选 N 项` is the decimal numeral of the selection's length and reads back as that length |
| MultiSelect.MultiSelectState.constructor | src/features/filters/MultiSelect.tsx:18-19 | the dropdown starts closed with an empty search |
| MultiSelect.MultiSelectState.ClickButton | src/features/filters/MultiSelect.tsx:65 | the button flips `isOpen` and keeps the search |
| MultiSelect.MultiSelectState.MouseDown | src/features/filters/MultiSelect.tsx:23-32 | a mousedown outside the container closes the dropdown; one inside leaves it as it was |
| MultiSelect.MultiSelectState.SetSearch | src/features/filters/MultiSelect.tsx:90-91 | typing replaces the search text and keeps `isOpen` |
| FileUpload.Choose | src/features/home/FileUpload.tsx:32-52 | an empty list is ignored (no callback, no alert); otherwise only the first file is judged: accepted, with its name, exactly when the name ends with `.parquet`, and otherwise rejected with the alert `请上传 .parquet 格式的文件` |
| FileUpload.OnlyFirstFileCounts | src/features/home/FileUpload.tsx:33-34 | files after the first never change the decision |
| FileUpload.UpperCaseExtensionRejected | src/features/home/FileUpload.tsx:35 | the suffix test is case-sensitive: `DATA.PARQUET` is rejected and `data.parquet` accepted |
| FileUpload.FileInput | src/features/home/FileUpload.tsx:43-53 | an absent file list is ignored; a present one is judged by the same rule as a drop |
| FileUpload.UploadZone.constructor | src/features/home/FileUpload.tsx:8 | the drop zone starts without highlight |
| FileUpload.UploadZone.DragEnter | src/features/home/FileUpload.tsx:15-19 | entering sets `isDragging` |
| FileUpload.UploadZone.DragLeave | src/features/home/FileUpload.tsx:21-25 | leaving clears `isDragging` |
| FileUpload.UploadZone.DragOver | src/features/home/FileUpload.tsx:10-13 | dragging over changes no state |
| FileUpload.UploadZone.Drop | src/features/home/FileUpload.tsx:27-41 | a drop clears `isDragging` and decides by the first-file rule |
| Session.DataSession.constructor | src/shared/duckdb/context.tsx:29-34 | the session starts not initialised, not loading, not loaded, without error, with no columns and row count 0 |
| Session.DataSession.Initialize | src/shared/duckdb/context.tsx:36-44 | a no-op when already initialised; success sets `isInitialized`; failure sets the error (the thrown message, else `Failed to initialize DuckDB`) and leaves `isInitialized` false |
| Session.DataSession.BeginLoad | src/shared/duckdb/context.tsx:47-48 | a load starts by setting `isLoading` and clearing the error |
| Session.DataSession.FinishLoad | src/shared/duckdb/context.tsx:54-61 | success sets columns, row count and `isLoaded`; failure changes only the error; `isLoading` ends false either way |
| Session.DataSession.LoadFile | src/shared/duckdb/context.tsx:46-62 | `isLoading` ends false; `isLoaded` never goes back to false; on success the fresh table's columns and count are stored, and the error is cleared unless initialisation failed; on failure only the error changes (default `Failed to load file`) |
| Session.DataSession.LoadFromURL | src/shared/duckdb/context.tsx:64-80 | as `LoadFile`, with default message `Failed to load file from URL` |
| Session.DataSession.Query | src/shared/duckdb/context.tsx:82-85 | fails with `Data not loaded` when nothing is loaded, and otherwise passes the engine's answer through, changing no state |
| Session.DataSession.GetDistinct | src/shared/duckdb/context.tsx:87-90 | the same guard for the distinct-values query |
| Session.LoadedDespiteFailedInitialize | src/shared/duckdb/context.tsx:36-56 | a failed initialisation followed by a successful load leaves the session loaded, not initialised, and still showing the initialisation error |
| Session.SecondLoadReplaces | src/shared/duckdb/context.tsx:54-56 | a second successful load replaces the columns and row count of the first |
| Engine.LastSegment | src/shared/duckdb/client.ts:83 | the last `/`-separated segment is a suffix of the URL, contains no `/`, and is preceded by `/` unless it is the whole URL |
| Engine.LastSegmentUnique | src/shared/duckdb/client.ts:83 | those three properties determine the segment uniquely, so `LastSegment` is `split('/').pop()` |
| Engine.FileNameFromUrl | src/shared/duckdb/client.ts:83 | the file name is the last segment, or `data.parquet` when that segment is empty, and so is never empty |
| Engine.FileNameHasNoSlash | src/shared/duckdb/client.ts:83 | the derived file name never contains `/` |
| Engine.RowCountOf | src/shared/duckdb/client.ts:130-135 | the row count is 0 when the count query yields no row or no value, and otherwise the value in the first row |
| Engine.DuckDBClient.constructor | src/shared/duckdb/client.ts:7-8 | both handles start null, with no registered files and no table |
| Engine.DuckDBClient.InitDuckDB | src/shared/duckdb/client.ts:13-37 | an existing `db` is returned with nothing created; otherwise a new `db` is assigned before instantiation; after full success both `db` and `conn` are set; after a failed instantiate or connect `db` stays set and `conn` null |
| Engine.DuckDBClient.GetConnection | src/shared/duckdb/client.ts:42-47 | initialisation runs only when `conn` is null; when `db` is set but `conn` null the result stays null and nothing changes; with no instance, each stage's failure gives the same state as `initDuckDB` (a failed instantiate or connect leaves `db` set and `conn` null), and full success yields the new connection |
| Engine.DuckDBClient.LoadParquet | src/shared/duckdb/client.ts:52-95 | a load succeeds exactly when a connection is obtained and the read and table creation succeed; the whole new state in every case (`LoadedFrom`): a failed start leaves the state `initDuckDB` leaves; once connected, a failed read changes nothing, a read registers the name (`files` grows by exactly that name), and the table `car_insurance` is replaced on success and kept on failure; with a null connection the read's failure or the null-dereference error is returned and the table is kept |
| Engine.DuckDBClient.LoadParquetFile | src/shared/duckdb/client.ts:52-69 | the load of `LoadParquet` under the file's own name, with its success condition and its whole new state in every case |
| Engine.DuckDBClient.LoadParquetFromURL | src/shared/duckdb/client.ts:74-95 | the load of `LoadParquet` under the file name derived from the URL, with its success condition and its whole new state in every case |
| Engine.DuckDBClient.CloseDB | src/shared/duckdb/client.ts:160-169 | both handles end null; closing an engine that was never opened, or closing twice, changes nothing |
| Engine.StuckAfterFailedConnect | src/shared/duckdb/client.ts:13-47 | after a failed connect, a second `initDuckDB` succeeds without connecting, `getConnection` yields null, and a load fails |
| Engine.StuckAfterFailedFirstLoad | src/shared/duckdb/client.ts:13-63 | a first load whose own start fails at `connect` fails with that failure and leaves `db` set without `conn`; the next load then fails on the null connection |
| Engine.FailedReloadKeepsTable | src/shared/duckdb/client.ts:52-95 | a URL load whose table creation fails after a successful file load keeps the earlier table and adds the URL's file name to the registered names |
| Engine.RetryAfterFailedPrepare | src/shared/duckdb/client.ts:13-53 | a start that fails before `db` is assigned leaves both handles null, so the next load starts the engine again and can succeed |
| Reshape.Shares | src/features/dashboard/index.tsx:122 | each share is `premium / total * 100` when the total is positive, and 0 otherwise |
| Reshape.SumShares | src/features/dashboard/index.tsx:116-124 | for a positive total the shares add up to the premiums' sum over the total, times 100 |
| Reshape.SharesOfOwnTotal | src/features/dashboard/index.tsx:116-124 | shares of the rows' own positive total add up to exactly 100 |
| Reshape.SharesOfLargerTotal | src/features/analysis/CompanyAnalysis.tsx:35-56 | shares of a positive total at least the rows' sum add up to at most 100, and to exactly 100 only when the rows make up the whole total |
| Reshape.ShareBounds | src/features/dashboard/index.tsx:122 | a premium between 0 and a positive total has a share between 0 and 100 |
| Reshape.SumNonNegative | src/features/dashboard/index.tsx:116 | a sum of non-negative premiums is non-negative and at least each of them |
| Dashboard.RankingColumnsDifferFromFilterColumns | src/features/dashboard/index.tsx:105-138 | the rankings group by `地市` and `保险`, which are not the columns the city and business-type filters restrict |
| Dashboard.KpiFrom | src/features/dashboard/index.tsx:68-73 | each KPI comes from the first row and defaults to 0 when there is no row or the field is missing |
| Dashboard.MapTrend | src/features/dashboard/index.tsx:91-97 | one trend point per row, in order, copying month, premium and policies |
| Dashboard.TrendMappingInvertible | src/features/dashboard/index.tsx:91-97 | the trend mapping is a bijection: mapping the points back gives the query rows, and every list of points is the image of the rows read back from it |
| Dashboard.RankWith | src/features/dashboard/index.tsx:117-124 | one ranking entry per row, in order, with the row's name, premium and policies and its share of the given total |
| Dashboard.RankProperties | src/features/dashboard/index.tsx:116-151 | a ranking keeps the rows' length, names and order; its shares are the premiums' shares of their own sum; they add up to 100 when that sum is positive, are all 0 when it is not, and lie in [0, 100] for non-negative premiums |
| Dashboard.ExactlyOnePanel | src/features/dashboard/index.tsx:195-229 | each tab renders exactly one panel group, and different tabs render different ones |
| Dashboard.DashboardView.constructor | src/features/dashboard/index.tsx:39-44 | the view starts on the overview tab, with no data and `loading` true |
| Dashboard.DashboardView.SelectTab | src/features/dashboard/index.tsx:176-179 | a tab click changes only the active tab |
| Dashboard.DashboardView.FetchData | src/features/dashboard/index.tsx:46-160 | all four queries use the clause built from the filters; the queries run in order and the first failure stops the rest, keeping the results set so far; `loading` ends false on success and on failure |
| CompanyAnalysis.TotalFrom | src/features/analysis/CompanyAnalysis.tsx:35 | the overall total defaults to 0 when the total query yields no row or no value |
| CompanyAnalysis.CompanyShares | src/features/analysis/CompanyAnalysis.tsx:52-58 | one entry per row, in order, with its company and premium; the share is premium / total * 100 when the total is positive, and 0 otherwise |
| CompanyAnalysis.OverallTotalShares | src/features/analysis/CompanyAnalysis.tsx:30-56 | the denominator is the overall filtered total, not the sum of the top-10 rows, so the shares add up to at most 100; they add up to exactly 100 only when the top rows make up the whole total, and all are 0 when the total is not positive |
| CompanyAnalysis.ChartSeries | src/features/analysis/CompanyAnalysis.tsx:113-116 | the pie series mirrors the data in order as (company, premium) |
| CompanyAnalysis.CompanyAnalysisView.constructor | src/features/analysis/CompanyAnalysis.tsx:20-21 | the view starts with no data and `loading` true |
| CompanyAnalysis.CompanyAnalysisView.FetchData | src/features/analysis/CompanyAnalysis.tsx:23-66 | both queries use the clause built from the filters; the data is replaced only when both queries succeed; `loading` ends false either way |
| App.MainViewOf | src/app/App.tsx:37-58 | the main area shows the home view on the home page, filters with the dashboard on the dashboard page when data is loaded, and the load prompt on the dashboard page otherwise |
| App.ExactlyOneView | src/app/App.tsx:37-58 | in every state exactly one of the three views renders |
| App.ErrorBannerCases | src/app/App.tsx:31-35 | no banner without an error; with an error, a banner exactly when the message is non-empty |
| App.AppContent.constructor | src/app/App.tsx:12-13 | the app starts on the home page with the default filters, its effect having seen `isLoaded` false |
| App.AppContent.Rendered | src/app/App.tsx:16-20 | the effect keyed on `isLoaded` runs only when the value changes: the page switches to the dashboard exactly on a change to loaded and stays as it was otherwise; the filters are never reset |
| App.AppContent.HeaderClick | src/shared/ui/Header.tsx:22-34 | a header click moves to its page, except that the dashboard button is disabled while no data is loaded |
| App.AppContent.GoHome | src/app/App.tsx:48-53 | the load prompt's button, present only on the load prompt, returns to the home page |
| App.AppContent.SetFilters | src/app/App.tsx:41-46 | the filter bar's `onChange`, present only beside the dashboard, replaces the filters and nothing else |
| App.LoadThenBrowseHome | src/app/App.tsx:13-46 | a load brings up filters and dashboard; after the user goes home, further renders with data still loaded leave the app on the home view, and the chosen filters are kept |
| App.DashboardUnreachableBeforeLoad | src/app/App.tsx:12-39 | before data is loaded a click on the dashboard button leaves the app on the home view |

## Left out

- The DuckDB-WASM engine is not part of this model: bundle selection, the
  Web Worker, Parquet decoding and SQL evaluation (GROUP BY, ORDER BY,
  LIMIT, DISTINCT, COALESCE). Query results, and the outcome of each
  engine step, are parameters.
- `fetch`, `File.arrayBuffer`, `registerFileBuffer`'s byte transfer,
  `console` logging and `alert` are I/O. They are abstract outcomes; an
  alert is the `Reject` decision, which carries the alert's text.
- `queryArrow`, `queryJSON`, `getTableColumns`, `getDataPreview` and
  `getDistinctValues` in src/shared/duckdb/client.ts are not modelled as
  operations; their answers are the `load`, `answer` and `distinct`
  parameters. They run engine queries through `getConnection`, so in the
  stuck state of `Engine.StuckAfterFailedConnect` they would fail with the
  null-connection error; `getDistinctValues` also converts each value with
  `String(…)`. Neither effect is captured.
- The SQL texts in `Dashboard` and `CompanyAnalysis` keep the source's
  tokens and order, but with single spaces in place of the source's
  line breaks and indentation.
- Async interleaving of the `useEffect` fetches is not modelled. Each
  fetch runs to completion at once. Results of an outdated request
  overwriting newer ones (the code has no cancellation) are therefore not
  captured.
- `Session` and `Engine` are separate models. The session receives the
  engine's outcomes as parameters rather than calling `DuckDBClient`.
- Numbers are exact reals and integers. JavaScript's float rounding of
  shares, and formatting (`toFixed`, `toLocaleString`, the KPI and ranking
  formatters, `formatValue`), are left out.
- `MultiSelect.FilteredOptions`: `toLowerCase` is a parameter, so Unicode
  case folding is not modelled.
- ECharts option objects, the KPI cards, the ranking table, the trend,
  city and insurance-type charts, the loading skeletons and other JSX
  markup are presentation only.
- Failures of `conn.close()` or `db.terminate()` in `closeDB` are left out.
  `Engine.DuckDBClient.CloseDB` assumes both succeed.
- The per-selector placeholders the filter bar passes (`全部年月` and so
  on) and the tab labels are display strings and are not modelled; the
  model keeps the default placeholder `全部` and the upload alert text.
- `App.ErrorBannerCases`: the banner is guarded by truthiness, so an empty
  message shows none. This is weaker than "renders exactly when the error
  is non-null".
- The home page's own markup (src/features/home/index.tsx) is not part of
  this model. Its button that loads the default file calls `loadFromURL`
  with the fixed path `/四川车险市场分月数据.parquet`; that call is modelled
  only as `Session.DataSession.LoadFromURL`.
