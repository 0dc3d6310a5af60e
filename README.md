# Customer analytics dashboard and AutoML pages — a Dafny model

This project models the core of a small Streamlit analytics application that
uses PyCaret. It has three parts:

- **The forecasting page** (`Models/forcastmodel.py`, module `ForecastModel`):
  - The user drops columns, picks a numeric target, and gets number inputs and
    select boxes for the remaining features.
  - The user can then train and cache a regression model, predict one row with
    the cached model, or clear the cache.
  - One call of the imperative method `Forecasting` is one run of the page script
    on the session object. It is proved to do exactly what the pure step function
    `Forecast` says. The lemmas state what a run promises: when it stops early,
    when training happens, what is cached, when prediction happens, and what
    retraining does.
- **The customer dashboard** (`Models/utils.py`, module `Dashboard`):
  - CSV ingestion into the session (`DataIngestion` against `Ingest`).
  - The missing-value report of the analysis page.
  - The split of the selected columns into numeric and categorical ones.
  - The quick overview: row count, the revenue total and average, and the top
    category of the first three categorical columns.
  - The list of insights built by `generate_insights`. The method
    `GenerateInsights` is proved against the function `Insights`.
- **The standalone classification app** (`stapp.py`, module `StandaloneApp`):
  - File-format dispatch on the last dot-separated piece of the file name.
  - Parsing of the comma-separated prediction row.
  - One pass through `main`, which stores the loaded frame under `"dataset"`,
    sets up a classification experiment, compares six models and optionally
    predicts. `MainPass` is proved against `AppPass`.

The supporting modules:

- **`Frames`** is the data-frame abstraction. A frame is a sequence of named
  columns, each with a dtype kind and its cells. It also holds the generic
  filter and traversal used by the comprehensions and loops, and the
  statistics the pages use: `unique`, `mean` and `isnull().sum()`.
- **`AutoML`** is the PyCaret boundary. An `Oracle` of total functions says
  what `setup`, `compare_models` and `predict_model` answer, including the
  exceptions they raise, and which grid `pull` returns. The `Engine` object logs every call, so contracts
  can say which engine calls happen, in which order and with which arguments.
  PyCaret keeps the current experiment as hidden global state; here it is an
  explicit `Experiment` value that each call carries.
- **`SessionStore`** models Streamlit's per-session state as an object with
  three optional fields: `data`, `model` and `model_results`. The predicate
  `Consistent` says that the model and its results are present together.

Where the code and its documented design differ, the model follows the code:

- No stale-model detection exists.
- Ingesting a new file does not clear a cached model.
- A failed training run leaves no "failed" marker behind.

## Model

| member | source | states |
|---|---|---|
| Frames.Filter | Models/utils.py:149-158 | a comprehension with a test, keeping the passing elements in their order; its properties are FilterMembers, FilterSplits, Positions and FilterTwice |
| Frames.FilterMembers | Models/utils.py:149-158 | a list comprehension or dtype selection keeps exactly the elements that pass its test: every kept element passes it, and every passing element is kept |
| Frames.FilterTwice | Models/forcastmodel.py:31-38 | taking the numeric columns and then skipping the target is one filter by both tests |
| Frames.FilterSplits | Models/utils.py:149-158 | a test and its negation split a list into two parts that hold every element exactly once between them |
| Frames.Positions | Models/forcastmodel.py:31-32 | `select_dtypes` keeps the columns it selects in their original order: their positions increase and cover every passing column |
| Frames.TraverseFailureStops | Models/utils.py:252-258 | an exception on an early element is the outcome of the whole loop |
| Frames.Traverse | Models/utils.py:252-258 | a for-loop that appends one result per element and stops at the first exception; its properties are TraverseShape and TraverseFailureStops |
| Frames.TraverseShape | Models/utils.py:252-258 | the loop succeeds exactly when every element succeeds, with one result per element, in order |
| Frames.ColumnIndex | Models/utils.py:152 | the position of the first column with a label, or the column count exactly when no column has that label |
| Frames.Find | Models/forcastmodel.py:24 | `df[name]` finds a column exactly when the label exists, and the column found carries that label |
| Frames.FindUnique | Models/forcastmodel.py:40 | with unique labels, every column is the one found under its own label |
| Frames.DropColumns | Models/forcastmodel.py:15-18 | `drop` keeps exactly the columns whose labels were not chosen |
| Frames.DropWellFormed | Models/forcastmodel.py:18 | dropping columns keeps labels unique, lengths equal and cells matching their dtype |
| Frames.Drop | Models/forcastmodel.py:15-18 | `drop(columns=...)` keeps the columns whose labels were not chosen, in order; its properties are DropColumns and DropWellFormed |
| Frames.SelectColumn | Models/forcastmodel.py:21 | the select box gives the picked label when it is still offered, otherwise the first option, and nothing exactly when there are no options |
| Frames.Distinct | Models/forcastmodel.py:46 | `unique()` holds exactly the column's values, each once |
| Frames.DistinctFirstSeenOrder | Models/forcastmodel.py:46 | `unique()` lists values in the order they first appear |
| Frames.Values | Models/forcastmodel.py:40 | the numeric readings (a boolean reads as 1 or 0) skip missing cells, and none remain exactly when no cell has one |
| Frames.Mean | Models/forcastmodel.py:40 | the mean is NaN (None) exactly when no cell has a numeric value |
| Frames.MeanWithinBounds | Models/forcastmodel.py:40 | the mean default of a number input lies between any lower and any upper bound of the column's readings |
| Frames.Magnitude | Models/utils.py:166 | what `sum` and `mean` read from a cell: a number as itself, a boolean as 1 or 0, nothing from a missing cell or text; the Values row states what this gives a column |
| Frames.NullCount | Models/utils.py:112 | `isnull().sum()` of one column: how many of its cells are missing; MissingReportExact states what the report built from it holds |
| Frames.RowCount | Models/utils.py:162 | `len(data)`: the number of rows, which RowCountIsColumnLength proves is the length of every column of a well-formed frame |
| Frames.RowCountIsColumnLength | Models/utils.py:162 | in a frame as the readers produce it, `len(data)` is the length of every column |
| AutoML.Head | Models/forcastmodel.py:76 | `head(1)` is the first row of the grid, and is empty exactly when the grid is empty |
| AutoML.Engine.Setup | Models/forcastmodel.py:53-63 | `setup` is logged once and raises what the engine raises, otherwise yields the experiment |
| AutoML.Engine.CompareModels | Models/forcastmodel.py:69 | `compare_models` is logged with its options and answers the engine's best model or exception |
| AutoML.Engine.Pull | Models/forcastmodel.py:75 | `pull` is logged and returns the grid of the last comparison |
| AutoML.Engine.PredictModel | Models/forcastmodel.py:92 | `predict_model` is logged with its model and row and answers the label or the exception |
| SessionStore.SessionState.constructor | main.py:26-27 | a new session holds no dataset and no model |
| ForecastModel.EntriesAppend | Models/forcastmodel.py:36-47 | entries for two column lists, one after the other, are the entries of the joined list |
| ForecastModel.AddNumericEntries | Models/forcastmodel.py:37-41 | the first loop adds one number entry per numeric column other than the target, in column order |
| ForecastModel.AddCategoricalEntries | Models/forcastmodel.py:45-47 | the second loop adds one select entry per non-numeric column, in column order |
| ForecastModel.BuildInputData | Models/forcastmodel.py:36-47 | the two loops build exactly the input row of the working frame: numeric features, then categorical ones |
| ForecastModel.InputRowInTwoPasses | Models/forcastmodel.py:36-47 | the input row is the numeric-feature entries followed by the categorical ones |
| ForecastModel.FeaturesAreNonTargetColumns | Models/forcastmodel.py:31-47 | with a numeric target, the features are exactly the columns other than the target |
| ForecastModel.InputSchemaKeys | Models/forcastmodel.py:36-47 | the input widgets are keyed by exactly the column labels other than the target |
| ForecastModel.IsNumeric | Models/forcastmodel.py:24 | `np.issubdtype(dtype, np.number)`: only number columns, not booleans or texts; FeatureKind states how it sorts the features |
| ForecastModel.NumericColumns | Models/forcastmodel.py:31 | `select_dtypes(include=[np.number])`: the numeric columns in frame order; FilterMembers and FilterKeepsColumnOrder state which and in what order |
| ForecastModel.CategoricalColumns | Models/forcastmodel.py:32 | `select_dtypes(exclude=[np.number])`: the other columns in frame order; FilterSplits shows the two selections partition the frame |
| ForecastModel.Features | Models/forcastmodel.py:37-47 | the columns that get a widget: numeric non-target columns, then the non-numeric ones; FeaturesAreNonTargetColumns and FeatureKind state its properties |
| ForecastModel.FieldOf | Models/forcastmodel.py:39-47 | one column's widget: a number input defaulting to the mean, or a select box over `unique()`; InputSchemaEntries states it for every feature |
| ForecastModel.InputSchema | Models/forcastmodel.py:37-47 | the widgets in the order the two loops create them; InputSchemaKeys, InputSchemaEntries and InputSchemaOrder state its properties |
| ForecastModel.WidgetValue | Models/forcastmodel.py:39-47 | what `number_input` or `selectbox` returns: an accepted entry, otherwise the default or first option; WidgetValueMeaning states what it can return |
| ForecastModel.WidgetValueMeaning | Models/forcastmodel.py:39-47 | a select box returns one of its options, a number input a number unless its default is NaN and nothing numeric was entered, and an accepted entry is returned as entered |
| ForecastModel.InputRow | Models/forcastmodel.py:36-47 | the `input_data` dictionary; InputRowFollowsSchema, InputRowInTwoPasses and BuildInputData state its properties |
| ForecastModel.InputSchemaEntries | Models/forcastmodel.py:37-47 | a numeric feature gets a number input defaulting to its mean; any other gets a select box over its `unique()` values |
| ForecastModel.FilterKeepsColumnOrder | Models/forcastmodel.py:31-32 | a dtype selection lists its columns in frame order |
| ForecastModel.FeatureKind | Models/forcastmodel.py:31-47 | the first features are the numeric non-target columns, and only they are numeric |
| ForecastModel.FeatureOrder | Models/forcastmodel.py:31-47 | numeric features come first, and within each kind they follow frame order |
| ForecastModel.CategoricalFeatureOrder | Models/forcastmodel.py:32 | the categorical features follow frame order |
| ForecastModel.InputSchemaOrder | Models/forcastmodel.py:36-47 | entry i of `input_data` is keyed by widget i; number inputs precede select boxes, and each group follows frame order, so this is the column order of the row given to `predict_model` |
| ForecastModel.InputRowFollowsSchema | Models/forcastmodel.py:36-47 | `input_data` has one entry per widget, in widget order, each the value its widget returns |
| ForecastModel.Forecast | Models/forcastmodel.py:7-106 | one run of the page as a function of the session: no data stops; otherwise the run goes on with the frame minus the dropped columns; its properties are EarlyStops, TrainingGate, NoSecondTraining, PredictBehaviour and RetrainIdempotent |
| ForecastModel.RunOn | Models/forcastmodel.py:20-28 | the target select box over the working frame, the stop on no column left, and the stop on a non-numeric target |
| ForecastModel.Act | Models/forcastmodel.py:30-106 | the input widgets, then training when untrained and Start is clicked, the stored results otherwise, then Predict, or Retrain which clears the cache and reruns |
| ForecastModel.Train | Models/forcastmodel.py:50-80 | setup with the fixed regression options, compare sorted by RMSE, pull, and storing the best model with head(1); an exception from setup or compare aborts the run |
| ForecastModel.Forecasting | Models/forcastmodel.py:7-106 | one page run changes the session, shows the outcome and calls the engine exactly as `Forecast` says, and keeps the session consistent |
| ForecastModel.Settled | Models/forcastmodel.py:36-106 | past the checks, the run does exactly what `Act` says |
| ForecastModel.ActFacts | Models/forcastmodel.py:36-106 | past the checks, a run is not stopped; it shows the target, schema and input row of the working frame; any setup is on that frame with the fixed options; training happens only when untrained and Start is clicked; with a model cached the stored results are shown, and without one (and no Start click) none are; the dataset is not changed |
| ForecastModel.EarlyStops | Models/forcastmodel.py:8-28 | a run stops exactly on no data, no column left, or a non-numeric target; a stopped run changes nothing and calls nothing |
| ForecastModel.RunUsesWorkingFrame | Models/forcastmodel.py:15-47 | the target is a column that was kept (the one picked when still offered) and is numeric; the schema, inputs and setup all use the working frame |
| ForecastModel.TrainingGate | Models/forcastmodel.py:50-84 | setup, compare and pull happen only when no model is cached and Start is clicked; a cached model survives any run except a retrain, and every completed run with a cached model shows its stored results |
| ForecastModel.NoSecondTraining | Models/forcastmodel.py:50-84 | after a run caches a model, the next run makes at most prediction calls, and keeps the session unless it retrains |
| ForecastModel.TrainingStoresModelAndResults | Models/forcastmodel.py:50-80 | a training run makes exactly setup, compare and pull, and stores the best model with the first results row |
| ForecastModel.RunKeepsConsistency | Models/forcastmodel.py:79-80 | the model and its results remain present together or absent together |
| ForecastModel.FailedTrainingKeepsCacheEmpty | Models/forcastmodel.py:50-69 | a setup or compare that raises leaves the session as it was |
| ForecastModel.PredictBehaviour | Models/forcastmodel.py:87-99 | Predict with a cached model makes one `predict_model` call on the current input row and shows its label under the target; without a model it warns and calls nothing |
| ForecastModel.Retrained | Models/forcastmodel.py:102-105 | the two `del` lines, run only when a model is cached; RetrainIdempotent states their effect |
| ForecastModel.RetrainIdempotent | Models/forcastmodel.py:101-106 | a completed retrain clears model and results; retraining again changes nothing and calls nothing |
| Dashboard.DataIngestion | Models/utils.py:61-75 | the ingestion run changes the session and shows the notice exactly as `Ingest` says, and keeps the session consistent |
| Dashboard.Ingest | Models/utils.py:61-75 | with no file, the prompt; a parsed CSV replaces the dataset and reports rows and columns; an empty, unparsable or failing file shows its error and keeps the session |
| Dashboard.IngestReplacesOnlyOnSuccess | Models/utils.py:61-75 | the dataset is replaced exactly when the CSV parses, by the parsed frame; failures keep it; model and results are untouched |
| Dashboard.MissingReport | Models/utils.py:112-113 | `missing[missing > 0]`: the columns with a null and their null counts, in column order; MissingReportExact states its content |
| Dashboard.MissingReportExact | Models/utils.py:112-113 | the report lists exactly the columns with nulls and their null counts, and is empty exactly when no cell is null |
| Dashboard.DataAnalysis | Models/utils.py:79-129 | the warning exactly without data; the caught error exactly on a frame without columns; otherwise the missing-values branch exactly when some column has a null |
| Dashboard.Partition | Models/utils.py:149-158 | the two comprehensions: the KeyError of the first selected label the frame lacks, otherwise the numeric and the other selected labels, each in selection order |
| Dashboard.FirstMissing | Models/utils.py:149-153 | a selected label the frame lacks is reported exactly when one exists |
| Dashboard.FilterKeepsOrder | Models/utils.py:149-158 | a comprehension over a duplicate-free list keeps its order |
| Dashboard.IsNumericDtype | Models/utils.py:152 | `pd.api.types.is_numeric_dtype`: numbers and booleans; PartitionProperties states how it splits the selection |
| Dashboard.PartitionProperties | Models/utils.py:149-158 | the split fails exactly on an unknown label; otherwise numeric and categorical are disjoint, together are the selection, and are classified by `is_numeric_dtype` |
| Dashboard.PartitionKeepsOrder | Models/utils.py:149-158 | both lists keep the selection order |
| Dashboard.MostFrequent | Models/utils.py:176 | the chosen candidate has the largest count among the candidates |
| Dashboard.TopCategory | Models/utils.py:175-179 | `value_counts().index[0]` with its count: the most frequent present value, or none when every cell is missing |
| Dashboard.TopCategoryMeaning | Models/utils.py:254-255 | the top entry of `value_counts()` is a present value with the largest count; there is none exactly when every cell is missing |
| Dashboard.InsertMultiset | Models/utils.py:247 | inserting into the sorted values adds exactly that value |
| Dashboard.InsertDescending | Models/utils.py:247 | inserting keeps the values sorted largest first |
| Dashboard.SortDescendingProperties | Models/utils.py:247 | the sort is largest first, a permutation of the values, and has the same sum |
| Dashboard.Largest | Models/utils.py:247 | `nlargest(k)` of the revenues: the k largest, largest first; LargestProperties and LargestDominates state its properties |
| Dashboard.LargestProperties | Models/utils.py:247-249 | `nlargest(k)` picks min(k, n) values, largest first; with the values it leaves out they are all the values; with at most k values it sums to the whole sum |
| Dashboard.LargestDominates | Models/utils.py:247 | no value left out exceeds a value picked |
| Dashboard.TopCustomersRevenue | Models/utils.py:247-249 | the revenue of the five largest customers, missing revenues skipped; TopCustomersAtMostTotal bounds it by the total |
| Dashboard.TopCustomersAtMostTotal | Models/utils.py:247-249 | with no negative revenue, the top five customers contribute at most the total revenue, and all of it when there are at most five revenues |
| Dashboard.RevenueInsights | Models/utils.py:246-250 | the top-customers insight when "revenue" is a numeric name: the sum of its five largest values (booleans count as 1 and 0), a KeyError when the column is absent, a TypeError for text |
| Dashboard.SegmentInsight | Models/utils.py:253-258 | the common-segment insight of one column: its most frequent value, that value's count and the row count; a KeyError when absent, an IndexError when every cell is missing |
| Dashboard.AgeInsights | Models/utils.py:260-264 | the average-age insight when "age" is a numeric name: the column's mean; a KeyError when absent, a TypeError for text |
| Dashboard.GenerateInsights | Models/utils.py:243-266 | the appends build exactly `Insights`: the result, or the first exception raised; a boolean revenue column is summed, a text one raises |
| Dashboard.SegmentInsights | Models/utils.py:252-258 | one segment insight per categorical name, stopping at the first that raises; SegmentsNameTheirColumns and AppendSegments state its properties |
| Dashboard.AppendSegments | Models/utils.py:252-258 | the loop over categorical columns appends one segment insight per column, or stops at the first failure |
| Dashboard.SegmentInsightMeaning | Models/utils.py:254-258 | a segment insight exists exactly when the column exists with a present value; it names the column and reports its most frequent value, the count and the rows |
| Dashboard.Insights | Models/utils.py:243-266 | `generate_insights`: revenue, then segments, then age, or the first exception; InsightsShape and InsightsSucceed state its properties |
| Dashboard.InsightsShape | Models/utils.py:243-266 | the revenue insight comes first, then one segment per categorical name in order, then the age insight last, and nothing else |
| Dashboard.SegmentsNameTheirColumns | Models/utils.py:252-258 | the k-th segment insight is about the k-th categorical column |
| Dashboard.InsightsSucceed | Models/utils.py:243-266 | the insights fail exactly when the revenue part fails (no column, or a text column), a segment fails, or the age part fails |
| Dashboard.RevenueMetrics | Models/utils.py:165-167 | total and mean revenue when the column exists, a raise for a text column; OverviewShowsAtMostThree states when it is shown |
| Dashboard.TopOf | Models/utils.py:175-181 | one column's top category and its count, a raise when the column is all missing; TopCategoriesShape states it entry by entry |
| Dashboard.TopCategories | Models/utils.py:173-185 | the overview's loop over categorical columns; TopCategoriesShape states its result |
| Dashboard.TopCategoriesShape | Models/utils.py:173-185 | the overview loop succeeds exactly when each column exists with a top category; entry k is column k's top category |
| Dashboard.OverviewShowsAtMostThree | Models/utils.py:160-185 | the overview shows the first min(3, n) categorical columns in order; the revenue metrics appear exactly when the frame has "revenue", as its sum and mean |
| Dashboard.DataVisualization | Models/utils.py:132-240 | one run of the page: the warning without data; nothing before the click; then the split, the overview and the insights, with a KeyError shown as the missing column and every other exception as the generic error |
| StandaloneApp.Split | stapp.py:13 | `split` always yields at least one piece |
| StandaloneApp.SplitCount | stapp.py:81 | there is one piece per separator, plus one |
| StandaloneApp.SplitPieces | stapp.py:13 | no piece contains the separator |
| StandaloneApp.Join | stapp.py:13 | `sep.join(pieces)`, the inverse of `split` that JoinSplit and SplitJoin prove it is |
| StandaloneApp.JoinSplit | stapp.py:13 | joining the pieces with the separator gives the text back |
| StandaloneApp.SplitWithout | stapp.py:13 | a text without the separator is a single piece |
| StandaloneApp.SplitAround | stapp.py:13 | splitting around one separator splits the two sides |
| StandaloneApp.SplitJoin | stapp.py:81 | splitting joined separator-free pieces gives those pieces back |
| StandaloneApp.FileFormat | stapp.py:13 | `file.name.split(".")[-1]`: the last dot-separated piece of the name; its properties are FileFormatAfterLastDot and FileFormatOfExtension |
| StandaloneApp.FileFormatAfterLastDot | stapp.py:13 | the format has no dot; it is the whole name without a dot, otherwise what follows the last dot |
| StandaloneApp.FileFormatOfExtension | stapp.py:13 | a dot-free extension is the format whatever precedes it |
| StandaloneApp.ReaderFor | stapp.py:14-20 | "csv" goes to the CSV reader; "xlsx" and "xls" go to the Excel reader; anything else is unsupported |
| StandaloneApp.LoadData | stapp.py:12-21 | an unsupported format never reads; otherwise the chosen reader's frame, or its exception |
| StandaloneApp.UpperCaseExtensionRefused | stapp.py:13-20 | "report.CSV" is refused as unsupported |
| StandaloneApp.FormatExamples | stapp.py:13-20 | a dot-less "csv" is CSV, "sales.2024.xls" is Excel, and "sales.csv.txt" is unsupported |
| StandaloneApp.FeatureNames | stapp.py:82 | `columns[:-1]` is every label but the last, in order |
| StandaloneApp.Zip | stapp.py:82 | the row pairs each label with its value, in order |
| StandaloneApp.PredictionRow | stapp.py:81-82 | the typed text parsed token by token, then paired with `columns[:-1]`; a bad token or a count mismatch is the ValueError the page catches |
| StandaloneApp.ParseTokens | stapp.py:81 | `float(x)` for each comma-separated token, failing on the first bad one; PredictionRowShape and BadTokenRejected state its effect |
| StandaloneApp.PredictionRowShape | stapp.py:81-82 | the row is accepted exactly when every token parses and there is one token per column but the last; it then pairs those columns with the numbers |
| StandaloneApp.BadTokenRejected | stapp.py:81 | a token that does not parse is the ValueError reported |
| StandaloneApp.AppSession.constructor | stapp.py:54 | a new session holds no dataset |
| StandaloneApp.MainPass | stapp.py:43-90 | one pass stores the dataset, shows the page and calls the engine exactly as `AppPass` says |
| StandaloneApp.RunClassification | stapp.py:59-87 | setup, compare and prediction are done exactly as `Classify` says |
| StandaloneApp.AppPass | stapp.py:43-90 | one pass: the prompt without a file, the unsupported-format error, a reader exception, or the loaded frame stored and classified |
| StandaloneApp.Classify | stapp.py:58-87 | the target select box (none for a frame without columns), setup with session_id 123, comparison of the six listed models with 5 folds; an exception from setup or compare ends the run with that error |
| StandaloneApp.Predicting | stapp.py:74-87 | no click, no prediction; an invalid row or a ValueError from the engine shows the invalid-data message; any other engine exception ends the run; otherwise one predict_model call and its result |
| StandaloneApp.DatasetWrittenOnlyOnLoad | stapp.py:51-56 | the dataset is replaced exactly when the upload loads, by its frame; otherwise it is kept and nothing is called |
| StandaloneApp.ClassifyTrains | stapp.py:59-70 | a seeded classification setup on the chosen target, then a comparison of the six common models with 5 folds; an exception from either shows the error |
| StandaloneApp.EveryPassTrains | stapp.py:51-70 | every pass that loads a file trains again, whatever the session held: there is no cache |
| StandaloneApp.PredictionNeedsAValidRow | stapp.py:79-87 | at most one prediction call, only on a click and only with a valid row; an invalid row or a ValueError shows "invalid data" |

## Left out

- Rendering: headers, metrics, data-frame views, spinners, success/info/error messages, their wording and number formatting, CSS and the dark mode. Each page's result is a value that says which branch it took and with which figures.
- Charts: the Plotly histograms and pie charts of the visualization page, and the `ValueError` Plotly may raise, are not modelled.
- Navigation of the entry point (`main.py`): only its initialisation of `data` to None is modelled (`SessionStore.SessionState.constructor`).
- Parsing: `pd.read_csv`, `pd.read_excel` and Python's `float` are parameters. `CsvParse` is the outcome of the CSV reader, `Readers` gives the frame or the exception of each reader, and a `parseFloat` function stands for `float`.
- PyCaret's internals: what `setup`, `compare_models`, `pull` and `predict_model` compute comes from the `Oracle`. A prediction is the cell of `prediction_label`.
- Floating point: numbers are Dafny reals, so sums and means are exact. NaN appears as the missing cell `Null` or as `None`.
- Dashboard.TopCategory: ties in `value_counts()` go to the value seen first; pandas does not document its tie order.
- Frames.Drop: labels the frame does not have are ignored. The multiselect offers only the frame's own labels.
- Frames.SelectColumn: a select box whose picked value is no longer offered falls back to its first option, as Streamlit's widget does.
- AutoML.Engine.Pull: `pull` right after a successful `compare_models` is taken never to raise; the model has no exception for it.
- ForecastModel.RunOn: when every column is dropped, the select box returns None and `df[None]` raises a KeyError the page does not catch; the model ends that run as the `NoColumnLeft` stop, with the session unchanged and no engine call.
- StandaloneApp.Classify: a frame with no columns ends with `NoTargetColumn` and no setup call. The page would call `setup` with no target, which raises.
- StandaloneApp.AppPass: an exception from a reader is not caught by the page. It ends the pass as `ReadFailed` and leaves the stored dataset as it was.
- Dashboard.DataVisualization: the `KeyError` of a missing column is `ColumnNotFound`; every other exception of the page is the single `VisualizationFailed`.
- Dashboard.DataAnalysis: `describe` and `dtypes` are not modelled. The only error modelled is the `ValueError` of `describe` on a frame without columns.
- Concurrency between browser sessions and Streamlit's rerun scheduling: one run is one call, with at most one button clicked.
