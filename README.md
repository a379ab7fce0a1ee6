# Social media engagement tracker: a Dafny model of its data pipeline

The tracker is a one-page Streamlit app (`streamlit_app.py`). A user uploads a CSV export of
social-media posts and gets four charts:

- total engagement by post type;
- the daily engagement trend;
- the likes per weekday as a box chart;
- engagement by platform.

This project models the two functions that do the work:

- `load_and_clean_data` (module `Cleaning`) turns the parsed CSV table into clean posts. It
  strips and renames the headers, coerces the three metric columns, drops rows that lack a
  required field, parses the dates, and adds the weekday.
- `create_visualizations` (module `Aggregation`) computes the data each chart is given. For
  each of the three bar and line charts this is a group-by-sum melted to long form. For the
  box chart it is one point per post on the fixed `DAY_ORDER` axis.

Support modules:

- `Calendar` holds `DAY_ORDER`, a proleptic Gregorian calendar and `day_name()`.
- `Text` holds `str.strip()` and Python's string order.
- `Wrappers` holds `Option` and `Result`.
- `Scenarios` works a small export through the whole pipeline in lemmas: padded headers, a
  non-numeric like count, a row without a platform, and a bad date.

The cleaning step keeps the statement-by-statement shape of the function, chained by
`Cleaning.LoadAndCleanData`:

- loops for the header strip (line 10), the rename (lines 11-19), the numeric coercion
  (line 20) and the dropna (line 21), and one loop for the date conversion together with the
  weekday (lines 22-24);
- the column selection of lines 20-21 is the function `ResolveColumns`;
- the categorical dtype of line 24 is represented by the `Day` type and its `Index` in
  DAY_ORDER.

Each loop is proved against its own specification function: `StripColumns` against `Trim`,
`RenameColumns` against `Rename`, `CoerceMetrics` against `Records`, `DropNa` against
`DropIncomplete` and `ConvertDates` against `ParseDates`. `LoadAndCleanData` is proved equal
to the function `Clean`, which composes those functions, and the properties of the load are
lemmas about `Clean`. The charts are computed by pure functions and have lemmas about them.

Two pandas parsers are parameters of the model and are never implemented:

- `pd.to_numeric` becomes `toNumeric: string -> Option<int>`; `None` is a value the coercion
  turns into NaN.
- `pd.to_datetime` becomes `toDatetime: string -> Option<Timestamp>`; `None` is a value it
  cannot parse.

A lemma that needs particular parser answers states them in its `requires`.

Three behaviours of the code that are easy to miss:

- A date that does not parse makes `pd.to_datetime` raise, because it is called without
  `errors='coerce'`. The whole load fails (`Failure(UnparseableDate)`); the row is not
  dropped.
- A required column that is absent after renaming makes the column selection raise
  `KeyError`. This is modelled as `Failure(MissingColumns(names))`: the load fails, rows are
  not dropped.
- Nothing in the code rejects a negative count, and neither does the model.

## Model

| member | source | states |
|---|---|---|
| Calendar.Index | streamlit_app.py:5 | each weekday's name is at its own position of DAY_ORDER |
| Calendar.DayOrderIsEnumeration | streamlit_app.py:5 | DAY_ORDER has seven distinct entries, every weekday name is among them, and a name determines its day |
| Calendar.FromIndex | streamlit_app.py:5 | the day at position i of DAY_ORDER has index i |
| Calendar.Weekday | streamlit_app.py:23 | `day_name()` of a timestamp, always a DAY_ORDER name; its own ensures holds for any day, so its specification is `WeekdayNext` (one step per calendar day) together with `EpochIsThursday` (1970-01-01 is a Thursday) |
| Calendar.WeekdayNext | streamlit_app.py:23 | from each valid date to the next calendar day, `day_name()` advances one place in DAY_ORDER, Sunday wrapping to Monday |
| Calendar.DaysFromCivilNext | streamlit_app.py:23 | consecutive calendar days, across month, leap-day and year ends, have consecutive day numbers |
| Calendar.YearStartStep | streamlit_app.py:23 | a March-to-February year has 366 days exactly when its February has a leap day under the Gregorian rule, and 365 otherwise |
| Calendar.EpochIsThursday | streamlit_app.py:23 | day number 0 is 1970-01-01, and its weekday is Thursday |
| Calendar.MondayExamples | streamlit_app.py:23 | 2024-01-01 and 2024-03-04 are Mondays |
| Calendar.WeekdayIgnoresTime | streamlit_app.py:23 | the weekday of a timestamp does not depend on its time of day |
| Calendar.NextDate | streamlit_app.py:23 | the day after a valid date is a valid date |
| Calendar.BeforeIsStrictTotalOrder | streamlit_app.py:33 | chronological order, the order that `groupby("date")` sorts its keys in, is irreflexive, transitive and total |
| Text.LeadingSpace | streamlit_app.py:10 | counts exactly the leading whitespace: all of the prefix is whitespace and the next character is not |
| Text.TrimEnd | streamlit_app.py:10 | the result is a prefix followed only by whitespace, and it does not end with whitespace |
| Text.Trim | streamlit_app.py:10 | `strip()` returns the slice between the leading and the trailing whitespace, and the slice neither starts nor ends with whitespace |
| Text.TrimOfTrimmed | streamlit_app.py:10 | a name without surrounding whitespace is left unchanged |
| Text.TrimIdempotent | streamlit_app.py:10 | stripping twice equals stripping once |
| Text.TrimPadded | streamlit_app.py:10 | stripping removes any whitespace padding around a name |
| Text.StrLessIrreflexive | streamlit_app.py:28 | Python's string order never puts a string before itself |
| Text.StrLessTransitive | streamlit_app.py:28 | Python's string order is transitive |
| Text.StrLessTotal | streamlit_app.py:28 | any two distinct strings are ordered one way or the other |
| Text.StrLessAsymmetric | streamlit_app.py:28 | two strings are never ordered both ways |
| Cleaning.Rename | streamlit_app.py:11-19 | a column name is either left as it is or, when listed, becomes a canonical field name |
| Cleaning.NormalizeHeader | streamlit_app.py:10-19 | a header becomes either its stripped form or a canonical field name |
| Cleaning.NormalizedColumns | streamlit_app.py:10-19 | one column name per header, in place, each either the stripped header or a canonical field name |
| Cleaning.RenameTable | streamlit_app.py:11-19 | the table renames exactly its seven keys, to seven distinct canonical names, and leaves every other name as it is |
| Cleaning.RenameKeys | streamlit_app.py:11-19 | the renamed headers are exactly the seven listed export names |
| Cleaning.RenameLookups | streamlit_app.py:11-19 | each export name is mapped to its canonical field name |
| Cleaning.RenameOntoCanonical | streamlit_app.py:11-19 | the rename targets are exactly the seven canonical field names |
| Cleaning.RenameValues | streamlit_app.py:11-19 | seven keys, mapped onto the seven canonical names |
| Cleaning.RenameMovesEveryListedName | streamlit_app.py:11-19 | no listed name is mapped to itself |
| Cleaning.HeaderNormalization | streamlit_app.py:10-19 | each column keeps its position and becomes its stripped name, renamed when the stripped name is listed; no column is added or lost |
| Cleaning.StripColumns | streamlit_app.py:10 | the loop strips every header name in place |
| Cleaning.RenameColumns | streamlit_app.py:11-19 | the loop renames every column name in place |
| Cleaning.IndexOf | streamlit_app.py:20-21 | a column name is located only if present, and at its first occurrence |
| Cleaning.MissingOf | streamlit_app.py:20-21 | lists exactly the requested names that are not columns, and is empty exactly when all are present |
| Cleaning.ResolveColumns | streamlit_app.py:20-21 | selection succeeds exactly when all six required fields are columns, and then locates each field; otherwise the KeyError names only absent required columns |
| Cleaning.ResolveColumnsReports | streamlit_app.py:20-21 | if a metric column is missing, the KeyError lists the missing metrics, since that selection runs first; otherwise it lists the missing dropna-subset columns, in the code's order |
| Cleaning.Locate | streamlit_app.py:20-21 | with every required field present, each field is read from the first column of its name |
| Cleaning.Coerce | streamlit_app.py:20 | an NA cell stays NA, and a present cell becomes whatever the numeric parser reads from it: its number when it parses, NA when it does not |
| Cleaning.ToRecord | streamlit_app.py:20 | a metric is present only if its column's cell is present in the row, and then it is the parser's reading of that cell; the date, platform and post-type fields are the row's cells in their columns, NA past the row's end; without a `post_text` column the record has no post text |
| Cleaning.Records | streamlit_app.py:20 | coercion produces one record per row, in order, each built from its own row alone |
| Cleaning.CoerceMetrics | streamlit_app.py:20 | the row loop computes exactly the coerced records |
| Cleaning.UnparseableMetricDropsRow | streamlit_app.py:20-21 | a metric cell that does not parse as a number becomes NaN, so the row fails the required-field filter |
| Cleaning.MissingPostTextKeepsRow | streamlit_app.py:21 | `post_text` is not in the dropna subset: blanking it never changes whether a row survives |
| Cleaning.Complete | streamlit_app.py:21 | the dropna test: all six subset fields present; `post_text` plays no part (see `MissingPostTextKeepsRow`) |
| Cleaning.DropIncomplete | streamlit_app.py:21 | dropna keeps only rows with all six required fields, never more rows than it was given |
| Cleaning.DropNa | streamlit_app.py:21 | the filtering loop computes exactly the dropna result |
| Cleaning.KeptIndicesCorrect | streamlit_app.py:21 | the kept rows are the input rows at strictly increasing positions, and a position is kept exactly when its row is complete |
| Cleaning.KeptIndicesAlign | streamlit_app.py:21 | the k-th kept row is the input row at the k-th kept position |
| Cleaning.KeptIndicesIncreasing | streamlit_app.py:21 | dropna keeps the input order |
| Cleaning.KeptIndicesExact | streamlit_app.py:21 | a row is kept exactly when it is complete |
| Cleaning.ToPost | streamlit_app.py:22-24 | a post carries the parsed date and its weekday, a DAY_ORDER category; likes, comments, shares, platform, post type and post text pass through unchanged |
| Cleaning.WithDay | streamlit_app.py:23 | assigning `day` keeps every existing column in place, so that `day` is a column; it adds one column exactly when there was no `day` column, and otherwise overwrites it with none added |
| Cleaning.ParseDates | streamlit_app.py:22-24 | date parsing succeeds exactly when every kept date parses; then it gives one post per kept row, with the parsed date and its weekday |
| Cleaning.ConvertDates | streamlit_app.py:22-24 | the conversion loop stops at the first bad date, and its result is exactly the date parsing |
| Cleaning.ParseDatesFailsIff | streamlit_app.py:21-22 | after the filter, parsing fails exactly when some complete row has a date that does not parse |
| Cleaning.PostsOfKeptRecords | streamlit_app.py:21-24 | post k is built from the k-th kept record |
| Cleaning.Clean | streamlit_app.py:8-25 | a successful load has at most one post per data row and a `day` column |
| Cleaning.LoadAndCleanData | streamlit_app.py:8-25 | the statement-by-statement load gives exactly `Clean` of the parsed file, its error included |
| Cleaning.PostOfRowCarriesFields | streamlit_app.py:20-24 | a post made from a row has as likes, comments and shares the numbers the parser reads from that row's cells, as date the parsed date cell, and the row's platform, post type and post text |
| Cleaning.CleanPostsCarryRowFields | streamlit_app.py:20-24 | every cleaned post comes from a distinct data row, in order, and its metrics are what `pd.to_numeric` reads from that row's cells, its date what `pd.to_datetime` reads from its date cell, its other fields the row's own cells |
| Cleaning.CleanKeepsExactlyCompleteRows | streamlit_app.py:20-24 | the cleaned posts are exactly the rows that pass the filter, each once and in input order, each carrying its row's fields, parsed date and weekday |
| Cleaning.CleanFailsOnBadDate | streamlit_app.py:21-22 | the load fails with an unparseable date exactly when some row that passes the filter has a bad date; a bad date in a dropped row is harmless |
| Cleaning.CleanFailsOnMissingColumn | streamlit_app.py:20-21 | the load raises KeyError exactly when a required column is absent after normalisation, and names only absent required columns |
| Cleaning.CleanDayIsWeekday | streamlit_app.py:23-24 | every cleaned post's `day` is the weekday of its `date`, and a DAY_ORDER category |
| Cleaning.CleanDatesAreValid | streamlit_app.py:22-23 | with a parser that only returns real calendar instants, every cleaned post has a valid date and that date's weekday |
| Cleaning.CleanColumnNames | streamlit_app.py:10-23 | the cleaned frame's columns are the normalised headers in place, with `day` appended unless it already existed, in which case no column is added |
| Cleaning.CleanEmptyFile | streamlit_app.py:8-25 | a file with all required columns and no data rows cleans to an empty frame |
| Aggregation.KeyLessIrreflexive | streamlit_app.py:28 | the key order never puts a key before itself |
| Aggregation.KeyLessTransitive | streamlit_app.py:28 | the key order is transitive |
| Aggregation.KeyLessTotal | streamlit_app.py:28 | distinct keys are ordered one way or the other |
| Aggregation.Total | streamlit_app.py:28 | column totals of non-negative counts are non-negative |
| Aggregation.RowsWithKey | streamlit_app.py:28 | holds exactly the posts whose grouping column has the key |
| Aggregation.AddTo | streamlit_app.py:28 | adding a row to a group table adds at most one group |
| Aggregation.GroupBySum | streamlit_app.py:28 | a group-by-sum (the same one serves lines 33 and 42) has at most one group per row, and no groups exactly when the frame is empty |
| Aggregation.AddToAscending | streamlit_app.py:28 | adding a row to a sorted group table keeps one group per key, in ascending order |
| Aggregation.AddToLookup | streamlit_app.py:28 | adding a row raises only its own key's totals, by the row's metrics |
| Aggregation.AddToSum | streamlit_app.py:28 | adding a row raises the table's grand total by that row's metrics |
| Aggregation.LookupAscending | streamlit_app.py:28 | in an ascending table, looking up a group's key finds that group |
| Aggregation.LookupAbsent | streamlit_app.py:28 | a key without a group has zero totals |
| Aggregation.GroupBySumShape | streamlit_app.py:28 | the grouped table is strictly ascending in its key, with one row per distinct key present |
| Aggregation.GroupBySumLookup | streamlit_app.py:28 | a key's totals are the sums of the three metrics over the rows with that key |
| Aggregation.GroupBySumTotal | streamlit_app.py:28 | the groups' totals add up to the column totals of the whole frame |
| Aggregation.GroupBySumCorrect | streamlit_app.py:28 | for each grouping (post type, and also date and platform): ascending keys, one group per present key, per-group sums over a non-empty set of rows, sums that add up to the totals, and an empty table only for an empty frame |
| Aggregation.Melt | streamlit_app.py:29 | melting gives exactly three rows per group |
| Aggregation.MeltShape | streamlit_app.py:29 | melting gives three rows per group: all likes rows, then comments, then shares, each holding its group's key and sum |
| Aggregation.UnmeltMelt | streamlit_app.py:29 | pivoting the melted table back gives the grouped table |
| Aggregation.MeltRowAt | streamlit_app.py:29 | each melted row comes from one group and carries that group's value of its metric |
| Aggregation.ChartRowsAreGroupSums | streamlit_app.py:28-29 | each row of a bar or line chart is the sum of its metric over the posts with its key, and its key occurs in the data |
| Aggregation.LikesByDay | streamlit_app.py:38-40 | the box chart's axis is DAY_ORDER and it has one point per post |
| Aggregation.BoxChartAxis | streamlit_app.py:38-40 | the box chart has one point per post (its weekday and likes), and its axis is DAY_ORDER whatever days occur |
| Aggregation.CreateVisualizations | streamlit_app.py:27-47 | each of the three long-form tables has at most three rows per post and is empty exactly when there are no posts, and the box chart has one point per post over DAY_ORDER |
| Aggregation.EmptyCharts | streamlit_app.py:27-47 | no posts give three empty chart tables and a box chart with only the day axis |
| Scenarios.StripLeadingSpace | streamlit_app.py:10-19 | `" Media Type"` becomes `post_type` |
| Scenarios.StripTrailingSpace | streamlit_app.py:10-19 | `"Likes/Reactions "` becomes `likes` |
| Scenarios.RenameShares | streamlit_app.py:11-19 | `Shares/Retweets` becomes `shares` |
| Scenarios.HeaderExample | streamlit_app.py:10-19 | a padded six-column export header normalises to the six canonical names |
| Scenarios.ResolveExample | streamlit_app.py:20-21 | every field of the example is located; the missing `post_text` column is no error |
| Scenarios.RecordsExample | streamlit_app.py:20 | the example rows coerce to the expected records, with `"abc"` becoming NaN |
| Scenarios.DropExample | streamlit_app.py:21 | the filter keeps the two complete example rows and drops the other two |
| Scenarios.DatesExample | streamlit_app.py:22-24 | both kept rows are dated 2024-03-04, so both are Monday posts |
| Scenarios.CleanExample | streamlit_app.py:8-25 | the whole load on the example gives the two posts and the canonical columns plus `day`; the dropped row's bad date does no harm |
| Scenarios.GroupByPlatformExample | streamlit_app.py:42 | platforms X and Y form two groups, X first, each with its own totals |
| Scenarios.ChartsExample | streamlit_app.py:28-45 | the example's post-type, daily and platform chart rows, in melt order |
| Scenarios.BadDateFailsLoad | streamlit_app.py:21-22 | appending a complete row dated `not-a-date` makes the whole load fail |

## Left out

- The Streamlit page (lines 49-59): the title, the file uploader and `st.plotly_chart`. This
  is UI and I/O.
- `@st.cache_data` (line 7): caching is not modelled. `Clean` is a function of the file and
  of the two parsers, so the cache cannot change a result as long as the parsers do not
  depend on the clock. `pd.to_datetime` does: it reads `now` and `today` from the clock, so
  for such a cell a cached result holds an older timestamp than a fresh call would.
- `pd.read_csv` byte parsing: quoting, encodings, type inference of columns other than the
  metrics. The model starts from the parsed header and cells (`RawTable`). A cell that
  `read_csv` reads as NA (an empty field, `NA`, `N/A`, `null` and the like) is `None`, and a
  short row reads as NA in the columns it lacks.
- Cleaning.Coerce: the grammar of `pd.to_numeric` is a parameter. Only integer results are
  modelled; floats, and the float64 column an integer column becomes once it holds NaN, are
  not.
- Cleaning.CleanDatesAreValid: that `pd.to_datetime` only returns real calendar instants is
  not derived, since its grammar is a parameter; the lemma takes it as a `requires` on the
  parser.
- Cleaning.ParseDates: the grammar of `pd.to_datetime`, its format inference across rows,
  time zones and sub-second precision are not modelled. A parameter reads each date on its
  own.
- Cleaning.ParseDates: a date cell `NaT` (any case) is not in `read_csv`'s NA list, so its
  row survives the dropna. `pd.to_datetime` then turns it into NaT without raising, and
  `day_name()` gives NaN. The model's parser returns either a timestamp or a failure, so it
  has no such row: in pandas that row counts in the post-type and platform charts, is
  dropped by `groupby("date")` from the daily chart, and has no day in the box chart.
- Cleaning.ParseDates: `now` and `today` are read from the clock by `pd.to_datetime`; the
  model's parser is a fixed function of the text.
- Cleaning.ToRecord: when the header has two columns with one canonical name, pandas would
  select both. The model reads the first.
- Cleaning.LoadAndCleanData: only the frame's column names and the fields the charts read
  are carried. Values of other columns are not. The `day` column's categorical dtype is
  represented by its category list, DAY_ORDER.
- Cleaning.ResolveColumns: the wording of pandas' KeyError message is not modelled, only the
  list of missing names.
- Aggregation.CreateVisualizations: chart titles, labels, colours, bar mode and markers are
  cosmetic and not modelled. Only each chart's data rows and the box chart's category order
  are.
- Aggregation.Total: counts are unbounded integers; int64 overflow of a sum is not modelled.
