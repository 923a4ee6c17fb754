# enem-ai-analyst: chart-specification engine, SQL tools and SQL highlighter

This project models the parts of the ENEM data-analysis agents that do not
depend on a language model. It then proves what those parts promise.

- **Chart-specification validator** (`validate_chart_spec`). It runs an
  ordered chain of structural checks over a JSON-like value, and the first
  check that fails decides the message.
- **Chart helpers**:
  - `prepare_data_for_chart` sorts columns into numeric, datetime,
    categorical and text, and recommends a chart;
  - `analyze_chart_data` builds per-column summaries, outlier and
    dominant-category insights, and strong correlations;
  - `format_chart_description` writes the description sentences.
- **The three `generate_chart` tools**:
  - the ENEM agent's tool, which defaults the chart type, auto-selects bar
    columns, checks the columns each kind needs, builds histograms and
    validates before it returns;
  - the data analyst's tool, which parses, validates and re-serialises;
  - the early draft, which builds bar and line charts only and returns
    status dictionaries.
- **Database tools**: the read-only guard of `execute_sql`, its classification
  of failure texts, the schema text of a table, the listing of every table's
  schema, and the earlier `execute_sql`.
- **SQL highlighter** (`formatar_sql`): seven fixed keyword replacements
  inside a `<pre>` block.

How the model is built:

- Python values are the `PyValue.Value` datatype. A dict is an ordered list
  of key/value pairs, and `Object(typeName)` stands for any object outside
  the JSON types.
- A DataFrame is a `Frames.Frame`: each column has a name, a dtype and its
  cells.
- These libraries are oracles passed in as function values, never
  implemented:
  - pandas construction and statistics;
  - `json.loads` and `json.dumps` of whole specifications;
  - Altair's `to_dict`;
  - the database.
- `json.dumps({"error": message})` is modelled concretely, including its
  `ensure_ascii` escaping. That makes the `"error" in text` tests of the
  database tools decidable. A decoder is proved to read the message back.
- Python `str.strip`, `upper`, `lower`, `replace`, `in` and `str(n)` are
  written out in module `Text`.

Imperative code keeps its form:

- the classification loop, the column and correlation loops of the
  analysis, and the description builder are methods with loop invariants;
- so are the parameter rebinding of the ENEM tool, the schema `+=` loop and
  the listing loop.

Each method is proved equal to a specification function. The properties are
lemmas about those functions.

Insights are ordered column by column, with each column's outlier or
dominant-category insight in turn; correlations come after all of them.

## Model

| member | source | states |
|---|---|---|
| ChartValidation.ValidateChartSpec | ai_data_analyst/tools/chart_validation.py:17-65 | the result is valid exactly when it carries no message |
| ChartValidation.ValidateReportsFirstFailure | ai_data_analyst/tools/chart_validation.py:17-65 | the result is `(True, None)` when no check fails; otherwise it is the message of the first failing check in the fixed order mark, encoding, encoding is a dict, a channel, data, data is a dict, values, serialisable, non-empty list |
| ChartValidation.ValidateReportsFailing | ai_data_analyst/tools/chart_validation.py:27-62 | a failing check whose predecessors all pass decides the message |
| ChartValidation.ValidateAcceptsPassing | ai_data_analyst/tools/chart_validation.py:64-65 | when every check passes the result is `(True, None)` |
| ChartValidation.AcceptedIffAllChecksPass | ai_data_analyst/tools/chart_validation.py:17-65 | a specification is accepted if and only if every check passes |
| ChartValidation.RejectionIsFirstFailingCheck | ai_data_analyst/tools/chart_validation.py:27-62 | every rejection carries the message of a failing check that all earlier checks pass |
| ChartValidation.FirstFailureFromIsFirst | ai_data_analyst/tools/chart_validation.py:27-62 | the scan of the check order finds the earliest failing check, or none when all pass |
| ChartValidation.VerdictDependsOnThreeKeys | ai_data_analyst/tools/chart_validation.py:17-65 | the verdict depends only on whether `mark` is present and on what `encoding` and `data` hold |
| ChartValidation.SchemaNeverDecides | ai_data_analyst/tools/chart_validation.py:21-24 | adding, removing or changing `$schema` never changes the verdict |
| ChartValidation.MarkValueUnconstrained | ai_data_analyst/tools/chart_validation.py:27-28 | only the presence of `mark` matters, not its value |
| ChartValidation.ChannelCheckExamples | ai_data_analyst/tools/chart_validation.py:38-40 | an empty encoding, or one with only a tooltip, is rejected with the missing-channel message |
| ChartValidation.EmptyValuesExample | ai_data_analyst/tools/chart_validation.py:60-62 | an empty `values` list is rejected with the non-empty-list message |
| ChartValidation.SerialisationCheckedBeforeValues | ai_data_analyst/tools/chart_validation.py:54-62 | data holding a non-JSON object reports the serialisation error even though `values` is empty |
| PyValue.FirstUnserialisableIffNotSerialisable | ai_data_analyst/tools/chart_validation.py:55-58 | the walk finds a non-JSON object exactly when `json.dumps` of the data fails |
| PyValue.Dumps | ai_data_analyst/tools/chart_validation.py:55-58 | printing succeeds exactly for values made of JSON types |
| Frames.ColumnNames | ai_data_analyst/tools/chart_helpers.py:33 | one name per column, in column order |
| ChartPreparation.KindOf | ai_data_analyst/tools/chart_helpers.py:42-49 | the first test a column passes: a numeric dtype, a datetime dtype, fewer distinct values than half the rows, otherwise text |
| ChartPreparation.ClassifyColumns | ai_data_analyst/tools/chart_helpers.py:41-49 | the loop produces, for each kind, exactly the names that the first-match classification (numeric, datetime, fewer distinct values than half the rows, text) gives, in column order |
| ChartPreparation.NamesOfKindIff | ai_data_analyst/tools/chart_helpers.py:41-49 | a name is listed under a kind if and only if some column with that name has that kind |
| ChartPreparation.KindsPartitionColumns | ai_data_analyst/tools/chart_helpers.py:41-49 | the four lists together have exactly as many entries as there are columns |
| ChartPreparation.ColumnListedUnderItsKindOnly | ai_data_analyst/tools/chart_helpers.py:41-49 | with distinct column names, each column is listed under its own kind and under no other |
| ChartPreparation.Recommend | ai_data_analyst/tools/chart_helpers.py:59-83 | each chart type holds if and only if its column-count condition holds (grouped_bar, bar, scatter, line, histogram, none); the group column is the second categorical column; x and y are the first columns of the kinds each rule names |
| ChartPreparation.RecommendedColumnsHaveTheirKinds | ai_data_analyst/tools/chart_helpers.py:59-83 | every recommended axis is a column of the frame of the kind its chart needs |
| ChartPreparation.NamesOfKindInOrder | ai_data_analyst/tools/chart_helpers.py:41-49 | each kind's list names the columns of that kind at strictly increasing positions, and every such column is listed, so the lists keep the frame's order |
| ChartPreparation.PrepareDataForChart | ai_data_analyst/tools/chart_helpers.py:19-85 | invalid JSON gives an empty frame, no names and the invalid-JSON error; an exception of the DataFrame constructor escapes; an empty frame gives the empty-dataset error and no names; every non-empty frame gets its column names and the recommendation of its classified columns |
| ChartAnalysis.MinOf | ai_data_analyst/tools/chart_helpers.py:119 | the minimum is None exactly when the column holds no number; otherwise it is one of the column's numbers and no number is smaller |
| ChartAnalysis.MaxOf | ai_data_analyst/tools/chart_helpers.py:120 | the maximum is None exactly when the column holds no number; otherwise it is one of the column's numbers and no number is larger |
| ChartAnalysis.MinAtMostMax | ai_data_analyst/tools/chart_helpers.py:119-120 | the minimum never exceeds the maximum |
| ChartAnalysis.Outliers | ai_data_analyst/tools/chart_helpers.py:125-132 | the number of values outside the quartiles widened by 1.5 interquartile ranges; none when a quartile is undefined |
| ChartAnalysis.OutlierCount | ai_data_analyst/tools/chart_helpers.py:125-132 | the outlier count never exceeds the number of non-missing values |
| ChartAnalysis.ValuesBetweenQuartilesAreNotOutliers | ai_data_analyst/tools/chart_helpers.py:125-132 | when every value lies between the quartiles, the IQR rule finds no outlier |
| ChartAnalysis.CategoryCountsArePositive | ai_data_analyst/tools/chart_helpers.py:139-141 | every listed category occurs at least once and at most once per row |
| ChartAnalysis.MajorityIsUnique | ai_data_analyst/tools/chart_helpers.py:143-148 | at most one value can fill more than half the rows |
| ChartAnalysis.Majority | ai_data_analyst/tools/chart_helpers.py:143-148 | a dominant category is reported exactly when some value fills more than half the rows, and it is such a value |
| ChartAnalysis.MajorityHasLargestCount | ai_data_analyst/tools/chart_helpers.py:139-148 | the dominant value has the largest count of the column |
| ChartAnalysis.ColumnReport | ai_data_analyst/tools/chart_helpers.py:110-150 | one column's pass fails exactly for an object or category column without values; otherwise the summary records the dtype name, the missing and distinct counts; a numeric column gets min, max, mean, median and the outlier count, and adds the outlier insight exactly when that count is positive; an object or category column with at most ten distinct values gets its category counts, and adds the dominant-category insight exactly when some value fills more than half the rows; any other column adds nothing |
| ChartAnalysis.ColumnPass | ai_data_analyst/tools/chart_helpers.py:110-150 | the column loop as a function: the summaries keyed by name and the insights, in column order, or the first column's failure |
| ChartAnalysis.ColumnInsights | ai_data_analyst/tools/chart_helpers.py:134-148 | each column's own insights, in column order |
| ChartAnalysis.ColumnPassFailureSticks | ai_data_analyst/tools/chart_helpers.py:110-150 | once a column raises, the later columns do not change the outcome |
| ChartAnalysis.ColumnPassOutcome | ai_data_analyst/tools/chart_helpers.py:110-150 | the column loop raises exactly at a column without value counts; otherwise it has one summary per column, in column order, each that column's own report, and its insights are each column's insights in column order |
| ChartAnalysis.ColumnInsightsLength | ai_data_analyst/tools/chart_helpers.py:134-148 | each column adds at most one insight |
| ChartAnalysis.AnalysisOutcome | ai_data_analyst/tools/chart_helpers.py:98-169 | an empty frame gives only the empty-dataset error; a successful analysis is a report if and only if the frame is non-empty; the analysis raises if and only if some object or category column has no values; otherwise the report holds the row and column counts, under each column name that column's own summary, the dictionary of the strong pairs, and the insights of the columns in column order followed by one correlation insight per strong pair |
| ChartAnalysis.AnalysisOf | ai_data_analyst/tools/chart_helpers.py:98-169 | `analyze_chart_data` as a function: the empty-dataset error, the column pass's failure, or the report |
| ChartAnalysis.AnalyzeChartData | ai_data_analyst/tools/chart_helpers.py:98-169 | the method's result is the analysis that the specification function defines |
| ChartAnalysis.NumberColumns | ai_data_analyst/tools/chart_helpers.py:153 | exactly the columns whose dtype is a number type |
| ChartAnalysis.NumberColumnsInOrder | ai_data_analyst/tools/chart_helpers.py:153 | the number columns are picked out of the frame at strictly increasing positions, and every number column is picked, so they keep the frame's order |
| ChartAnalysis.AddCorrelations | ai_data_analyst/tools/chart_helpers.py:152-167 | the correlations are the dictionary of the strong pairs, and their insights are appended after the existing ones |
| ChartAnalysis.AllPairs | ai_data_analyst/tools/chart_helpers.py:156-167 | the outer loop writes the strong pairs of every first column, row by row |
| ChartAnalysis.AddRowCorrelations | ai_data_analyst/tools/chart_helpers.py:157-167 | the inner loop writes the strong pairs of one first column, in order |
| ChartAnalysis.StrongPairs | ai_data_analyst/tools/chart_helpers.py:152-162 | the strong pairs of the number columns, row by row, when there are at least two |
| ChartAnalysis.StrongPairsExact | ai_data_analyst/tools/chart_helpers.py:152-162 | a pair is reported if and only if it is a strong pair: both columns are number columns, the first comes before the second, and the correlation is defined with absolute value above 0.7 |
| ChartAnalysis.RowHitsExact | ai_data_analyst/tools/chart_helpers.py:157-162 | the hits of one row are exactly its strong pairs with the later columns |
| ChartAnalysis.HitsBeforeExact | ai_data_analyst/tools/chart_helpers.py:156-162 | the hits of the earlier rows are exactly their strong pairs |
| ChartAnalysis.HitInsightsLength | ai_data_analyst/tools/chart_helpers.py:161-167 | each strong pair adds exactly one insight |
| ChartAnalysis.CorrelationMapLastWrite | ai_data_analyst/tools/chart_helpers.py:162 | a key is in the dictionary if and only if some hit writes it, and it holds the value of the last such hit |
| ChartAnalysis.KeyDeterminesPair | ai_data_analyst/tools/chart_helpers.py:162 | when the first column name has no dash, the key `first-second` determines both names |
| ChartDescription.Intro | ai_data_analyst/tools/chart_helpers.py:189-205 | the opening sentence of each known chart type |
| ChartDescription.IntroIff | ai_data_analyst/tools/chart_helpers.py:189-205 | there is at most one opening sentence, and there is one exactly for a known type with x set, and with y set unless the type is histogram |
| ChartDescription.SummaryIn | ai_data_analyst/tools/chart_helpers.py:212-213 | a column's summary is found exactly when the report has that column |
| ChartDescription.SummaryInFindsUnique | ai_data_analyst/tools/chart_helpers.py:212-218 | with distinct column names, the lookup returns that column's own summary |
| ChartDescription.YLines | ai_data_analyst/tools/chart_helpers.py:217-223 | the range sentence of the y column, when it has all three statistics |
| ChartDescription.DescriptionLines | ai_data_analyst/tools/chart_helpers.py:186-231 | the opening, record-count, distinct-count and range sentences and the insight lines, in that order |
| ChartDescription.Bullets | ai_data_analyst/tools/chart_helpers.py:230-231 | one bullet per insight |
| ChartDescription.AppendInsights | ai_data_analyst/tools/chart_helpers.py:226-231 | the loop appends exactly the heading and the bullets of the first three insights |
| ChartDescription.InsightLinesShowFirstThree | ai_data_analyst/tools/chart_helpers.py:226-231 | no insights give no lines; otherwise the heading is followed by at most three bullets, one for each of the first insights in order |
| ChartDescription.ErrorAnalysisGivesIntroOnly | ai_data_analyst/tools/chart_helpers.py:189-231 | an `{"error": ...}` analysis is described by the opening sentence alone |
| ChartDescription.ReportStatesRecordCount | ai_data_analyst/tools/chart_helpers.py:208-209 | the description of a report always states its record count |
| ChartDescription.FormatChartDescription | ai_data_analyst/tools/chart_helpers.py:186-233 | the method raises exactly when the y column has numeric statistics with a missing minimum, maximum or mean; otherwise it returns the description lines joined by newlines, which is also the corrected description |
| ChartDescription.NumericColumnWithoutValuesBreaksDescription | ai_data_analyst/tools/chart_helpers.py:117-123 | a numeric column with no values is analysed without error, but its summary has a None minimum, so describing it raises |
| ChartDescription.CorrectedDescription | ai_data_analyst/tools/chart_helpers.py:186-233 | the corrected description never raises; it is the opening sentence, the record count of a report, the x column's distinct count and the heading and first three insights, joined by newlines, with the range sentence of the y column's minimum, maximum and mean before the insights exactly when the y column has numeric statistics and all three are present |
| ChartDescription.RangeSentenceIffStatistics | ai_data_analyst/tools/chart_helpers.py:217-223 | the range sentence appears at most once, and it appears exactly when the y column has all three statistics |
| ToolResults.Returned | enem_ai_analyst/sub_agents/visualization_agent.py:42-164 | an error outcome is returned as "Error: " followed by its message; chart JSON is returned as is |
| EnemVisualization.EffectiveType | enem_ai_analyst/sub_agents/visualization_agent.py:37-39 | a missing or empty type, or `table` in any case, becomes `bar`; any other type is kept |
| EnemVisualization.TableInAnyCaseIsBar | enem_ai_analyst/sub_agents/visualization_agent.py:38-39 | `TABLE`, `Table`, None and the empty string all give `bar` |
| EnemVisualization.TypeMatchIsCaseSensitive | enem_ai_analyst/sub_agents/visualization_agent.py:142-144 | `Bar` is not a bar chart: it is reported as unsupported |
| EnemVisualization.UnsupportedIff | enem_ai_analyst/sub_agents/visualization_agent.py:142-144 | the unsupported-type error is given if and only if the type is none of the five supported types |
| EnemVisualization.NumericNames | enem_ai_analyst/sub_agents/visualization_agent.py:75 | exactly the names of the numeric columns, the first being a numeric column's name |
| EnemVisualization.BarColumns | enem_ai_analyst/sub_agents/visualization_agent.py:62-85 | given columns are kept; an empty frame is an error; a missing x is the first column; a missing y is the first numeric column unless it is x, else the second column; fewer than two columns leave y missing and give an error; for a non-empty frame, auto-selection succeeds if and only if the chosen x name and the given or chosen y name are non-empty |
| EnemVisualization.AutoSelectBarColumns | enem_ai_analyst/sub_agents/visualization_agent.py:62-85 | the rebinding of x and y produces what the bar-column selection specifies |
| EnemVisualization.ChosenBarColumnsSettle | enem_ai_analyst/sub_agents/visualization_agent.py:62-93 | after a successful selection the chosen names are kept by a second selection, so building the bar chart from the rebound x and y gives the chart of the original arguments |
| EnemVisualization.RequiredColumns | enem_ai_analyst/sub_agents/visualization_agent.py:96-131 | line, pie and scatter fail if and only if x or y is missing, a histogram if and only if x is missing, each with its own message |
| EnemVisualization.HistogramCountsBinnedX | enem_ai_analyst/sub_agents/visualization_agent.py:129-139 | a histogram bins x into at most 20 bins, counts rows on y (titled `Count` unless a label is given) and uses the caller's title |
| EnemVisualization.Titles | enem_ai_analyst/sub_agents/visualization_agent.py:88-138 | a bar chart without a title is titled "y by x"; the other kinds keep the caller's title |
| EnemVisualization.BuildRequest | enem_ai_analyst/sub_agents/visualization_agent.py:60-144 | the chart each of the five types builds, or the message of the check that stops it |
| EnemVisualization.Finish | enem_ai_analyst/sub_agents/visualization_agent.py:146-164 | render, validate and print a built chart, or report the refusal |
| EnemVisualization.JsonOnlyWhenValid | enem_ai_analyst/sub_agents/visualization_agent.py:146-164 | chart JSON is returned if and only if the chart renders, the validator accepts it and it prints; it is then that chart printed; a rejected chart gives "Invalid chart specification: " and the validator's message |
| EnemVisualization.GenerateChart | enem_ai_analyst/sub_agents/visualization_agent.py:37-164 | empty data is refused first; unparsable text gives the invalid-JSON error; otherwise the outcome is the validated tail applied to the chart that the effective type and columns build |
| AnalystVisualization.GenerateChart | ai_data_analyst/sub_agents/visualization_agent.py:33-60 | every outcome is text: the no-specification error, the invalid-JSON error, the validator's message after "Invalid chart specification: ", or the parsed specification printed unmodified, and chart JSON exactly when the validator accepts |
| AnalystVisualization.AcceptedSpecIsReturnedUnmodified | ai_data_analyst/sub_agents/visualization_agent.py:39-53 | with a JSON library whose parser yields printable values, an accepted specification comes back as its own printed text |
| DraftVisualization.AsDict | enem-ai-analyst/sub_agents/visualization_agent.py:31-80 | every dictionary has status `success` for a chart and `error` otherwise |
| DraftVisualization.GenerateChart | enem-ai-analyst/sub_agents/visualization_agent.py:31-80 | empty data is refused; only bar and line are supported; both need x and y; an exception of the DataFrame constructor escapes; a chart is produced if and only if the data is truthy, the frame is built, the type is bar or line, both columns are given and the rendering succeeds, and it is then that rendering; a rendering failure is reported with the exception prefix |
| DraftVisualization.ResultDictionaries | enem-ai-analyst/sub_agents/visualization_agent.py:31-80 | every returned dictionary has status success or error; a success names `altair` and carries the spec; an error carries its message |
| Text.Strip | enem_ai_analyst/tools/postgres_mcp.py:117 | `str.strip` |
| Text.Upper | enem_ai_analyst/tools/postgres_mcp.py:117 | `str.upper`, one character for one character |
| Text.Lower | enem_ai_analyst/tools/postgres_mcp.py:150 | `str.lower` on ASCII letters |
| Text.Replace | enem-ai-analyst/frontend/streamlit_app.py:66-72 | `str.replace`, scanning from the left without overlaps |
| Text.Join | ai_data_analyst/tools/chart_helpers.py:233 | `sep.join(parts)` |
| Text.StripOfTrimmed | enem_ai_analyst/tools/postgres_mcp.py:117 | stripping removes exactly the surrounding whitespace |
| Text.ContainsLower | enem_ai_analyst/tools/postgres_mcp.py:150 | a marker that occurs in a text occurs, lower-cased, in the lower-cased text |
| Text.ReplaceAbsent | enem-ai-analyst/frontend/streamlit_app.py:66-72 | replacing a pattern that does not occur changes nothing |
| Text.ReplaceFirst | enem-ai-analyst/frontend/streamlit_app.py:66-72 | the first occurrence of the pattern is replaced and the scan continues after it |
| Text.ReplaceAround | enem-ai-analyst/frontend/streamlit_app.py:66-72 | a character that does not occur in the pattern splits the replacement into independent halves |
| Text.DecimalRoundTrip | ai_data_analyst/tools/chart_helpers.py:208-209 | the digits `str(n)` prints read back as n |
| Text.DecimalInjective | ai_data_analyst/tools/chart_helpers.py:208-209 | different counts print differently |
| JsonText.Escape | enem_ai_analyst/tools/postgres_mcp.py:118 | the characters `json.dumps` writes between the quotes of a string, escaping non-ASCII characters |
| JsonText.ErrorObject | enem_ai_analyst/tools/postgres_mcp.py:118 | `json.dumps({"error": message})` |
| JsonText.EscapeRoundTrip | enem_ai_analyst/tools/postgres_mcp.py:118 | the escaped text of a string decodes back to that string |
| JsonText.ErrorObjectRoundTrip | enem_ai_analyst/tools/postgres_mcp.py:118 | an error object reads back as its message, starts with the error-object head and contains "error" |
| PostgresMcp.IsSelectQuery | enem_ai_analyst/tools/postgres_mcp.py:117 | the guard: the stripped, upper-cased query starts with SELECT |
| PostgresMcp.SelectGuardIff | enem_ai_analyst/tools/postgres_mcp.py:117 | a query passes the guard if and only if, after some leading whitespace, it spells SELECT in some mix of letter cases, where the long s counts as S and the dotless i as I, as their Python upper cases do |
| PostgresMcp.LongSQueryAccepted | enem_ai_analyst/tools/postgres_mcp.py:117 | `ſelect 1`, with a long s, passes the guard |
| PostgresMcp.SelectAfterSpaceAccepted | enem_ai_analyst/tools/postgres_mcp.py:117 | whitespace followed by SELECT in any case is accepted |
| PostgresMcp.LowerCaseQueryAccepted | enem_ai_analyst/tools/postgres_mcp.py:117 | `  select * from t` passes the guard |
| PostgresMcp.ChainedStatementAccepted | enem_ai_analyst/tools/postgres_mcp.py:117 | `SELECT 1; DROP TABLE t` passes the guard, since only the prefix is checked |
| PostgresMcp.DeleteRejected | enem_ai_analyst/tools/postgres_mcp.py:117-118 | `DELETE FROM t` is rejected |
| PostgresMcp.FailureMessage | enem_ai_analyst/tools/postgres_mcp.py:147-153 | the message ends with the exception text, and it is a security error if and only if the lower-cased text contains "read-only transaction" |
| PostgresMcp.ReadOnlyInAnyCase | enem_ai_analyst/tools/postgres_mcp.py:150-152 | the marker is recognised in any letter case |
| PostgresMcp.ExecuteSql | enem_ai_analyst/tools/postgres_mcp.py:102-153 | a rejected query gives the security error object; an accepted one gives the records, or an error object whose message is the classified failure |
| PostgresMcp.RejectionIgnoresDatabase | enem_ai_analyst/tools/postgres_mcp.py:115-134 | a rejected query gives the same answer whatever the database, so it is decided before any connection |
| PostgresMcp.SchemaText | enem_ai_analyst/tools/postgres_mcp.py:92-99 | the schema text is an error object if and only if the table has no rows |
| PostgresMcp.TableSchemaText | enem_ai_analyst/tools/postgres_mcp.py:81-99 | the `+=` loop produces the header and then one line per row |
| PostgresMcp.ColumnLines | enem_ai_analyst/tools/postgres_mcp.py:95-97 | one line per row, in row order |
| PostgresMcp.ColumnLinesAppend | enem_ai_analyst/tools/postgres_mcp.py:96-97 | the lines of two runs of rows are the lines of the first followed by those of the second |
| PostgresMcp.ColumnLinesInRowOrder | enem_ai_analyst/tools/postgres_mcp.py:95-97 | each row's line comes after the earlier rows' lines and before the later rows' lines |
| PostgresMcp.GetTableSchema | enem_ai_analyst/tools/postgres_mcp.py:56-78 | without a connection, a failure gives the "Failed to get table schema" error object; the result is an error object if and only if the lookup fails or finds no rows |
| PostgresMcp.SchemasFailureSticks | enem_ai_analyst/tools/postgres_mcp.py:37-38 | once a table's lookup raises, later tables do not change the outcome |
| PostgresMcp.ListTablesAndSchemas | enem_ai_analyst/tools/postgres_mcp.py:7-49 | the loop produces the listing the specification function defines |
| PostgresMcp.Entry | enem_ai_analyst/tools/postgres_mcp.py:39-43 | the entry of one table: flagged when its schema text contains "error" |
| PostgresMcp.Schemas | enem_ai_analyst/tools/postgres_mcp.py:36-43 | the entries of the tables, in order, or the first lookup's failure |
| PostgresMcp.Listing | enem_ai_analyst/tools/postgres_mcp.py:27-49 | `list_tables_and_schemas` as a function of the database |
| PostgresMcp.EntryStart | enem_ai_analyst/tools/postgres_mcp.py:39-43 | every entry starts with `E` (a flagged table) or `*` (a schema) |
| PostgresMcp.SchemasStart | enem_ai_analyst/tools/postgres_mcp.py:36-43 | the concatenated entries start with `E` or `*` |
| PostgresMcp.StrippedListingStart | enem_ai_analyst/tools/postgres_mcp.py:45 | stripping such a text never makes it look like an error object |
| PostgresMcp.ListingErrorIff | enem_ai_analyst/tools/postgres_mcp.py:27-49 | the listing is an error object if and only if the table list could not be read, is empty, or a table's lookup raised |
| PostgresMcp.ColumnNameInLines | enem_ai_analyst/tools/postgres_mcp.py:95-97 | text in a column name appears in the column lines |
| PostgresMcp.ErrorInColumnNameMisreported | enem_ai_analyst/tools/postgres_mcp.py:39-41 | a table whose column name contains "error" has a correct schema, yet it is listed as an error for that table |
| PostgresMcp.ExampleSchemaText | enem_ai_analyst/tools/postgres_mcp.py:95-97 | the schema text of table `results` with column `error_code integer` |
| PostgresMcp.MisreportedExample | enem_ai_analyst/tools/postgres_mcp.py:39-41 | table `results` with column `error_code` is listed as "Error for table results: ..." |
| PostgresMcp.CorrectedEntryFlagsOnlyMissingTables | enem_ai_analyst/tools/postgres_mcp.py:39-43 | with the corrected test, a table is flagged if and only if it has no columns, whatever its names contain |
| DraftPostgresMcp.ExecuteSql | enem-ai-analyst/tools/postgres_mcp.py:21-39 | a rejected query gives the security error; an accepted one gives the records or "Database query failed: " and the exception text |
| DraftPostgresMcp.AgreesWithLaterTool | enem-ai-analyst/tools/postgres_mcp.py:38-39 | the earlier and the later tool answer alike unless an accepted query fails with a text mentioning a read-only transaction |
| SqlHighlight.HighlightAll | enem-ai-analyst/frontend/streamlit_app.py:66-72 | the seven `replace` calls, in order |
| SqlHighlight.FormatSql | enem-ai-analyst/frontend/streamlit_app.py:62-75 | the output starts with the `<pre style=...>` opening and ends with `</pre>` |
| SqlHighlight.HighlightsEveryKeyword | enem-ai-analyst/frontend/streamlit_app.py:62-75 | for queries whose text outside the keywords has no upper-case letter: a query made of keyword phrases joined by characters that are neither upper-case letters nor spaces comes out inside the `<pre>` block with every keyword wrapped in its span and every other character unchanged |
| SqlHighlight.OtherKeywordAbsent | enem-ai-analyst/frontend/streamlit_app.py:66-72 | no keyword occurs inside another, so a keyword's replacement never splits a later keyword |
| SqlHighlight.OccurrenceInside | enem-ai-analyst/frontend/streamlit_app.py:66-72 | a keyword found in a text whose surroundings hold no upper-case letter lies inside the middle part |
| SqlHighlight.KeywordsAreLong | enem-ai-analyst/frontend/streamlit_app.py:66-72 | every keyword has at least four letters |
| SqlHighlight.KeywordsAreUpperCase | enem-ai-analyst/frontend/streamlit_app.py:66-72 | the seven keywords are upper-case letters and spaces, each beginning with a letter |
| SqlHighlight.HighlightAbsent | enem-ai-analyst/frontend/streamlit_app.py:66-72 | text without any of the keywords passes every replacement unchanged |
| SqlHighlight.QueryWithoutKeywordsUnchanged | enem-ai-analyst/frontend/streamlit_app.py:66-75 | a query containing none of the keywords is returned unchanged inside the wrapper |
| SqlHighlight.LowerCaseQueryUnchanged | enem-ai-analyst/frontend/streamlit_app.py:66-75 | a query without upper-case letters is returned unchanged, since matching is case-sensitive |
| SqlHighlight.SelectedIsPartlyWrapped | enem-ai-analyst/frontend/streamlit_app.py:66 | in `SELECTED` the first six letters are wrapped and `ED` is left outside the span |
| SqlHighlight.SpanUnchangedBy | enem-ai-analyst/frontend/streamlit_app.py:66-72 | a later keyword's replacement leaves an inserted span intact |
| SqlHighlight.SpanStays | enem-ai-analyst/frontend/streamlit_app.py:66-72 | an inserted span survives all the later replacements |
| SqlHighlight.MarkupSurvives | enem-ai-analyst/frontend/streamlit_app.py:66-72 | replacing a keyword in text that holds a span replaces only the text around it and never rewrites the span markup |
| SqlHighlight.TagsSurvive | enem-ai-analyst/frontend/streamlit_app.py:66-72 | a pattern without angle brackets that does not occur in two tags leaves both tags intact |
| SqlHighlight.TagSurvives | enem-ai-analyst/frontend/streamlit_app.py:66-72 | such a pattern leaves a single tag intact and replaces on both sides of it independently |

## Left out

- Database I/O is left out. The environment lookups, SQLAlchemy and psycopg2
  connections, `pd.read_sql_query`, `to_json` and engine disposal are the
  `PostgresMcp.Database` oracle. The debug `print` calls are left out.
- pandas is left out: dtype inference, `DataFrame` construction, `nunique`,
  `value_counts`, `isna` and `select_dtypes` are modelled on explicit column
  cells and dtypes.
- Float statistics are left out. Mean, median, quantiles, Pearson r and the
  `:.1f`/`:.2f` formatting are the opaque `ChartAnalysis.Statistics` record
  and a formatting function. pandas ignores NaN when it takes min and max;
  the model treats NaN as a missing cell.
- `json.loads`, `json.dumps` of whole specifications, and Altair's `to_dict`
  are oracles (`PyValue.Codec`, `AltairCharts.Toolkit`). Only
  `json.dumps({"error": m})` is concrete.
- Logging is left out, including the warning for a missing `$schema`.
- Text.Upper: maps each character to one character. Beyond the ASCII letters
  it maps the long s to S, the dotless i to I and t with diaeresis to T, since
  their Python upper cases are or begin with those letters. Python expands
  `ß` and the ligatures to two or three letters and appends a combining mark
  to some letters. None of those can continue the letters of SELECT, so the
  guard's verdict is the same.
- Text.Lower: ASCII letters only. Python also lower-cases letters outside
  ASCII. The capital I with dot becomes `i` followed by a combining dot, and
  the Kelvin sign becomes `k`. Neither can complete "read-only
  transaction" or equal "table", so the marker test and the chart-type default
  give the same verdicts.
- ChartAnalysis.ColumnReport: cells are hashable values. A cell holding a list
  or a dict makes pandas' `nunique` and `value_counts` raise TypeError
  (lines 114 and 139), and the model does not raise there. For a column of
  category dtype, `value_counts` also lists the categories that never occur,
  with count 0. The model counts only the cells present, so it can list fewer
  categories, and it lets a column with more than ten declared categories
  through.
- ChartPreparation.ClassifyColumns: the same hashable-cell assumption holds
  for `nunique` at line 46. A column of lists or dicts raises in Python.
- EnemVisualization.BarColumns: column labels are strings. pandas also allows
  integer labels, and the label 0 is falsy, so `not x_column` at lines 62, 68
  and 84 treats a chosen column 0 as missing. The model does not have that
  case.
- ChartAnalysis.ColumnReport: the `categories` table is modelled as a map from
  cell to count. The order of `value_counts` and the `str(k)` rendering of its
  keys are not modelled.
- SqlHighlight.HighlightsEveryKeyword: covers queries whose text outside the
  keywords holds no upper-case letter. Upper-case text around a keyword, such
  as the identifier `SELECTED`, is covered only by `SelectedIsPartlyWrapped`
  and by the span-survival lemmas. There the replacement wraps keywords inside
  longer words, as `str.replace` does.
- ChartAnalysis.Majority: among equal top counts pandas picks one of them,
  while the model picks the value that fills more than half the rows. Only
  one value can do so, so the insight appears in the same cases.
- ChartAnalysis.CorrelationMapLastWrite: a key `a-b` is written once per pair.
  When column names contain dashes two pairs can share a key, and the model
  keeps the last write, as Python does. Which pairs collide is not
  enumerated.
- EnemVisualization.GenerateChart: the DataFrame constructor runs before the
  `try` (line 56), so its exception escapes the tool. The model returns
  `Raised`. The `else` branch at line 158 ("Chart object was None") cannot be
  reached, because every branch that gets there has built a chart. The model
  has no such branch. Exceptions raised inside the Altair calls come from the
  rendering oracle.
- The `legend_labels`, `options`, `question` and `toolContext` parameters are
  accepted but never read by any of the three tools, so the model omits them.
- AnalystVisualization.GenerateChart: requires that a truthy specification is
  a string, a list or a dict. The type annotation says `str`. The exception
  branch is reached through the oracles only: a parse result that cannot be
  printed.
- DraftVisualization.GenerateChart: a `y_column` given as a list of column
  names is not modelled; y is a single name. The draft's "Chart could not be
  generated" branch cannot be reached and is not modelled.
- The ENEM tool imports `enem_ai_analyst.tools.chart_validation`, which is not
  part of this model. The model uses the validator of
  `ai_data_analyst/tools/chart_validation.py`.
- The rest of the frontend (`criar_grafico`, `fig_para_base64`, the page
  setup and the chat loop), the agent definitions and prompts, the
  configuration store and the tests are not part of this model.

## Findings

| source | as written | input that shows it | evidently intended | confidence | as-written member | corrected member |
|---|---|---|---|---|---|---|
| ai_data_analyst/tools/chart_helpers.py:219-223 | the range sentence is written when the keys `min`, `max` and `mean` are present, and it formats them with `:.2f`; lines 119-121 store None under those keys for a numeric column without values | a frame whose numeric y column holds only NaN: `analyze_chart_data` succeeds, then `format_chart_description` raises TypeError on `f"{None:.2f}"` | write the range sentence only when all three statistics are numbers | not executed | ChartDescription.NumericColumnWithoutValuesBreaksDescription | ChartDescription.CorrectedDescription |
| enem_ai_analyst/tools/postgres_mcp.py:39-41 | a table's schema text is reported as an error whenever it contains the substring "error" | table `results` with the column `error_code integer`: its schema is read correctly, yet it is listed as "Error for table results: ..." | flag only the error object that lines 92-93 produce for a table without columns | not executed | PostgresMcp.MisreportedExample | PostgresMcp.CorrectedEntryFlagsOnlyMissingTables |
