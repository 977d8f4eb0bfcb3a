# Data-quality test engine: a Dafny model

This project models the test-execution core of the `dq_management` Django app, a data-quality tool that compares aggregates between a source and a destination database or Power BI dataset. The modelled parts are:

- **Query builders** (`dq_core.py`). The SELECT-only guard of the SQL executor. The SQL aggregation builder: location check, aggregation kind, date filter, WHERE and GROUP BY clauses, and the text layout. The DAX builder: custom-query short-cut, quoting, COUNTROWS fallback, and the four templates with their `.strip()`.
- **Comparator and processor** (`test_case_manager.py`).
  - The ABSOLUTE/PERCENTAGE comparator, including its None, zero-source, non-numeric and unexpected-exception paths.
  - The user-to-database connection mapping.
  - The aggregation, drift and availability variants.
  - The `process_test_request` dispatcher.
- **Validator** (`services.py`). The form extractor and validator, with per-type overrides, side checks and the `strptime('%Y-%m-%d')` date rule. A Power BI type raises KeyError.
- **Runs** (`services.py`).
  - The ad-hoc run with its HTTP status codes.
  - The group run: PENDING registry entry, `execution_order` sort, status fold, failed-test count, COMPLETED record.
- **Views** (`views.py`).
  - The dashboard's latest-log-per-group reduction, counting and overall project status.
  - The chart API's criticality buckets.
  - Group-form validation and the edit dispatcher.

| Dafny module | file | models |
|---|---|---|
| `Text` | text.dfy | the Python `str` methods the code relies on: `strip` (Unicode whitespace set), ASCII `upper`/`lower`/`title`, `split(',')`, `join`, `replace(' ', '')` |
| `Values` | values.dfy | query cell values, frames, executor answers, `Result`/`Option`, statuses |
| `Queries` | queries.dfy | `execute_query_to_dataframe`, `build_dynamic_aggregation_query`, `build_dynamic_dax_query_powerbi` |
| `Comparator` | comparator.dfy | `_perform_comparison` |
| `Config` | config.dfy | the validated configuration dictionary |
| `Processor` | processor.dfy | `TestCaseProcessor`: connection mapping, the three test variants, dispatch |
| `Validation` | validation.dfy | `_extract_and_validate_form_data` |
| `AdhocRun` | adhoc_run.dfy | `run_adhoc_test_logic` |
| `GroupRun` | group_run.dfy | `GROUP_RUN_STATUS`, `start_group_run_task`, `get_group_run_status`, `_execute_group_in_background` |
| `Dashboard` | dashboard.dfy | `dashboard`, `dashboard_summary_api` |
| `Views` | views.dfy | the create-group form checks and `edit_test_case_dispatcher` |

External effects are parameters of the model:

- **Database and Power BI executors.** Pure functions from connection and query (or workspace, dataset and query) to rows or a raised error.
- **`settings.DATABASES`.** A map.
- **Yesterday's date.** A string.
- **`float()` and `int()` parsing and number rendering.** Functions on strings.
- **Per-test execution in a group run.** A function from test-case id to outcome.
- **The processor used by an ad-hoc run.** A function from configuration to result. `AdhocRun.SuccessfulRunHasSourceValue` instantiates it with `Processor.Process`.

Numbers are exact reals.

Behaviour of the code worth noting:

- A group run does not stop at the first failing test. A test whose run raises becomes an ERROR result, and the loop continues with the next test (`services.py:802-807`).
- A group that is not found leaves the run entry in ERROR with `current_test_name` set to "Group not found.". The `finally` block then reads `group_meta['name']` from `None` and raises, so the entry never reaches COMPLETED.
- The drift test's PERCENTAGE threshold type and the availability test's threshold of 0 ABSOLUTE are imposed by the validator, not by the processor.
- The validator accepts a column-less `COUNT`, but the SQL builder rejects it. `Validation.CountWithoutColumnSlipsThrough` proves this for every such side: for drift and availability tests, which skip the date check, and for aggregation comparisons whose date value passes that check.
- The validator's branch "'... Custom SQL Query' cannot be empty if provided." can never be taken: custom SQL is stripped on extraction, so the branch before it already covers every case. The model has no such error.
- The validator reads `powerbi_group_id` from the configuration dictionary, which never holds that key. Every Power BI test type therefore raises KeyError instead of returning errors.

## Model

| member | source | states |
|---|---|---|
| Text.Strip | Eagle_dq_project/dq_management/dq_core.py:57 | the result neither starts nor ends with whitespace, is no longer than the input, and is empty exactly when the input is all whitespace |
| Text.StripInfix | Eagle_dq_project/dq_management/dq_core.py:57 | the stripped text is a contiguous part of the input with only whitespace before and after it |
| Text.SplitJoin | Eagle_dq_project/dq_management/dq_core.py:77 | splitting on a separator and joining the pieces with it gives back the original text |
| Queries.ExecuteSql | Eagle_dq_project/dq_management/dq_core.py:19-39 | a query whose upper-cased, stripped text does not start with SELECT is refused with the fixed message and never reaches the backend; otherwise the backend's rows come back, or a non-empty error text |
| Queries.ClassifyDate | Eagle_dq_project/dq_management/dq_core.py:67-73 | an empty date adds no filter; `CURRENT_DATE()` up to whitespace and case means today; any other text is spliced in as a literal |
| Queries.GroupColumns | Eagle_dq_project/dq_management/dq_core.py:76-78 | the group-by columns are the comma-separated pieces, stripped, with blank pieces dropped: each column is the stripped text of a non-blank piece and each non-blank piece gives a column; the list is empty exactly when every piece is blank |
| Queries.StrippedPiecesSnoc | Eagle_dq_project/dq_management/dq_core.py:77 | the pieces are taken in order: one more piece appends its stripped text when it is not blank and nothing otherwise |
| Queries.StrippedPiecesMembers | Eagle_dq_project/dq_management/dq_core.py:77 | a text is a column exactly when it is the stripped text of some non-blank piece |
| Queries.SqlWhere | Eagle_dq_project/dq_management/dq_core.py:81-89 | the WHERE clause is absent exactly when there is no date predicate and no filter; it starts with the date predicate, and the parenthesised filter comes last |
| Queries.SqlGroupBy | Eagle_dq_project/dq_management/dq_core.py:78-79 | the GROUP BY clause is absent exactly when no column survives; otherwise it is `GROUP BY ` and the columns joined with `, `, and it names every column |
| Queries.BuildSql | Eagle_dq_project/dq_management/dq_core.py:42-98 | the builder succeeds exactly when the configuration has a database location and the aggregation kind is accepted (COUNT(*) alone, or COUNT/SUM/AVG/MIN/MAX with a column), and each refusal has its own error; the query starts with SELECT and the aggregate, holds the FROM clause and the raw group-by text, and ends with the GROUP BY clause and a semicolon |
| Queries.SqlAssembly | Eagle_dq_project/dq_management/dq_core.py:91-96 | the assembled text starts with the select item, contains the FROM/WHERE part and the raw group-by text, and ends with the GROUP BY clause and `;` |
| Queries.BuiltSqlIsSelectShaped | Eagle_dq_project/dq_management/dq_core.py:25 | every query the SQL builder produces passes the executor's SELECT-only guard |
| Queries.DaxAggregate | Eagle_dq_project/dq_management/dq_core.py:142-147 | SUM/AVG/MIN/MAX with a column aggregate that column; every other kind, COUNT included, falls back to COUNTROWS of the table |
| Queries.BuildDax | Eagle_dq_project/dq_management/dq_core.py:100-185 | non-blank custom DAX is returned stripped; otherwise the query starts with EVALUATE, uses SUMMARIZECOLUMNS exactly when a group-by column survives, and otherwise ends with the one-row `ROW("Value", __value)` |
| Queries.BuildDaxContents | Eagle_dq_project/dq_management/dq_core.py:112-185 | without custom DAX the query contains the aggregate expression, every group column in double quotes, the date filter when there is one and the raw filter text when there is one |
| Queries.DaxShape | Eagle_dq_project/dq_management/dq_core.py:150-184 | every template body ends with a closing parenthesis; it opens with SUMMARIZECOLUMNS exactly when there are group columns, and otherwise ends with the ROW expression |
| Queries.StripTemplate | Eagle_dq_project/dq_management/dq_core.py:153-185 | `.strip()` removes exactly the templates' padding, leaving the query text |
| Comparator.ToFloat | Eagle_dq_project/dq_management/test_case_manager.py:33-34 | numbers convert; text converts exactly when `float()` accepts it and otherwise raises ValueError; None and other objects raise something else |
| Comparator.Read | Eagle_dq_project/dq_management/test_case_manager.py:32-34 | both values are read as numbers exactly when both convert; a source ValueError takes precedence over the destination's |
| Comparator.CompareNumbers | Eagle_dq_project/dq_management/test_case_manager.py:35-65 | a PASS exactly when the difference is tolerated; an unknown threshold type is an ERROR; reports the absolute difference or the percentage of the source, infinite when the source is 0 and the destination is not |
| Comparator.CompareAbsolute | Eagle_dq_project/dq_management/test_case_manager.py:38-41 | a PASS exactly when the absolute difference is within the threshold |
| Comparator.ComparePercentage | Eagle_dq_project/dq_management/test_case_manager.py:42-52 | with a zero source, a PASS exactly when the destination is 0 too; otherwise a PASS exactly when the difference is within the threshold's share of the source |
| Comparator.Compare | Eagle_dq_project/dq_management/test_case_manager.py:22-82 | a None value is a FAIL with no difference; numbers are compared numerically; values that are not numbers PASS exactly when their stripped texts are equal; an unexpected exception is an ERROR; status and outcome always agree |
| Comparator.ThresholdMonotone | Eagle_dq_project/dq_management/test_case_manager.py:38-52 | raising the threshold never turns a PASS into anything else |
| Comparator.EqualNumbersPass | Eagle_dq_project/dq_management/test_case_manager.py:35-52 | equal numbers PASS under either threshold type for any non-negative threshold |
| Comparator.AbsoluteSymmetric | Eagle_dq_project/dq_management/test_case_manager.py:35-41 | the ABSOLUTE verdict does not depend on which side is the source |
| Comparator.PercentWithin | Eagle_dq_project/dq_management/test_case_manager.py:49-51 | the percentage test is the same as comparing the difference with the threshold's share of the source |
| Processor.MapUserConnection | Eagle_dq_project/dq_management/test_case_manager.py:84-92 | PROD and DEV map to their database keys, anything else (Power BI included) is kept, and the result is never PROD or DEV |
| Processor.MapUserConnectionIdempotent | Eagle_dq_project/dq_management/test_case_manager.py:84-92 | mapping twice is the same as mapping once |
| Processor.BuilderConfig | Eagle_dq_project/dq_management/test_case_manager.py:151 | the schema falls back to PUBLIC; the builder finds a location exactly when the settings give a database or a name |
| Processor.SqlQuery | Eagle_dq_project/dq_management/test_case_manager.py:148-156 | a connection missing from the settings raises KeyError with the quoted key; otherwise the builder's query is used, or its error text, and the query always passes the SELECT-only guard |
| Processor.AggregationSide | Eagle_dq_project/dq_management/test_case_manager.py:131-212 | a Power BI side runs the DAX builder's query and any other side the SQL builder's through the mapped connection; the value is the first cell of the returned rows; a DAX exception's text, or "<role> query failed: " and the SQL executor's message, is recorded with an empty value instead of propagating; a query-building error propagates |
| Processor.AggregationTest | Eagle_dq_project/dq_management/test_case_manager.py:120-226 | the result exists exactly when both sides built their queries, and the source's error comes first; values, queries and connections are the sides'; a missing value gives an ERROR whose message is the "Source error: " report with its trailing whitespace removed: it holds the source error before the destination label, only whitespace of the report follows it, and it neither starts nor ends with whitespace; otherwise status and difference are the comparator's on the two values |
| Processor.ErrorReportStripped | Eagle_dq_project/dq_management/test_case_manager.py:219-224 | stripping the combined error report removes only trailing whitespace, so the message still holds "Source error: ", the source error and the destination label, in that order |
| Processor.ErrorReportTrimmed | Eagle_dq_project/dq_management/test_case_manager.py:219-224 | the stripped error report is never empty and neither starts nor ends with whitespace |
| Processor.DriftTest | Eagle_dq_project/dq_management/test_case_manager.py:229-280 | today's and yesterday's aggregates of the source side are read through one connection, with the DAX builder for Power BI and the SQL builder otherwise; today's read comes first and its failure is reported; on Power BI the result exists exactly when both DAX reads return rows and an exception propagates unchanged; a failed SQL execution gives "Today's query failed: " or "Yesterday's query failed: " with the executor's message; the compared values are the first cells of the two results |
| Processor.DriftOverDax | Eagle_dq_project/dq_management/test_case_manager.py:234-258 | the Power BI drift runs the builder's DAX for today and for yesterday; it succeeds exactly when both return rows, today's exception is reported before yesterday's, and the compared values are the first cells |
| Processor.DriftOverSql | Eagle_dq_project/dq_management/test_case_manager.py:259-278 | the relational drift builds and runs the SQL for today and for yesterday over the mapped connection; a build error propagates, an executor failure is reported as today's or yesterday's query failure with its message, and the compared values are the first cells |
| Processor.SqlDrift | Eagle_dq_project/dq_management/test_case_manager.py:259-278 | for any pair of query arguments: a build error propagates, today's query runs before yesterday's, a failed execution becomes "Today's query failed: " or "Yesterday's query failed: " with its message, and two fetched results give the first cells compared |
| Processor.Compared | Eagle_dq_project/dq_management/test_case_manager.py:269-278 | a drift result carries today's value as source and yesterday's as destination, one connection for both, and the comparator's status, message and difference |
| Processor.Positive | Eagle_dq_project/dq_management/test_case_manager.py:346-358 | `value > 0` holds exactly for positive numbers and raises TypeError for non-empty text and other objects |
| Processor.AvailabilityProbe | Eagle_dq_project/dq_management/test_case_manager.py:285-340 | one availability count: today's COUNT through the DAX or SQL builder; on Power BI it succeeds exactly when the DAX executor returns rows; the query it reports is the builder's, and a successful probe carries no error |
| Processor.Probe | Eagle_dq_project/dq_management/test_case_manager.py:289-340 | a Power BI exception propagates unchanged, a build error propagates, a relational executor failure becomes "Availability query failed: " with its message, and fetched rows give their first cell as the count together with the query and connection used |
| Processor.AvailabilityTest | Eagle_dq_project/dq_management/test_case_manager.py:283-364 | the source and destination counts are the probes' values, queries and connections; the first failing probe's error is the result's; the result exists exactly when the probes needed succeed and the comparisons evaluated do not raise; PASS exactly when the source count is positive and, when a destination is configured, its count is positive too; without a destination its fields stay N/A |
| Processor.Unhandled | Eagle_dq_project/dq_management/test_case_manager.py:98-116 | a failed dispatch keeps the ERROR defaults and reports the exception text after the fixed prefix |
| Processor.Process | Eagle_dq_project/dq_management/test_case_manager.py:94-117 | never raises; status and outcome agree; the threshold fields are the configuration's; an unknown type reports the normalised type name; a PASS always rests on a present source value |
| Validation.GetStripped | Eagle_dq_project/dq_management/services.py:47 | an absent field reads as empty, a present one is stripped |
| Validation.HistoricalPeriods | Eagle_dq_project/dq_management/services.py:67 | absent or empty means 1; otherwise `int()` decides, and a rejected text raises ValueError |
| Validation.Threshold | Eagle_dq_project/dq_management/services.py:74 | absent or empty means 0; otherwise `float()` decides, and a rejected text raises ValueError |
| Validation.Extract | Eagle_dq_project/dq_management/services.py:44-77 | extraction fails exactly when one of the two conversions raises, and the integer is converted first; the sides, threshold and test type are read from the form |
| Validation.IsoDateAccepted | Eagle_dq_project/dq_management/services.py:120-122 | every real calendar date written as `YYYY-MM-DD` passes the date check |
| Validation.DateErrors | Eagle_dq_project/dq_management/services.py:117-122 | no error exactly when the check is skipped or the value is `CURRENT_DATE()` in any case or a valid `%Y-%m-%d` date; a missing value and a malformed one are each their own error |
| Validation.AggregationErrors | Eagle_dq_project/dq_management/services.py:123-128 | no error exactly when the stripped, upper-cased kind is one of the six and, unless it is a count, the column is not blank; a missing kind, a kind outside the six, and a non-count kind without a column are each their own error |
| Validation.ConnectionErrors | Eagle_dq_project/dq_management/services.py:133-135 | an error exactly when a connection is given and it is not one of the five allowed names |
| Validation.SideErrors | Eagle_dq_project/dq_management/services.py:110-135 | no error exactly when the side is valid; custom SQL leaves only the connection check |
| Validation.BaseErrors | Eagle_dq_project/dq_management/services.py:81-82 | no error exactly when a test name and a project id are present |
| Validation.ClassOf | Eagle_dq_project/dq_management/services.py:85-106 | each normalised type selects exactly one branch: aggregation, Power BI, drift, availability or unknown |
| Validation.Check | Eagle_dq_project/dq_management/services.py:79-107 | Power BI types raise KeyError; the type is normalised and the sides are kept; drift forces PERCENTAGE and availability forces 0 ABSOLUTE, while an aggregation comparison keeps its threshold; an unknown type gets the name and project errors plus its own; no error exactly when the configuration is acceptable |
| Validation.CheckAggregation | Eagle_dq_project/dq_management/services.py:85-87 | an aggregation comparison needs a threshold type and two valid sides, both with dates checked |
| Validation.CheckDrift | Eagle_dq_project/dq_management/services.py:93-97 | a drift test needs a non-negative threshold and a valid source, with the date check skipped |
| Validation.CheckAvailability | Eagle_dq_project/dq_management/services.py:98-100 | an availability test needs a valid source, with the date check skipped |
| Validation.Validate | Eagle_dq_project/dq_management/services.py:42-136 | it raises exactly when a conversion fails or the type is a Power BI type; the sides come from the form; no error exactly when the validated configuration is acceptable |
| Validation.ValidSideBuilds | Eagle_dq_project/dq_management/services.py:123-128 | every side the validator accepts without custom SQL, except a column-less COUNT, has a kind the SQL builder accepts |
| Validation.CountWithoutColumnSlipsThrough | Eagle_dq_project/dq_management/services.py:113-127 | every side with a column-less COUNT, a table and a date column passes validation while the SQL builder rejects its kind, with the date check skipped (drift, availability) or applied to an accepted date (aggregation comparison) |
| AdhocRun.Respond | Eagle_dq_project/dq_management/services.py:665-683 | an exception's text follows "Exception: "; validation errors are joined with "; " after "Validation error: " and listed in the details; otherwise the processor's result is the answer, with code 200 exactly on PASS |
| AdhocRun.RunAdhoc | Eagle_dq_project/dq_management/services.py:635-705 | only a missing test case is a 404; 200 exactly when the run passed, 500 otherwise; a processed run always rests on a configuration the validator accepted |
| AdhocRun.SuccessfulRunHasSourceValue | Eagle_dq_project/dq_management/services.py:670-673 | with the real processor, a 200 answer carries a present source value and a PASS outcome |
| GroupRun.StartRun | Eagle_dq_project/dq_management/services.py:748-758 | the new run is PENDING with nothing counted, and every other run is unchanged |
| GroupRun.GetStatus | Eagle_dq_project/dq_management/services.py:760-761 | a known run id returns its entry; an unknown one returns NOT_FOUND with its message |
| GroupRun.SortByOrder | Eagle_dq_project/dq_management/services.py:795 | the tests come out ordered by execution order, as a permutation of the input |
| GroupRun.SortIsStable | Eagle_dq_project/dq_management/services.py:795 | tests with the same execution order keep their original relative order |
| GroupRun.Combine | Eagle_dq_project/dq_management/services.py:810-815 | the status after a test is the worse of the two, in the order PASS < FAIL < ERROR |
| GroupRun.CombineAllIsWorst | Eagle_dq_project/dq_management/services.py:810-815 | the folded group status is the worst status among the results |
| GroupRun.OutcomeOf | Eagle_dq_project/dq_management/services.py:802-807 | a test that raises becomes an ERROR result, and the loop goes on |
| GroupRun.RunInOrder | Eagle_dq_project/dq_management/services.py:795-815 | one result per test in the given order, each the test's outcome or an ERROR for a test that raised; the folded status is the worst result and the count is the number of FAILs; the entry seen while test k runs shows position k + 1 and that test's name |
| GroupRun.ExecuteGroup | Eagle_dq_project/dq_management/services.py:763-855 | a missing group leaves the entry in ERROR; otherwise every test runs in execution order, the progress snapshots count 1..n with the current test's name, and the entry ends COMPLETED with all results, the worst status and the number of FAILs |
| Dashboard.LatestByGroupSpec | Eagle_dq_project/dq_management/views.py:683-690 | rows without a group are ignored; each group keeps one row, the first with the newest timestamp, where a timestamp beats a missing one |
| Dashboard.CountGroups | Eagle_dq_project/dq_management/views.py:692-702 | the passed count is the number of PASS rows and the failed count the number of FAIL or ERROR rows, each equal to an independent front-to-back count (`Dashboard.CountGroupsTallied`); passed plus failed is the total |
| Dashboard.TalliedSnoc | Eagle_dq_project/dq_management/views.py:692-702 | one more row raises a count by one exactly when the row is selected |
| Dashboard.CountGroupsTallied | Eagle_dq_project/dq_management/views.py:692-702 | the passed and failed counts are the numbers of PASS and of FAIL or ERROR rows |
| Dashboard.NoFailedCount | Eagle_dq_project/dq_management/views.py:692-702 | nothing is counted as failed exactly when no kept row failed or errored |
| Dashboard.SomePassedCount | Eagle_dq_project/dq_management/views.py:692-702 | something is counted as passed exactly when some kept row passed |
| Dashboard.Overall | Eagle_dq_project/dq_management/views.py:705-710 | NORUN exactly when nothing was counted, FAILED exactly when something failed, PASSED exactly when something passed and nothing failed |
| Dashboard.RowsOf | Eagle_dq_project/dq_management/views.py:674-676 | a row is filed under a project exactly when it carries that project's id |
| Dashboard.RowsOfAppend | Eagle_dq_project/dq_management/views.py:674-676 | filing keeps the rows' order: the rows of a concatenation are the first part's followed by the second's |
| Dashboard.SummarizeProject | Eagle_dq_project/dq_management/views.py:680-710 | the card's passed and failed counts are the numbers of PASS and of FAIL or ERROR rows among the latest row of each of the project's groups; the project is FAILED exactly when one of those rows failed or errored, PASSED exactly when one passed and none failed or errored, and NORUN exactly when none counted |
| Dashboard.Dashboard | Eagle_dq_project/dq_management/views.py:670-724 | at most the first 50 projects get a card, in order, and card i is the summary of project i over all rows |
| Dashboard.BucketOf | Eagle_dq_project/dq_management/views.py:757-759 | Critical, High and Medium go to their own buckets, exactly those criticalities do, and a missing, empty or unknown criticality is bucketed as Low |
| Dashboard.Buckets | Eagle_dq_project/dq_management/views.py:755-766 | the failed and passed buckets sum to the dashboard's failed and passed counts of the same rows |
| Dashboard.BucketsTallied | Eagle_dq_project/dq_management/views.py:755-766 | each failed bucket counts the FAIL or ERROR rows of its criticality and each passed bucket the PASS rows |
| Dashboard.ChartSummary | Eagle_dq_project/dq_management/views.py:738-772 | each bucket holds the number of latest rows of that criticality that failed, or that passed; each of the two totals is the sum of its buckets; the failed total is the dashboard's failed count, and the two totals together equal the dashboard's total count, over the latest row of each group |
| Views.GroupFormErrors | Eagle_dq_project/dq_management/views.py:478-491 | a missing group name raises KeyError; otherwise there is exactly one error per broken rule (blank name, blank or missing creator, empty selection) and none when all hold |
| Views.FormFor | Eagle_dq_project/dq_management/views.py:322-332 | each of the three editable types has its own form, and no other type has one |
| Views.EditDispatch | Eagle_dq_project/dq_management/views.py:317-332 | a missing case goes back with "Test case not found."; the stripped, title-cased type picks its form, with the case id in the query string; any other type goes back with "Unknown test type. Cannot edit." |
| Views.AcceptedCaseIsEditable | Eagle_dq_project/dq_management/views.py:317-332 | every stored case the validator accepts opens the form of its validated type |

## Left out

- Django rendering, messages, redirects' URL reversal, the ORM queries and writes, and logging. They carry no logic of the core. The stored-case lookup is an `Option` parameter. The defaults `get_test_case_details_from_db` fills in when loading a case (`services.py:185-221`) are not part of this model.
- Threads and the shared `GROUP_RUN_STATUS` dictionary's concurrency. The model runs one group run to completion and exposes the snapshots a reader could observe between tests.
- The group run's "critical error" path (`services.py:817-819`): the ORM calls that could raise there are outside the model.
- The `Failed Test Cases` detail of the group log, the start and end times, and the `TestGroup` statistics update. These are writes with no effect on the run's result.
- Floating point. Numbers are exact reals. The comparator's infinity is a separate `Infinite` difference. NaN is not modelled.
- Message number formatting (`:.4f`, `:.2f`). Rendering is a parameter, so comparison messages are fixed only up to that rendering.
- Non-ASCII case mapping and non-ASCII digits. `upper`, `lower` and `title` act on ASCII letters only.
- Python `None` in text fields. Absent or `None` form fields read as the empty string wherever only truthiness matters.
- A NULL stored text field where the code calls `.strip()` on it: `services.py:124-125` (aggregation type and column) and `views.py:322` (test type) raise AttributeError there. The model reads such fields as the empty string, so it has no such exception.
- The legacy helpers of `test_case_manager.py:366-446`. They are not called by the dispatcher.
- The JSON converters `_to_json_safe` and their numpy/Decimal cases, and the parsing of the group form's JSON selection. The model receives the already-parsed list.
- The Power BI REST transport. The DAX executor is a parameter.
- The chart API's exception path (`views.py:773-775`). Its only exceptions come from the ORM query.
- Processor.Process: its contract does not restate which variant each test type dispatches to. It states the properties every result has, and the unknown-type result.
- Queries.BuildSql: states how the query starts and ends and which clauses it contains, not its exact character layout.
