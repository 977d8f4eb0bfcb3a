/** `TestCaseProcessor` of `test_case_manager.py`: the three test variants
    (aggregation comparison, drift, availability) over abstract backends,
    and `process_test_request`, which dispatches on the test type and turns
    every exception into an ERROR result. A Python exception inside a
    variant is an `Err` carrying its `str()`. */
module Processor {
  import opened Text
  import opened Values
  import opened Queries
  import opened Comparator
  import opened Config

  const PowerBi := "Power BI"

  /** `_map_user_connection`: the two short names become Django database
      keys; every other name, Power BI included, is kept. */
  function MapUserConnection(name: string): (r: string)
    ensures name == "PROD" ==> r == "snowflake_prod"
    ensures name == "DEV" ==> r == "snowflake_dev"
    ensures name != "PROD" && name != "DEV" ==> r == name
    ensures r != "PROD" && r != "DEV"
  {
    if name == PowerBi then PowerBi
    else if name == "PROD" then "snowflake_prod"
    else if name == "DEV" then "snowflake_dev"
    else name
  }

  /** Mapping a connection name twice is mapping it once. */
  lemma MapUserConnectionIdempotent(name: string)
    ensures MapUserConnection(MapUserConnection(name)) == MapUserConnection(name)
  {
    var once := MapUserConnection(name);
    assert once != "PROD" && once != "DEV";
  }

  /** An entry of `settings.DATABASES`; empty strings for missing keys. */
  datatype DbSettings = DbSettings(db: string, name: string, schema: string)

  /** Everything outside the processor: the database settings, the two
      executors, and yesterday's date as `YYYY-MM-DD` (the processor reads
      the clock for it). */
  datatype Backends = Backends(databases: map<string, DbSettings>, sql: SqlBackend, dax: DaxBackend, yesterday: string)

  /** The builder's view of a settings entry: the validated configuration
      carries no `*_schema` key, so the schema is the entry's own or PUBLIC. */
  function BuilderConfig(s: DbSettings): (cfg: DbConfig)
    ensures cfg.schema == (if s.schema != "" then s.schema else "PUBLIC")
    ensures HasLocation(cfg) <==> s.db != "" || s.name != ""
  {
    DbConfig(s.db, s.name, if s.schema != "" then s.schema else "PUBLIC")
  }

  /** The relational query of one side: the settings entry of the
      connection (a missing key raises KeyError, whose text is the quoted
      key) handed to the SQL builder (whose ValueError propagates). A query
      that comes back always passes the executor's SELECT guard. */
  function SqlQuery(b: Backends, conn: string, spec: AggregationSpec): (r: Result<string, string>)
    ensures conn !in b.databases ==> r == Err("'" + conn + "'")
    ensures conn in b.databases ==> (r.Ok? <==> BuildSql(BuilderConfig(b.databases[conn]), spec).Ok?)
    ensures r.Ok? ==> conn in b.databases && r.value == BuildSql(BuilderConfig(b.databases[conn]), spec).value
    ensures r.Ok? ==> SelectShaped(r.value)
    ensures conn in b.databases && r.Err? ==> r.error == BuildErrorText(BuildSql(BuilderConfig(b.databases[conn]), spec).error)
  {
    if conn !in b.databases then Err("'" + conn + "'")
    else
      var cfg := BuilderConfig(b.databases[conn]);
      match BuildSql(cfg, spec)
      case Ok(q) => BuiltSqlIsSelectShaped(cfg, spec); Ok(q)
      case Err(e) => Err(BuildErrorText(e))
  }

  /** What one side of a test contributes to the result: its query text,
      its value, the connection used, and (aggregation variant only) the
      error text that left the value None. */
  datatype SideRun = SideRun(query: string, value: Value, connection: string, error: Option<string>)

  // ------------------------------------------------------------ aggregation

  /** A side read from an analytical answer: the first cell of the rows, or
      None beside the exception text. */
  predicate ReadDax(run: SideRun, a: Answer) {
    match a
    case Rows(f) => run.value == FirstCell(f) && run.error == None
    case Raised(e) => run.value == Null && run.error == Some(e)
  }

  /** A side read from a relational execution: the first cell of the frame,
      or None beside "<role> query failed: " and the executor's text. */
  predicate ReadSql(run: SideRun, x: Execution, role: string) {
    match x
    case Fetched(f) => run.value == FirstCell(f) && run.error == None
    case ExecFailed(m) => run.value == Null && run.error == Some(role + " query failed: " + m)
  }

  /** One side of the aggregation variant. A Power BI side runs its own DAX
      text when it has one and a generated query otherwise, and a DAX
      exception leaves the value None; a relational side ignores any custom
      SQL, builds the query, and an executor failure leaves the value None
      with a "<role> query failed: " error. An unknown database key or a
      builder error propagates. */
  function AggregationSide(b: Backends, side: Side, role: string): (r: Result<SideRun, string>)
    ensures MapUserConnection(side.connection) == PowerBi ==>
              r.Ok? && r.value.connection == PowerBi
              && r.value.query == BuildDax(SpecOf(side), side.daxQuery)
              && ReadDax(r.value, b.dax(side.workspaceId, side.datasetId, r.value.query))
    ensures MapUserConnection(side.connection) != PowerBi ==>
              (r.Ok? <==> SqlQuery(b, MapUserConnection(side.connection), SpecOf(side)).Ok?)
    ensures MapUserConnection(side.connection) != PowerBi && r.Err? ==>
              r.error == SqlQuery(b, MapUserConnection(side.connection), SpecOf(side)).error
    ensures MapUserConnection(side.connection) != PowerBi && r.Ok? ==>
              r.value.connection == MapUserConnection(side.connection)
              && SqlQuery(b, r.value.connection, SpecOf(side)) == Ok(r.value.query)
              && ReadSql(r.value, ExecuteSql(b.sql, r.value.connection, r.value.query), role)
              && (r.value.error.Some? <==> b.sql(r.value.connection, r.value.query).Raised?)
    ensures r.Ok? && r.value.error.Some? ==> r.value.value == Null
  {
    var conn := MapUserConnection(side.connection);
    if conn == PowerBi then
      var query := if Strip(side.daxQuery) != "" then Strip(side.daxQuery) else BuildDax(SpecOf(side), "");
      match b.dax(side.workspaceId, side.datasetId, query)
      case Rows(f) => Ok(SideRun(query, FirstCell(f), PowerBi, None))
      case Raised(e) => Ok(SideRun(query, Null, PowerBi, Some(e)))
    else
      match SqlQuery(b, conn, SpecOf(side))
      case Err(e) => Err(e)
      case Ok(query) =>
        match ExecuteSql(b.sql, conn, query)
        case Fetched(f) => Ok(SideRun(query, FirstCell(f), conn, None))
        case ExecFailed(m) => Ok(SideRun(query, Null, conn, Some(role + " query failed: " + m)))
  }

  /** The fields a variant writes into the result. */
  datatype Outcome = Outcome(
    status: Status,
    message: string,
    sourceValue: Value,
    destinationValue: Value,
    difference: Difference,
    outcome: Status,
    sourceQuery: string,
    destinationQuery: string,
    sourceConnection: string,
    destinationConnection: string)

  function ErrorText(e: Option<string>): string {
    match e
    case Some(t) => t
    case None => ""
  }

  /** The values, queries and connections of an outcome are those of its
      two sides. */
  predicate FromSides(o: Outcome, src: SideRun, dst: SideRun) {
    && o.sourceValue == src.value && o.destinationValue == dst.value
    && o.sourceQuery == src.query && o.destinationQuery == dst.query
    && o.sourceConnection == src.connection && o.destinationConnection == dst.connection
  }

  const SourceErrorLabel := "Source error: "
  const DestinationErrorLabel := " Destination error:"

  /** The ERROR message before `.strip()`: both sides' error texts, the
      source's first. */
  function ErrorReport(sourceError: string, destinationError: string): string {
    SourceErrorLabel + sourceError + DestinationErrorLabel + " " + destinationError
  }

  /** `_execute_snowflake_to_powerbi_aggregation_test_logic`. The source side
      runs first, so its exception hides the destination's. The comparator
      runs only when both values are present; otherwise the result is an
      ERROR carrying both sides' error texts. */
  function AggregationTest(num: Numerics, b: Backends, config: TestConfig): (r: Result<Outcome, string>)
    ensures r.Ok? <==> AggregationSide(b, config.source, "Source").Ok?
                       && AggregationSide(b, config.destination, "Destination").Ok?
    ensures AggregationSide(b, config.source, "Source").Err? ==>
              r.Err? && r.error == AggregationSide(b, config.source, "Source").error
    ensures AggregationSide(b, config.source, "Source").Ok? && AggregationSide(b, config.destination, "Destination").Err? ==>
              r.Err? && r.error == AggregationSide(b, config.destination, "Destination").error
    ensures r.Ok? ==> r.value.status == r.value.outcome
    ensures r.Ok? ==> FromSides(r.value, AggregationSide(b, config.source, "Source").value,
                                AggregationSide(b, config.destination, "Destination").value)
    ensures r.Ok? && (r.value.sourceValue.Null? || r.value.destinationValue.Null?) ==>
              var report := ErrorReport(ErrorText(AggregationSide(b, config.source, "Source").value.error),
                                        ErrorText(AggregationSide(b, config.destination, "Destination").value.error));
              r.value.status == Error && r.value.difference == NoDifference
              && StartsWith(r.value.message, SourceErrorLabel + ErrorText(AggregationSide(b, config.source, "Source").value.error)
                                             + DestinationErrorLabel)
              && StartsWith(report, r.value.message) && Blank(report[|r.value.message|..])
              && Trimmed(r.value.message)
    ensures r.Ok? && !r.value.sourceValue.Null? && !r.value.destinationValue.Null? ==>
              r.value.status == Compare(num, r.value.sourceValue, r.value.destinationValue, config.threshold, config.thresholdType).status
              && r.value.difference == Compare(num, r.value.sourceValue, r.value.destinationValue, config.threshold, config.thresholdType).difference
  {
    var src :- AggregationSide(b, config.source, "Source");
    var dst :- AggregationSide(b, config.destination, "Destination");
    if !src.value.Null? && !dst.value.Null? then
      var c := Compare(num, src.value, dst.value, config.threshold, config.thresholdType);
      Ok(Outcome(c.status, c.message, src.value, dst.value, c.difference, c.outcome,
                 src.query, dst.query, src.connection, dst.connection))
    else
      var message := Strip(ErrorReport(ErrorText(src.error), ErrorText(dst.error)));
      ErrorReportStripped(ErrorText(src.error), ErrorText(dst.error));
      ErrorReportTrimmed(ErrorText(src.error), ErrorText(dst.error));
      Ok(Outcome(Error, message, src.value, dst.value, NoDifference, Error,
                 src.query, dst.query, src.connection, dst.connection))
  }

  /** `.strip()` on the ERROR message keeps everything up to the destination
      label and takes off only trailing whitespace. */
  lemma ErrorReportStripped(sourceError: string, destinationError: string)
    ensures StartsWith(Strip(ErrorReport(sourceError, destinationError)), SourceErrorLabel + sourceError + DestinationErrorLabel)
    ensures var report := ErrorReport(sourceError, destinationError);
            StartsWith(report, Strip(report)) && Blank(report[|Strip(report)|..])
  {
    var report := ErrorReport(sourceError, destinationError);
    var front := SourceErrorLabel + sourceError + DestinationErrorLabel;
    assert report == front + (" " + destinationError);
    assert report[0] == 'S';
    assert TrimStart(report) == report;
    var m := TrimEnd(report);
    assert report[|front| - 1] == ':';
    assert |m| >= |front|;
    assert m[..|front|] == report[..|front|] == front;
    var rest := report[|m|..];
    assert Blank(rest) by {
      forall i | 0 <= i < |rest| ensures IsSpace(rest[i]) {
        assert rest[i] == report[|m| + i];
      }
    }
  }

  /** The ERROR message neither starts nor ends with whitespace: the report
      begins with the label's `S`, so it is never blank. */
  lemma ErrorReportTrimmed(sourceError: string, destinationError: string)
    ensures Trimmed(Strip(ErrorReport(sourceError, destinationError)))
  {
  }

  // ------------------------------------------------------------------ drift

  /** The drift query arguments: the source side's table, date column,
      kind and column at the given date, with no group-by and no filter. */
  function DriftSpec(side: Side, date: string): AggregationSpec {
    AggregationSpec(side.table, side.dateColumn, date, side.aggregationType, side.aggregationColumn, "", "")
  }

  /** An exception text: a fixed lead-in followed by the executor's message. */
  predicate FailedWith(error: string, lead: string, message: string) {
    error == lead + message
  }

  const TodayFailed := "Today's query failed: "
  const YesterdayFailed := "Yesterday's query failed: "

  /** The analytical drift run against the backend: the first exception of
      today's or yesterday's query propagates; when both give rows, today's
      first cell is the source value and yesterday's the destination value. */
  predicate DaxDriftRun(b: Backends, config: TestConfig, r: Result<Outcome, string>) {
    var side := config.source;
    var today := b.dax(side.workspaceId, side.datasetId, BuildDax(DriftSpec(side, CurrentDate), ""));
    var yesterday := b.dax(side.workspaceId, side.datasetId, BuildDax(DriftSpec(side, b.yesterday), ""));
    && (r.Ok? <==> today.Rows? && yesterday.Rows?)
    && (today.Raised? ==> r.Err? && r.error == today.error)
    && (today.Rows? && yesterday.Raised? ==> r.Err? && r.error == yesterday.error)
    && (r.Ok? ==> r.value.sourceValue == FirstCell(today.frame) && r.value.destinationValue == FirstCell(yesterday.frame))
  }

  /** The relational drift run, given today's and yesterday's query
      builds: a builder or lookup error propagates as is, an executor
      failure as "Today's query failed" or "Yesterday's query failed"; when
      both queries fetch, today's first cell is the source value and
      yesterday's the destination value. */
  predicate SqlDriftRun(sql: SqlBackend, conn: string, todayQuery: Result<string, string>,
                        yesterdayQuery: Result<string, string>, r: Result<Outcome, string>) {
    && (todayQuery.Err? ==> r.Err? && r.error == todayQuery.error)
    && (todayQuery.Ok? ==>
          var today := ExecuteSql(sql, conn, todayQuery.value);
          && (today.ExecFailed? ==> r.Err? && FailedWith(r.error, TodayFailed, today.message))
          && (today.Fetched? && yesterdayQuery.Err? ==> r.Err? && r.error == yesterdayQuery.error)
          && (today.Fetched? && yesterdayQuery.Ok? ==>
                var yesterday := ExecuteSql(sql, conn, yesterdayQuery.value);
                && (yesterday.ExecFailed? ==> r.Err? && FailedWith(r.error, YesterdayFailed, yesterday.message))
                && (yesterday.Fetched? ==>
                      r.Ok? && r.value.sourceValue == FirstCell(today.frame)
                      && r.value.destinationValue == FirstCell(yesterday.frame))))
  }

  /** `_execute_drift_test_logic`: today's aggregate is the source value and
      yesterday's the destination value, read through the same connection
      with the same table, column and kind; then the comparator decides.
      Every failure propagates, relational executor failures with a
      "Today's"/"Yesterday's query failed" text. */
  function DriftTest(num: Numerics, b: Backends, config: TestConfig): (r: Result<Outcome, string>)
    ensures r.Ok? ==> IsDriftOutcome(num, config, r.value)
    ensures config.source.connection == PowerBi ==> DaxDriftRun(b, config, r)
    ensures config.source.connection != PowerBi ==>
              var conn := MapUserConnection(config.source.connection);
              SqlDriftRun(b.sql, conn, SqlQuery(b, conn, DriftSpec(config.source, CurrentDate)),
                          SqlQuery(b, conn, DriftSpec(config.source, b.yesterday)), r)
    ensures config.source.connection == PowerBi && r.Ok? ==>
              r.value.sourceConnection == PowerBi
              && r.value.sourceQuery == BuildDax(DriftSpec(config.source, CurrentDate), "")
              && r.value.destinationQuery == BuildDax(DriftSpec(config.source, b.yesterday), "")
    ensures config.source.connection != PowerBi && r.Ok? ==>
              r.value.sourceConnection == MapUserConnection(config.source.connection)
              && SqlQuery(b, r.value.sourceConnection, DriftSpec(config.source, CurrentDate)) == Ok(r.value.sourceQuery)
              && SqlQuery(b, r.value.sourceConnection, DriftSpec(config.source, b.yesterday)) == Ok(r.value.destinationQuery)
  {
    if config.source.connection == PowerBi then DriftOverDax(num, b, config)
    else DriftOverSql(num, b, config)
  }

  function DriftOverDax(num: Numerics, b: Backends, config: TestConfig): (r: Result<Outcome, string>)
    ensures DaxDriftRun(b, config, r)
    ensures r.Ok? ==> IsDriftOutcome(num, config, r.value)
    ensures r.Ok? ==> r.value.sourceConnection == PowerBi
                      && r.value.sourceQuery == BuildDax(DriftSpec(config.source, CurrentDate), "")
                      && r.value.destinationQuery == BuildDax(DriftSpec(config.source, b.yesterday), "")
  {
    var side := config.source;
    var todayQuery := BuildDax(DriftSpec(side, CurrentDate), "");
    match b.dax(side.workspaceId, side.datasetId, todayQuery)
    case Raised(e) => Err(e)
    case Rows(todayFrame) =>
      var yesterdayQuery := BuildDax(DriftSpec(side, b.yesterday), "");
      match b.dax(side.workspaceId, side.datasetId, yesterdayQuery)
      case Raised(e) => Err(e)
      case Rows(yesterdayFrame) =>
        Ok(Compared(num, config, FirstCell(todayFrame), FirstCell(yesterdayFrame), todayQuery, yesterdayQuery, PowerBi))
  }

  function DriftOverSql(num: Numerics, b: Backends, config: TestConfig): (r: Result<Outcome, string>)
    ensures var conn := MapUserConnection(config.source.connection);
            SqlDriftRun(b.sql, conn, SqlQuery(b, conn, DriftSpec(config.source, CurrentDate)),
                        SqlQuery(b, conn, DriftSpec(config.source, b.yesterday)), r)
    ensures r.Ok? ==> IsDriftOutcome(num, config, r.value)
    ensures r.Ok? ==> r.value.sourceConnection == MapUserConnection(config.source.connection)
                      && SqlQuery(b, r.value.sourceConnection, DriftSpec(config.source, CurrentDate)) == Ok(r.value.sourceQuery)
                      && SqlQuery(b, r.value.sourceConnection, DriftSpec(config.source, b.yesterday)) == Ok(r.value.destinationQuery)
  {
    SqlDrift(num, b, config, MapUserConnection(config.source.connection),
             DriftSpec(config.source, CurrentDate), DriftSpec(config.source, b.yesterday))
  }

  /** The relational drift steps for given today's and yesterday's query
      arguments: build and run today's query, then yesterday's, through one
      connection, and compare the two first cells. */
  function SqlDrift(num: Numerics, b: Backends, config: TestConfig, conn: string,
                    todaySpec: AggregationSpec, yesterdaySpec: AggregationSpec): (r: Result<Outcome, string>)
    ensures SqlDriftRun(b.sql, conn, SqlQuery(b, conn, todaySpec), SqlQuery(b, conn, yesterdaySpec), r)
    ensures r.Ok? ==> IsDriftOutcome(num, config, r.value)
    ensures r.Ok? ==> r.value.sourceConnection == conn
                      && SqlQuery(b, conn, todaySpec) == Ok(r.value.sourceQuery)
                      && SqlQuery(b, conn, yesterdaySpec) == Ok(r.value.destinationQuery)
  {
    match SqlQuery(b, conn, todaySpec)
    case Err(e) => Err(e)
    case Ok(todayQuery) =>
      match ExecuteSql(b.sql, conn, todayQuery)
      case ExecFailed(m) => Err(TodayFailed + m)
      case Fetched(todayFrame) =>
        match SqlQuery(b, conn, yesterdaySpec)
        case Err(e) => Err(e)
        case Ok(yesterdayQuery) =>
          match ExecuteSql(b.sql, conn, yesterdayQuery)
          case ExecFailed(m) => Err(YesterdayFailed + m)
          case Fetched(yesterdayFrame) =>
            Ok(Compared(num, config, FirstCell(todayFrame), FirstCell(yesterdayFrame), todayQuery, yesterdayQuery, conn))
  }

  /** A drift outcome: today's value as the source value and yesterday's as
      the destination value, both read through one connection, with the
      comparator's verdict under the configured threshold. */
  predicate IsDriftOutcome(num: Numerics, config: TestConfig, o: Outcome) {
    o == Compared(num, config, o.sourceValue, o.destinationValue, o.sourceQuery, o.destinationQuery, o.sourceConnection)
  }

  /** A drift result: both values read through one connection and compared. */
  function Compared(num: Numerics, config: TestConfig, today: Value, yesterday: Value,
                    todayQuery: string, yesterdayQuery: string, conn: string): (o: Outcome)
    ensures o.status == o.outcome
    ensures o.sourceValue == today && o.destinationValue == yesterday
    ensures o.sourceConnection == conn && o.destinationConnection == conn
    ensures o.sourceQuery == todayQuery && o.destinationQuery == yesterdayQuery
    ensures var c := Compare(num, today, yesterday, config.threshold, config.thresholdType);
            o.status == c.status && o.difference == c.difference && o.message == c.message
  {
    var c := Compare(num, today, yesterday, config.threshold, config.thresholdType);
    Outcome(c.status, c.message, today, yesterday, c.difference, c.outcome, todayQuery, yesterdayQuery, conn, conn)
  }

  // ----------------------------------------------------------- availability

  /** `value or 0` followed by `> 0`: None, 0 and the empty string count as
      no data; a number counts when positive; comparing any other value with
      0 raises TypeError. */
  function Positive(v: Value): (r: Result<bool, string>)
    ensures r == Ok(true) <==> v.Num? && v.x > 0.0
    ensures r.Err? <==> (v.Text? && v.s != "") || v.Other?
  {
    match v
    case Null => Ok(false)
    case Num(x) => Ok(x > 0.0)
    case Text(s) => if s == "" then Ok(false) else Err("'>' not supported between instances of 'str' and 'int'")
    case Other(typeName, _) => Err("'>' not supported between instances of '" + typeName + "' and 'int'")
  }

  /** The availability query arguments: a COUNT over the side's column at
      today's date, with no group-by and no filter. */
  function AvailabilitySpec(side: Side): AggregationSpec {
    AggregationSpec(side.table, side.dateColumn, CurrentDate, "COUNT", side.aggregationColumn, "", "")
  }

  const AvailabilityFailed := "Availability query failed: "

  /** One availability count: the probe of the side's COUNT at today's date.
      Only the destination's Power BI form passes the side's own DAX text. */
  function AvailabilityProbe(b: Backends, side: Side, customDax: string): (r: Result<SideRun, string>)
    ensures side.connection == PowerBi ==>
              (r.Ok? <==> b.dax(side.workspaceId, side.datasetId, BuildDax(AvailabilitySpec(side), customDax)).Rows?)
    ensures side.connection == PowerBi && r.Ok? ==> r.value.query == BuildDax(AvailabilitySpec(side), customDax)
    ensures side.connection != PowerBi && r.Ok? ==>
              SqlQuery(b, MapUserConnection(side.connection), AvailabilitySpec(side)) == Ok(r.value.query)
    ensures r.Ok? ==> r.value.error.None?
  {
    Probe(b, side, AvailabilitySpec(side), customDax)
  }

  /** A count query for the given arguments against the side's backend: the
      DAX builder's text on Power BI (the raw connection name decides),
      the SQL builder's otherwise. Every failure propagates, a relational
      executor failure as "Availability query failed: ...". */
  function Probe(b: Backends, side: Side, spec: AggregationSpec, customDax: string): (r: Result<SideRun, string>)
    ensures side.connection == PowerBi ==>
              (r.Ok? <==> b.dax(side.workspaceId, side.datasetId, BuildDax(spec, customDax)).Rows?)
    ensures side.connection == PowerBi && r.Ok? ==> r.value.query == BuildDax(spec, customDax)
    ensures side.connection != PowerBi && r.Ok? ==>
              SqlQuery(b, MapUserConnection(side.connection), spec) == Ok(r.value.query)
    ensures r.Ok? ==> r.value.error.None?
    ensures side.connection == PowerBi ==>
              var answer := b.dax(side.workspaceId, side.datasetId, BuildDax(spec, customDax));
              && (answer.Raised? ==> r.Err? && r.error == answer.error)
              && (answer.Rows? ==> r.Ok? && r.value.value == FirstCell(answer.frame) && r.value.connection == PowerBi)
    ensures side.connection != PowerBi ==>
              var conn := MapUserConnection(side.connection);
              var query := SqlQuery(b, conn, spec);
              && (query.Err? ==> r.Err? && r.error == query.error)
              && (query.Ok? && ExecuteSql(b.sql, conn, query.value).ExecFailed? ==>
                    r.Err? && FailedWith(r.error, AvailabilityFailed, ExecuteSql(b.sql, conn, query.value).message))
              && (query.Ok? && ExecuteSql(b.sql, conn, query.value).Fetched? ==>
                    r.Ok? && r.value.value == FirstCell(ExecuteSql(b.sql, conn, query.value).frame)
                    && r.value.connection == conn)
  {
    if side.connection == PowerBi then
      var query := BuildDax(spec, customDax);
      match b.dax(side.workspaceId, side.datasetId, query)
      case Raised(e) => Err(e)
      case Rows(frame) => Ok(SideRun(query, FirstCell(frame), PowerBi, None))
    else
      var conn := MapUserConnection(side.connection);
      match SqlQuery(b, conn, spec)
      case Err(e) => Err(e)
      case Ok(query) =>
        match ExecuteSql(b.sql, conn, query)
        case ExecFailed(m) => Err(AvailabilityFailed + m)
        case Fetched(frame) => Ok(SideRun(query, FirstCell(frame), conn, None))
  }

  /** `_execute_availability_test_logic`. The source is probed first, then
      the destination when one is configured; with a destination the test
      passes iff both counts are positive, otherwise iff the source count
      is, and the second comparison is not evaluated once the first fails.
      PASS reports difference 0 and FAIL "N/A". */
  function AvailabilityTest(b: Backends, config: TestConfig): (r: Result<Outcome, string>)
    ensures var src := AvailabilityProbe(b, config.source, "");
            && (src.Err? ==> r.Err? && r.error == src.error)
            && (r.Ok? ==> src.Ok? && r.value.sourceValue == src.value.value
                          && r.value.sourceQuery == src.value.query && r.value.sourceConnection == src.value.connection)
    ensures config.destination.connection != "" ==>
              var src := AvailabilityProbe(b, config.source, "");
              var dst := AvailabilityProbe(b, config.destination, config.destination.daxQuery);
              && (src.Ok? && dst.Err? ==> r.Err? && r.error == dst.error)
              && (r.Ok? ==> dst.Ok? && r.value.destinationValue == dst.value.value
                            && r.value.destinationQuery == dst.value.query
                            && r.value.destinationConnection == dst.value.connection)
    ensures var src := AvailabilityProbe(b, config.source, "");
            var dst := AvailabilityProbe(b, config.destination, config.destination.daxQuery);
            r.Ok? <==> src.Ok? && Positive(src.value.value).Ok?
                       && (config.destination.connection != "" ==>
                             dst.Ok? && (Positive(src.value.value) == Ok(false) || Positive(dst.value.value).Ok?))
    ensures r.Ok? ==> r.value.status == r.value.outcome && r.value.status != Error
    ensures r.Ok? ==>
              (r.value.status == Pass <==>
                 Positive(r.value.sourceValue) == Ok(true)
                 && (config.destination.connection == "" || Positive(r.value.destinationValue) == Ok(true)))
    ensures r.Ok? ==> r.value.difference == (if r.value.status == Pass then Amount(0.0) else NotApplicable)
    ensures r.Ok? && config.destination.connection == "" ==>
              r.value.destinationValue == Null && r.value.destinationQuery == "N/A" && r.value.destinationConnection == "N/A"
    ensures r.Ok? ==> Positive(r.value.sourceValue).Ok?
  {
    var src :- AvailabilityProbe(b, config.source, "");
    if config.destination.connection != "" then
      var dst :- AvailabilityProbe(b, config.destination, config.destination.daxQuery);
      var sourceHas :- Positive(src.value);
      var bothHave :- if sourceHas then Positive(dst.value) else Ok(false);
      Ok(Outcome(if bothHave then Pass else Fail,
                 if bothHave then "Data is available in both source and destination."
                 else "Data is not available in one or both systems.",
                 src.value, dst.value, if bothHave then Amount(0.0) else NotApplicable,
                 if bothHave then Pass else Fail, src.query, dst.query, src.connection, dst.connection))
    else
      var sourceHas :- Positive(src.value);
      Ok(Outcome(if sourceHas then Pass else Fail,
                 if sourceHas then "Data is available in the source." else "Data is not available in the source.",
                 src.value, Null, if sourceHas then Amount(0.0) else NotApplicable,
                 if sourceHas then Pass else Fail, src.query, "N/A", src.connection, "N/A"))
  }

  // --------------------------------------------------------------- dispatch

  /** The result dictionary of `process_test_request`. */
  datatype TestResult = TestResult(
    status: Status,
    message: string,
    sourceValue: Value,
    destinationValue: Value,
    difference: Difference,
    threshold: real,
    thresholdType: string,
    sourceQuery: string,
    destinationQuery: string,
    outcome: Status,
    sourceConnection: string,
    destinationConnection: string)

  /** The test type lower-cased with its spaces removed. */
  function TestKind(testType: string): string {
    Without(Lower(testType), ' ')
  }

  const UnhandledPrefix := "An unhandled error occurred: "

  /** The defaults a failed dispatch leaves in place, with the exception text. */
  function Unhandled(config: TestConfig, error: string): (r: TestResult)
    ensures r.status == Error && r.outcome == Error && r.difference == NoDifference
    ensures r.message == UnhandledPrefix + error
    ensures r.sourceValue == Null && r.destinationValue == Null
    ensures r.sourceQuery == "N/A" && r.destinationQuery == "N/A"
  {
    TestResult(Error, UnhandledPrefix + error, Null, Null, NoDifference, config.threshold, config.thresholdType,
               "N/A", "N/A", Error, "N/A", "N/A")
  }

  function Merged(config: TestConfig, o: Outcome): TestResult {
    TestResult(o.status, o.message, o.sourceValue, o.destinationValue, o.difference, config.threshold,
               config.thresholdType, o.sourceQuery, o.destinationQuery, o.outcome, o.sourceConnection,
               o.destinationConnection)
  }

  function Settle(config: TestConfig, r: Result<Outcome, string>): TestResult {
    match r
    case Ok(o) => Merged(config, o)
    case Err(e) => Unhandled(config, e)
  }

  /** `process_test_request`. Never raises: an unknown test type or any
      exception of a variant yields the ERROR defaults with the exception
      text. Status and outcome always agree, the threshold fields are the
      configuration's, and a PASS always rests on a present source value. */
  function Process(num: Numerics, b: Backends, config: TestConfig): (r: TestResult)
    ensures r.status == r.outcome
    ensures r.threshold == config.threshold && r.thresholdType == config.thresholdType
    ensures TestKind(config.testType) !in {"aggregationcomparison", "drifttest", "powerbidrift", "availabilitytest", "powerbiavailability"} ==>
              r == Unhandled(config, "Unknown or unsupported test type: " + TestKind(config.testType))
    ensures r.status == Pass ==> !r.sourceValue.Null? && (!r.destinationValue.Null? || r.destinationQuery == "N/A")
  {
    var kind := TestKind(config.testType);
    if kind == "aggregationcomparison" then Settle(config, AggregationTest(num, b, config))
    else if kind == "drifttest" || kind == "powerbidrift" then
      Settle(config, DriftTest(num, b, config))
    else if kind == "availabilitytest" || kind == "powerbiavailability" then
      Settle(config, AvailabilityTest(b, config))
    else Unhandled(config, "Unknown or unsupported test type: " + kind)
  }
}
