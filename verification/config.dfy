/** The test configuration the validator produces and the processor
    consumes: the dictionary keys `source_*` / `destination_*` gathered into
    one record per side. An empty string stands for a missing value. */
module Config {
  import opened Queries

  /** One side of a test. `connection` is the user's connection name as
      entered (PROD, DEV, Power BI, or a Django database key). */
  datatype Side = Side(
    connection: string,
    customSql: string,
    table: string,
    dateColumn: string,
    dateValue: string,
    aggregationType: string,
    aggregationColumn: string,
    groupBy: string,
    filters: string,
    workspaceId: string,
    datasetId: string,
    daxQuery: string)

  /** The whole validated configuration. `historicalPeriods` is carried
      along but read by none of the test variants. */
  datatype TestConfig = TestConfig(
    projectId: string,
    testName: string,
    category: string,
    testType: string,
    source: Side,
    destination: Side,
    historicalPeriods: int,
    threshold: real,
    thresholdType: string,
    possibleResolution: string)

  /** The builder arguments a side supplies: table, date column and value,
      aggregation kind and column, group-by text and extra filter. */
  function SpecOf(side: Side): AggregationSpec {
    AggregationSpec(side.table, side.dateColumn, side.dateValue, side.aggregationType,
                    side.aggregationColumn, side.groupBy, side.filters)
  }
}
