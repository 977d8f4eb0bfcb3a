/** `_extract_and_validate_form_data` of `services.py`: a submitted form
    becomes a test configuration plus a list of human-readable errors, with
    per-test-type policy overrides. The function can also raise: a
    non-numeric `historical_periods` or `threshold`, and every Power BI
    test type, whose branch reads a configuration key that is never set. */
module Validation {
  import opened Text
  import opened Values
  import opened Queries
  import opened Comparator
  import opened Config

  /** The submitted form: field name to submitted text. An absent key is
      absent from the map. */
  type Form = map<string, string>

  /** `form.get(key, default)`. */
  function Get(form: Form, key: string, default: string): string {
    if key in form then form[key] else default
  }

  /** `(form.get(key) or '').strip()`. */
  function GetStripped(form: Form, key: string): (r: string)
    ensures key !in form ==> r == ""
    ensures key in form ==> r == Strip(form[key])
  {
    Strip(Get(form, key, ""))
  }

  /** The fields of one side, under the key prefix `source` or
      `destination`. Custom SQL, date value, group-by, filters and the
      Power BI identifiers are stripped; the others are kept as typed. */
  function ExtractSide(form: Form, prefix: string): Side {
    Side(Get(form, prefix + "_connection_source", ""),
         GetStripped(form, prefix + "_custom_sql"),
         Get(form, prefix + "_table", ""),
         Get(form, prefix + "_date_column", ""),
         GetStripped(form, prefix + "_date_value"),
         Get(form, prefix + "_aggregation_type", ""),
         Get(form, prefix + "_aggregation_column", ""),
         GetStripped(form, prefix + "_group_by_column"),
         GetStripped(form, prefix + "_additional_filters"),
         GetStripped(form, prefix + "_workspace_id"),
         GetStripped(form, prefix + "_dataset_id"),
         GetStripped(form, prefix + "_dax_query"))
  }

  /** `int(form.get('historical_periods', 1) or 1)`: absent or empty means 1;
      text `int()` rejects raises ValueError. */
  function HistoricalPeriods(toInt: string -> Option<int>, form: Form): (r: Result<int, string>)
    ensures Get(form, "historical_periods", "") == "" ==> r == Ok(1)
    ensures Get(form, "historical_periods", "") != "" ==>
              (r.Ok? <==> toInt(form["historical_periods"]).Some?)
  {
    var raw := Get(form, "historical_periods", "");
    if raw == "" then Ok(1)
    else
      match toInt(raw)
      case Some(n) => Ok(n)
      case None => Err("invalid literal for int() with base 10: '" + raw + "'")
  }

  /** `float(form.get('threshold', 0) or 0)`: absent or empty means 0; text
      `float()` rejects raises ValueError. */
  function Threshold(num: Numerics, form: Form): (r: Result<real, string>)
    ensures Get(form, "threshold", "") == "" ==> r == Ok(0.0)
    ensures Get(form, "threshold", "") != "" ==> (r.Ok? <==> num.parse(form["threshold"]).Some?)
    ensures r.Ok? && Get(form, "threshold", "") != "" ==> r.value == num.parse(form["threshold"]).value
  {
    var raw := Get(form, "threshold", "");
    if raw == "" then Ok(0.0)
    else
      match num.parse(raw)
      case Some(x) => Ok(x)
      case None => Err("could not convert string to float: '" + raw + "'")
  }

  /** The configuration dictionary as first extracted, before any policy
      override. The integer field is converted before the threshold, so its
      ValueError is the one raised when both are bad. */
  function Extract(num: Numerics, toInt: string -> Option<int>, form: Form): (r: Result<TestConfig, string>)
    ensures r.Ok? <==> HistoricalPeriods(toInt, form).Ok? && Threshold(num, form).Ok?
    ensures HistoricalPeriods(toInt, form).Err? ==> r == Err(HistoricalPeriods(toInt, form).error)
    ensures r.Ok? ==> r.value.threshold == Threshold(num, form).value
                      && r.value.source == ExtractSide(form, "source")
                      && r.value.destination == ExtractSide(form, "destination")
                      && r.value.testType == Get(form, "test_type", "Aggregation Comparison")
  {
    match HistoricalPeriods(toInt, form)
    case Err(e) => Err(e)
    case Ok(periods) =>
      match Threshold(num, form)
      case Err(e) => Err(e)
      case Ok(threshold) =>
        Ok(TestConfig(Get(form, "project_id", ""), Get(form, "test_name", ""), GetStripped(form, "category"),
                      Get(form, "test_type", "Aggregation Comparison"),
                      ExtractSide(form, "source"), ExtractSide(form, "destination"),
                      periods, threshold, Get(form, "threshold_type", ""),
                      GetStripped(form, "possible_resolution")))
  }

  // ----------------------------------------------------------------- dates

  predicate IsDigit(c: char) {
    '0' <= c <= '9'
  }

  function DigitValue(c: char): nat
    requires IsDigit(c)
  {
    c as int - '0' as int
  }

  /** The value of a run of decimal digits. */
  function Number(s: string): nat
    requires forall i :: 0 <= i < |s| ==> IsDigit(s[i])
  {
    if s == [] then 0 else Number(s[..|s| - 1]) * 10 + DigitValue(s[|s| - 1])
  }

  /** What `%m` matches just before the `-`: one digit 1-9, or 01-12. */
  predicate MonthText(m: string) {
    (|m| == 1 && '1' <= m[0] <= '9')
    || (|m| == 2 && ((m[0] == '0' && '1' <= m[1] <= '9') || (m[0] == '1' && '0' <= m[1] <= '2')))
  }

  /** What `%d` matches at the end of the text: one digit 1-9, 01-31, or a
      space followed by a digit 1-9. */
  predicate DayText(d: string) {
    (|d| == 1 && '1' <= d[0] <= '9')
    || (|d| == 2 && ((d[0] == '0' && '1' <= d[1] <= '9') || ('1' <= d[0] <= '2' && IsDigit(d[1]))
                     || (d[0] == '3' && '0' <= d[1] <= '1') || (d[0] == ' ' && '1' <= d[1] <= '9')))
  }

  function DayNumber(d: string): nat
    requires DayText(d)
  {
    if |d| == 1 then DigitValue(d[0])
    else (if d[0] == ' ' then 0 else DigitValue(d[0])) * 10 + DigitValue(d[1])
  }

  function MonthNumber(m: string): nat
    requires MonthText(m)
  {
    if |m| == 1 then DigitValue(m[0]) else DigitValue(m[0]) * 10 + DigitValue(m[1])
  }

  predicate IsLeap(year: int) {
    year % 4 == 0 && (year % 100 != 0 || year % 400 == 0)
  }

  function DaysInMonth(year: int, month: int): int {
    if month == 2 then (if IsLeap(year) then 29 else 28)
    else if month == 4 || month == 6 || month == 9 || month == 11 then 30
    else 31
  }

  /** The year field: four digits naming a year `date` accepts (1 to 9999). */
  predicate YearText(y: string) {
    |y| == 4 && IsDigit(y[0]) && IsDigit(y[1]) && IsDigit(y[2]) && IsDigit(y[3]) && Number(y) >= 1
  }

  /** `datetime.strptime(v, '%Y-%m-%d')` succeeds: the text is year, month
      and day fields joined by `-`, with nothing left over, naming a day
      that exists in the proleptic Gregorian calendar. */
  predicate IsStrptimeDate(v: string) {
    |v| >= 8 && YearText(v[..4]) && v[4] == '-'
    && ((v[6] == '-' && MonthText(v[5..6]) && DayText(v[7..])
         && DayNumber(v[7..]) <= DaysInMonth(Number(v[..4]), MonthNumber(v[5..6])))
        || (v[7] == '-' && MonthText(v[5..7]) && DayText(v[8..])
            && DayNumber(v[8..]) <= DaysInMonth(Number(v[..4]), MonthNumber(v[5..7]))))
  }

  /** The decimal digit of a number below ten. */
  function Digit(n: nat): (c: char)
    requires n < 10
    ensures IsDigit(c) && DigitValue(c) == n
  {
    ('0' as int + n) as char
  }

  /** A number below 100 as two digits, zero-padded. */
  function Pad2(n: nat): (r: string)
    requires n < 100
    ensures |r| == 2 && IsDigit(r[0]) && IsDigit(r[1])
    ensures DigitValue(r[0]) * 10 + DigitValue(r[1]) == n
  {
    [Digit(n / 10), Digit(n % 10)]
  }

  /** A year as four digits, zero-padded. */
  function Pad4(n: nat): (r: string)
    requires n < 10000
    ensures |r| == 4 && forall i :: 0 <= i < 4 ==> IsDigit(r[i])
    ensures Number(r) == n
  {
    var r := Pad2(n / 100) + Pad2(n % 100);
    FourDigits(r);
    r
  }

  lemma FourDigits(r: string)
    requires |r| == 4 && forall i :: 0 <= i < 4 ==> IsDigit(r[i])
    ensures Number(r) == ((DigitValue(r[0]) * 10 + DigitValue(r[1])) * 10 + DigitValue(r[2])) * 10 + DigitValue(r[3])
  {
    var r3 := r[..3];
    var r2 := r[..2];
    var r1 := r[..1];
    assert r3[..2] == r2 && r2[..1] == r1 && r1[..0] == [];
    assert Number(r1) == DigitValue(r[0]);
    assert Number(r2) == DigitValue(r[0]) * 10 + DigitValue(r[1]);
    assert Number(r3) == Number(r2) * 10 + DigitValue(r[2]);
  }

  /** The canonical `YYYY-MM-DD` text of a date. */
  function IsoDate(year: nat, month: nat, day: nat): string
    requires year < 10000 && month < 100 && day < 100
  {
    Pad4(year) + "-" + Pad2(month) + "-" + Pad2(day)
  }

  /** Every real calendar date in canonical form passes the validator's
      date check. */
  lemma IsoDateAccepted(year: nat, month: nat, day: nat)
    requires 1 <= year <= 9999 && 1 <= month <= 12 && 1 <= day <= DaysInMonth(year, month)
    ensures IsStrptimeDate(IsoDate(year, month, day))
  {
    var v := IsoDate(year, month, day);
    var y := Pad4(year);
    var m := Pad2(month);
    var d := Pad2(day);
    assert v[..4] == y;
    assert v[5..7] == m;
    assert v[8..] == d;
    assert MonthNumber(m) == month;
    assert DayNumber(d) == day;
  }

  // -------------------------------------------------------------- problems

  /** One error the validator reports; `side` is "Source" or "Destination". */
  datatype Problem =
    | NameMissing
    | ProjectMissing
    | ThresholdTypeMissing
    | NegativeDriftThreshold
    | UnknownType(testType: string)
    | TableMissing(side: string)
    | DateColumnMissing(side: string)
    | DateValueMissing(side: string)
    | DateValueMalformed(side: string)
    | KindMissing(side: string)
    | KindUnknown(side: string)
    | ColumnMissing(side: string, kind: string)
    | ConnectionUnknown(side: string, connection: string)

  /** The text the validator appends for each problem. */
  function Message(p: Problem): string {
    match p
    case NameMissing => "Test Name is required."
    case ProjectMissing => "Project ID is missing. Cannot save test case without an associated project."
    case ThresholdTypeMissing => "Threshold Type is required."
    case NegativeDriftThreshold => "Threshold cannot be negative for Drift Test."
    case UnknownType(t) => "Unknown or unsupported test type: '" + t + "'."
    case TableMissing(side) => "'" + side + " Table Name' is required when not using custom SQL."
    case DateColumnMissing(side) => "'" + side + " Primary Date Column' is required when not using custom SQL."
    case DateValueMissing(side) => "'" + side + " Primary Date Value' is required when not using custom SQL."
    case DateValueMalformed(side) => "'" + side + " Primary Date Value' must be in YYYY-MM-DD format or 'CURRENT_DATE()'."
    case KindMissing(side) => "'" + side + " Aggregation Type' is required when not using custom SQL."
    case KindUnknown(side) => "'" + side + " Aggregation Type' must be one of COUNT, COUNT(*), SUM, AVG, MIN, MAX."
    case ColumnMissing(side, kind) => "'" + side + " Column for Aggregation' is required for " + kind + " type."
    case ConnectionUnknown(side, c) => "Invalid " + side + " Connection Source: " + c + ". Must be one of ['PROD', 'DEV', 'Power BI']"
  }

  /** The error list as the validator returns it. */
  function Messages(ps: seq<Problem>): (r: seq<string>)
    ensures |r| == |ps| && forall i :: 0 <= i < |ps| ==> r[i] == Message(ps[i])
  {
    seq(|ps|, i requires 0 <= i < |ps| => Message(ps[i]))
  }

  // ------------------------------------------------------------ side rules

  const ValidatorKinds: set<string> := {"COUNT", "COUNT(*)", "SUM", "AVG", "MIN", "MAX"}

  /** The connection names the form may carry. */
  const AllowedSources: set<string> := {"PROD", "DEV", "Power BI", "snowflake_prod", "snowflake_dev"}

  /** The date check of a side: absent is an error, `CURRENT_DATE()` (any
      case) passes, anything else must parse as `YYYY-MM-DD`. Drift and
      availability tests skip it. */
  function DateErrors(v: string, name: string, skipDate: bool): (r: seq<Problem>)
    ensures |r| <= 1
    ensures r == [] <==> skipDate || (v != "" && (Upper(v) == CurrentDate || IsStrptimeDate(v)))
    ensures r == [DateValueMissing(name)] <==> !skipDate && v == ""
    ensures r == [DateValueMalformed(name)] <==> !skipDate && v != "" && Upper(v) != CurrentDate && !IsStrptimeDate(v)
  {
    if v == "" && !skipDate then [DateValueMissing(name)]
    else if v != "" && Upper(v) != CurrentDate && !skipDate && !IsStrptimeDate(v) then [DateValueMalformed(name)]
    else []
  }

  /** The aggregation check of a side, on the stripped, upper-cased kind and
      the stripped column: at most one error, naming the first rule broken. */
  function AggregationErrors(kind: string, column: string, name: string): (r: seq<Problem>)
    ensures |r| <= 1
    ensures r == [] <==> KindAccepted(kind, column)
    ensures r == [KindMissing(name)] <==> NormalizedKind(kind) == ""
    ensures r == [KindUnknown(name)] <==> NormalizedKind(kind) != "" && NormalizedKind(kind) !in ValidatorKinds
    ensures r == [ColumnMissing(name, NormalizedKind(kind))]
            <==> NormalizedKind(kind) in ValidatorKinds && NormalizedKind(kind) !in {"COUNT", "COUNT(*)"} && Strip(column) == ""
  {
    var k := NormalizedKind(kind);
    if k == "" then [KindMissing(name)]
    else if k !in ValidatorKinds then [KindUnknown(name)]
    else if k != "COUNT" && k != "COUNT(*)" && Strip(column) == "" then [ColumnMissing(name, k)]
    else []
  }

  /** A kind the validator accepts: one of the six, and with a non-blank
      column unless it is a count. */
  predicate KindAccepted(kind: string, column: string) {
    NormalizedKind(kind) in ValidatorKinds
    && (NormalizedKind(kind) in {"COUNT", "COUNT(*)"} || Strip(column) != "")
  }

  function ConnectionErrors(connection: string, name: string): (r: seq<Problem>)
    ensures r == [] <==> connection == "" || connection in AllowedSources
    ensures |r| <= 1
  {
    if connection != "" && connection !in AllowedSources then
      [ConnectionUnknown(name, connection)]
    else []
  }

  /** What a side must satisfy to raise no error: an allowed (or absent)
      connection, and, unless it has custom SQL, a table, a date column, an
      acceptable date (when checked) and an acceptable aggregation. */
  predicate SideValid(side: Side, skipDate: bool) {
    (side.connection == "" || side.connection in AllowedSources)
    && (side.customSql != ""
        || (side.table != "" && side.dateColumn != ""
            && (skipDate || (side.dateValue != "" && (Upper(side.dateValue) == CurrentDate || IsStrptimeDate(side.dateValue))))
            && KindAccepted(side.aggregationType, side.aggregationColumn)))
  }

  /** The errors of one side, in the order the loop body appends them.
      Non-blank custom SQL skips every check but the connection's. */
  function SideErrors(side: Side, name: string, skipDate: bool): (r: seq<Problem>)
    ensures r == [] <==> SideValid(side, skipDate)
    ensures |r| <= 5
    ensures side.customSql != "" ==> r == ConnectionErrors(side.connection, name)
  {
    var structure :=
      if side.customSql != "" then []
      else
        (if side.table == "" then [TableMissing(name)] else [])
        + (if side.dateColumn == "" then [DateColumnMissing(name)] else [])
        + DateErrors(side.dateValue, name, skipDate)
        + AggregationErrors(side.aggregationType, side.aggregationColumn, name);
    structure + ConnectionErrors(side.connection, name)
  }

  // ------------------------------------------------------------ validation

  datatype Validation = Validation(config: TestConfig, errors: seq<Problem>)

  /** The test types the validator knows, after `.strip().title()`. */
  const AggregationType := "Aggregation Comparison"
  const DriftTypes: set<string> := {"Drift Test", "Power Bi Drift"}
  const AvailabilityTypes: set<string> := {"Availability Test", "Power Bi Availability"}
  const PowerBiTypes: set<string> := {"Power Bi Aggregation", "Power Bi Drift", "Power Bi Availability"}

  /** The configuration dictionary never holds `powerbi_group_id`, so every
      Power BI branch raises KeyError; its text is the quoted key. */
  const MissingGroupId := "'powerbi_group_id'"

  predicate KnownType(t: string) {
    t == AggregationType || t in DriftTypes || t in AvailabilityTypes || t == "Power Bi Aggregation"
  }

  function NormalizedType(testType: string): string {
    Title(Strip(testType))
  }

  /** The two checks every test type gets. */
  function BaseErrors(config: TestConfig): (r: seq<Problem>)
    ensures r == [] <==> config.testName != "" && config.projectId != ""
  {
    (if config.testName == "" then [NameMissing] else [])
    + (if config.projectId == "" then [ProjectMissing] else [])
  }

  /** The branches of the validator, by normalised test type. */
  datatype TypeClass = AggregationClass | DriftClass | AvailabilityClass | PowerBiClass | OtherClass

  function ClassOf(t: string): (c: TypeClass)
    ensures c == AggregationClass <==> t == AggregationType
    ensures c == PowerBiClass <==> t in PowerBiTypes
    ensures c == DriftClass <==> t == "Drift Test"
    ensures c == AvailabilityClass <==> t == "Availability Test"
    ensures c == OtherClass <==> !KnownType(t)
  {
    if t == AggregationType then AggregationClass
    else if t in PowerBiTypes then PowerBiClass
    else if t in DriftTypes then DriftClass
    else if t in AvailabilityTypes then AvailabilityClass
    else OtherClass
  }

  /** The policy part of the validator, on an extracted configuration. */
  function Check(config: TestConfig): (r: Result<Validation, string>)
    ensures r.Err? <==> NormalizedType(config.testType) in PowerBiTypes
    ensures r.Err? ==> r.error == MissingGroupId
    ensures r.Ok? ==> r.value.config.testType == NormalizedType(config.testType)
    ensures r.Ok? ==> r.value.config.source == config.source && r.value.config.destination == config.destination
    ensures r.Ok? && NormalizedType(config.testType) in DriftTypes ==>
              r.value.config.thresholdType == "PERCENTAGE" && r.value.config.threshold == config.threshold
    ensures r.Ok? && NormalizedType(config.testType) in AvailabilityTypes ==>
              r.value.config.thresholdType == "ABSOLUTE" && r.value.config.threshold == 0.0
    ensures r.Ok? && NormalizedType(config.testType) == AggregationType ==>
              r.value.config.thresholdType == config.thresholdType && r.value.config.threshold == config.threshold
    ensures r.Ok? && !KnownType(NormalizedType(config.testType)) ==>
              r.value.errors == BaseErrors(config) + [UnknownType(NormalizedType(config.testType))]
    ensures r.Ok? ==> (r.value.errors == [] <==> Acceptable(r.value.config))
  {
    var t := NormalizedType(config.testType);
    var typed := config.(testType := t);
    match ClassOf(t)
    case AggregationClass => Ok(CheckAggregation(typed))
    case PowerBiClass => Err(MissingGroupId)
    case DriftClass => Ok(CheckDrift(typed))
    case AvailabilityClass => Ok(CheckAvailability(typed))
    case OtherClass => Ok(Validation(typed, BaseErrors(config) + [UnknownType(t)]))
  }

  /** Aggregation comparison: a threshold type, and both sides in full. */
  function CheckAggregation(config: TestConfig): (r: Validation)
    requires config.testType == AggregationType
    ensures r.config == config
    ensures r.errors == [] <==> Acceptable(config)
  {
    var errors := BaseErrors(config)
                  + (if config.thresholdType == "" then [ThresholdTypeMissing] else [])
                  + SideErrors(config.source, "Source", false)
                  + SideErrors(config.destination, "Destination", false);
    Validation(config, errors)
  }

  /** Drift: the threshold type is forced to PERCENTAGE, a negative
      threshold is an error, and only the source is checked, without its
      date. */
  function CheckDrift(config: TestConfig): (r: Validation)
    requires config.testType == "Drift Test"
    ensures r.config == config.(thresholdType := "PERCENTAGE")
    ensures r.errors == [] <==> Acceptable(r.config)
  {
    var errors := BaseErrors(config)
                  + (if config.threshold < 0.0 then [NegativeDriftThreshold] else [])
                  + SideErrors(config.source, "Source", true);
    Validation(config.(thresholdType := "PERCENTAGE"), errors)
  }

  /** Availability: the threshold is forced to 0 ABSOLUTE, and only the
      source is checked, without its date. */
  function CheckAvailability(config: TestConfig): (r: Validation)
    requires config.testType == "Availability Test"
    ensures r.config == config.(threshold := 0.0, thresholdType := "ABSOLUTE")
    ensures r.errors == [] <==> Acceptable(r.config)
  {
    var errors := BaseErrors(config) + SideErrors(config.source, "Source", true);
    Validation(config.(threshold := 0.0, thresholdType := "ABSOLUTE"), errors)
  }

  /** A configuration (after the overrides) the validator raises no error
      for: named, tied to a project, of a known type, and per type: a
      threshold type and two valid sides for aggregation, a non-negative
      threshold and a valid source for drift, a valid source for
      availability. The date is checked for aggregation only. */
  predicate Acceptable(config: TestConfig) {
    config.testName != "" && config.projectId != ""
    && ((config.testType == AggregationType && config.thresholdType != ""
         && SideValid(config.source, false) && SideValid(config.destination, false))
        || (config.testType == "Drift Test" && config.threshold >= 0.0 && SideValid(config.source, true))
        || (config.testType == "Availability Test" && SideValid(config.source, true)))
  }

  /** `_extract_and_validate_form_data`: the extraction, then the policy. */
  function Validate(num: Numerics, toInt: string -> Option<int>, form: Form): (r: Result<Validation, string>)
    ensures Extract(num, toInt, form).Err? ==> r == Err(Extract(num, toInt, form).error)
    ensures Extract(num, toInt, form).Ok? ==> r == Check(Extract(num, toInt, form).value)
    ensures r.Err? <==> Extract(num, toInt, form).Err?
                        || NormalizedType(Get(form, "test_type", AggregationType)) in PowerBiTypes
    ensures r.Ok? ==> r.value.config.source == ExtractSide(form, "source")
                      && r.value.config.destination == ExtractSide(form, "destination")
    ensures r.Ok? ==> (r.value.errors == [] <==> Acceptable(r.value.config))
  {
    match Extract(num, toInt, form)
    case Err(e) => Err(e)
    case Ok(config) => Check(config)
  }

  /** The validator is laxer than the SQL builder in one place: a column-less
      COUNT passes validation but the builder rejects it. Every other side
      the validator accepts without custom SQL has a kind the builder takes. */
  lemma ValidSideBuilds(side: Side, skipDate: bool)
    requires SideValid(side, skipDate) && side.customSql == ""
    requires NormalizedKind(side.aggregationType) != "COUNT" || side.aggregationColumn != ""
    ensures SqlAggregationAccepted(side.aggregationType, side.aggregationColumn)
  {
    if NormalizedKind(side.aggregationType) != "COUNT" && NormalizedKind(side.aggregationType) != "COUNT(*)" {
      assert Strip(side.aggregationColumn) != "";
    }
  }

  /** The one kind of side where validation and the SQL builder disagree:
      a COUNT with no column passes validation and the builder rejects it.
      This holds for every test type: with the date check skipped (drift and
      availability tests), and with it applied (aggregation comparisons) as
      long as the date value is `CURRENT_DATE()` or a `YYYY-MM-DD` date. */
  lemma CountWithoutColumnSlipsThrough(side: Side, skipDate: bool)
    requires (side.connection == "" || side.connection in AllowedSources)
    requires side.customSql == "" && side.table != "" && side.dateColumn != ""
    requires skipDate || (side.dateValue != "" && (Upper(side.dateValue) == CurrentDate || IsStrptimeDate(side.dateValue)))
    requires NormalizedKind(side.aggregationType) == "COUNT" && side.aggregationColumn == ""
    ensures SideValid(side, skipDate) && !SqlAggregationAccepted(side.aggregationType, side.aggregationColumn)
  {
    CountIsNotCountStar();
    assert "COUNT" in ValidatorKinds;
  }

  lemma CountIsNotCountStar()
    ensures "COUNT" != "COUNT(*)"
  {
    assert |"COUNT"| != |"COUNT(*)"|;
  }
}
