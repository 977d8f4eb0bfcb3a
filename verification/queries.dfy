/** The query builders of `dq_core.py` and the SELECT guard of its executor:
    an aggregation spec becomes Snowflake SQL text or Power BI DAX text. */
module Queries {
  import opened Text
  import opened Values

  /** The connection entry the SQL builder reads: `db` (or Django's `NAME`)
      and `schema`. An empty string stands for a missing or empty key. */
  datatype DbConfig = DbConfig(db: string, name: string, schema: string)

  /** One side of a test as the builders see it; an empty string stands for
      an absent optional argument (`None` and `''` are both falsy). */
  datatype AggregationSpec = AggregationSpec(
    table: string,
    dateColumn: string,
    dateValue: string,
    aggregationType: string,
    aggregationColumn: string,
    groupBy: string,
    filters: string)

  /** The two `ValueError`s the SQL builder raises. */
  datatype BuildError = MissingLocation | InvalidAggregation(aggregationType: string)

  function BuildErrorText(e: BuildError): string {
    match e
    case MissingLocation => "Database config must include both 'db'/'NAME' and 'schema'."
    case InvalidAggregation(t) =>
      "Invalid aggregation_type '" + t + "' or missing aggregation_column for type '" + t + "'."
  }

  const CurrentDate := "CURRENT_DATE()"

  /** The date value names today: `CURRENT_DATE()` up to outer whitespace and case. */
  predicate IsCurrentDate(v: string) {
    Upper(Strip(v)) == CurrentDate
  }

  /** How a date value restricts the rows: not at all, to today, or to a
      literal `YYYY-MM-DD` date, which is spliced in as given. */
  datatype DateFilter = NoDate | Today | OnDate(literal: string)

  function ClassifyDate(v: string): (r: DateFilter)
    ensures r.NoDate? <==> v == ""
    ensures r.Today? <==> v != "" && IsCurrentDate(v)
    ensures r.OnDate? ==> r.literal == v
  {
    if v == "" then NoDate
    else if IsCurrentDate(v) then Today
    else OnDate(v)
  }

  /** The group-by list: the comma-separated pieces of `raw`, each stripped,
      the blank ones dropped. */
  function GroupColumns(raw: string): (r: seq<string>)
    ensures forall k :: 0 <= k < |r| ==> Trimmed(r[k]) && Lacks(r[k], ',')
    ensures r == [] <==> AllBlank(Split(raw, ','))
    ensures forall c :: c in r <==> FromPiece(c, Split(raw, ','))
  {
    StrippedPiecesMembers(Split(raw, ','));
    StrippedPieces(Split(raw, ','))
  }

  predicate AllBlank(pieces: seq<string>) {
    forall k :: 0 <= k < |pieces| ==> Blank(pieces[k])
  }

  /** No piece holds a comma. */
  predicate CommaFree(pieces: seq<string>) {
    forall k :: 0 <= k < |pieces| ==> Lacks(pieces[k], ',')
  }

  /** Every piece is a non-empty, stripped, comma-free column name. */
  predicate CleanColumns(columns: seq<string>) {
    forall k :: 0 <= k < |columns| ==> Trimmed(columns[k]) && Lacks(columns[k], ',')
  }

  function StrippedPieces(pieces: seq<string>): (r: seq<string>)
    requires CommaFree(pieces)
    ensures CleanColumns(r)
    ensures r == [] <==> AllBlank(pieces)
  {
    if pieces == [] then []
    else
      var head := Strip(pieces[0]);
      PiecesCons(pieces);
      var rest := StrippedPieces(pieces[1..]);
      StripLacks(pieces[0], ',');
      if head != "" then CleanCons(head, rest); [head] + rest else rest
  }

  /** The pieces are taken left to right: one more piece adds its stripped
      text at the end when it is not blank, and nothing when it is. */
  lemma StrippedPiecesSnoc(pieces: seq<string>, p: string)
    requires CommaFree(pieces) && Lacks(p, ',')
    ensures CommaFree(pieces + [p])
    ensures StrippedPieces(pieces + [p]) == StrippedPieces(pieces) + (if Blank(p) then [] else [Strip(p)])
  {
    StrippedPiecesAppend(pieces, [p]);
  }

  lemma {:induction false} StrippedPiecesAppend(a: seq<string>, b: seq<string>)
    requires CommaFree(a) && CommaFree(b)
    ensures CommaFree(a + b)
    ensures StrippedPieces(a + b) == StrippedPieces(a) + StrippedPieces(b)
    decreases |a|
  {
    assert CommaFree(a + b) by {
      forall k | 0 <= k < |a + b| ensures Lacks((a + b)[k], ',') {
        if k < |a| { assert (a + b)[k] == a[k]; } else { assert (a + b)[k] == b[k - |a|]; }
      }
    }
    if a == [] {
      assert a + b == b;
    } else {
      PiecesCons(a);
      assert (a + b)[0] == a[0];
      assert (a + b)[1..] == a[1..] + b;
      StrippedPiecesAppend(a[1..], b);
    }
  }

  /** Piece `p` is not blank and gives column `c`. */
  predicate Gives(p: string, c: string) {
    !Blank(p) && c == Strip(p)
  }

  /** `c` is the stripped text of some non-blank piece. */
  predicate FromPiece(c: string, pieces: seq<string>) {
    exists j :: 0 <= j < |pieces| && Gives(pieces[j], c)
  }

  lemma FromPieceCons(c: string, pieces: seq<string>)
    requires pieces != []
    ensures FromPiece(c, pieces) <==> Gives(pieces[0], c) || FromPiece(c, pieces[1..])
  {
    if FromPiece(c, pieces) {
      var j :| 0 <= j < |pieces| && Gives(pieces[j], c);
      if j > 0 {
        FromPieceShift(c, pieces, j);
      }
    }
    if FromPiece(c, pieces[1..]) {
      var j :| 0 <= j < |pieces[1..]| && Gives(pieces[1..][j], c);
      FromPieceUnshift(c, pieces, j);
    }
  }

  lemma FromPieceShift(c: string, pieces: seq<string>, j: nat)
    requires 0 < j < |pieces| && Gives(pieces[j], c)
    ensures FromPiece(c, pieces[1..])
  {
    var tail := pieces[1..];
    assert tail[j - 1] == pieces[j];
  }

  lemma FromPieceUnshift(c: string, pieces: seq<string>, j: nat)
    requires j + 1 < |pieces| && Gives(pieces[1..][j], c)
    ensures FromPiece(c, pieces)
  {
    assert pieces[1..][j] == pieces[j + 1];
  }

  /** The columns are exactly the stripped non-blank pieces: every column is
      one of them, and every non-blank piece gives a column. */
  lemma {:induction false} StrippedPiecesMembers(pieces: seq<string>)
    requires CommaFree(pieces)
    ensures forall c :: c in StrippedPieces(pieces) <==> FromPiece(c, pieces)
    decreases |pieces|
  {
    if pieces != [] {
      PiecesCons(pieces);
      StrippedPiecesMembers(pieces[1..]);
      forall c ensures c in StrippedPieces(pieces) <==> FromPiece(c, pieces) {
        FromPieceCons(c, pieces);
      }
    }
  }

  lemma PiecesCons(pieces: seq<string>)
    requires pieces != []
    ensures AllBlank(pieces) <==> Blank(pieces[0]) && AllBlank(pieces[1..])
    ensures CommaFree(pieces) ==> CommaFree(pieces[1..]) && Lacks(pieces[0], ',')
  {
    if Blank(pieces[0]) && AllBlank(pieces[1..]) {
      forall k | 0 <= k < |pieces| ensures Blank(pieces[k]) {
        if k > 0 { assert pieces[k] == pieces[1..][k - 1]; }
      }
    }
  }

  lemma CleanCons(head: string, rest: seq<string>)
    requires Trimmed(head) && Lacks(head, ',') && CleanColumns(rest)
    ensures CleanColumns([head] + rest)
  {
    forall k | 0 <= k < |[head] + rest| ensures Trimmed(([head] + rest)[k]) && Lacks(([head] + rest)[k], ',') {
      if k > 0 { assert ([head] + rest)[k] == rest[k - 1]; }
    }
  }

  // ---------------------------------------------------------------- SQL

  function Database(cfg: DbConfig): string {
    if cfg.db != "" then cfg.db else cfg.name
  }

  predicate HasLocation(cfg: DbConfig) {
    Database(cfg) != "" && cfg.schema != ""
  }

  function TableRef(cfg: DbConfig, table: string): string {
    Database(cfg) + "." + cfg.schema + "." + table
  }

  const SqlColumnKinds: set<string> := {"COUNT", "SUM", "AVG", "MIN", "MAX"}

  function NormalizedKind(kind: string): string {
    Upper(Strip(kind))
  }

  /** The kinds the SQL builder turns into a select item: `COUNT(*)` on its
      own, the five column aggregates only with a column. */
  predicate SqlAggregationAccepted(kind: string, column: string) {
    NormalizedKind(kind) == "COUNT(*)" || (NormalizedKind(kind) in SqlColumnKinds && column != "")
  }

  function SqlAggregate(kind: string, column: string): string
    requires SqlAggregationAccepted(kind, column)
  {
    if NormalizedKind(kind) == "COUNT(*)" then "COUNT(*)"
    else NormalizedKind(kind) + "(" + column + ")"
  }

  function SqlDatePredicate(dateColumn: string, f: DateFilter): string {
    match f
    case NoDate => ""
    case Today => "TO_DATE(" + dateColumn + ") = CURRENT_DATE()"
    case OnDate(v) => "TO_DATE(" + dateColumn + ") = TO_DATE('" + v + "', 'YYYY-MM-DD')"
  }

  /** The WHERE clause: present exactly when there is a date predicate or an
      extra filter; the filter is parenthesised and comes last. */
  function SqlWhere(datePredicate: string, filters: string): (r: string)
    ensures r == "" <==> datePredicate == "" && filters == ""
    ensures r != "" ==> StartsWith(r, "WHERE ")
    ensures datePredicate != "" ==> StartsWith(r, "WHERE " + datePredicate)
    ensures filters != "" ==> EndsWith(r, "(" + filters + ")")
  {
    var clauses := (if datePredicate != "" then [datePredicate] else [])
                   + (if filters != "" then ["(" + filters + ")"] else []);
    if clauses == [] then ""
    else
      assert |clauses| == 2 ==> Join(clauses, " AND ") == clauses[0] + " AND " + clauses[1] by {
        if |clauses| == 2 { assert clauses[1..] == [clauses[1]]; }
      }
      "WHERE " + Join(clauses, " AND ")
  }

  /** The GROUP BY clause: empty without columns, otherwise every column,
      comma-separated in the given order. */
  function SqlGroupBy(columns: seq<string>): (r: string)
    ensures r == "" <==> columns == []
    ensures columns != [] ==> r == "GROUP BY " + Join(columns, ", ")
    ensures forall k :: 0 <= k < |columns| ==> Contains(r, columns[k])
  {
    if columns == [] then ""
    else
      assert forall k :: 0 <= k < |columns| ==> Contains("GROUP BY " + Join(columns, ", "), columns[k]) by {
        forall k | 0 <= k < |columns| ensures Contains("GROUP BY " + Join(columns, ", "), columns[k]) {
          JoinContains(columns, ", ", k);
          ContainsFront("GROUP BY ", Join(columns, ", "), columns[k]);
        }
      }
      "GROUP BY " + Join(columns, ", ")
  }

  /** `build_dynamic_aggregation_query`. The location is checked before the
      aggregation kind. The select list splices the group-by text as given,
      while GROUP BY lists the cleaned columns. */
  function BuildSql(cfg: DbConfig, spec: AggregationSpec): (r: Result<string, BuildError>)
    ensures r.Ok? <==> HasLocation(cfg) && SqlAggregationAccepted(spec.aggregationType, spec.aggregationColumn)
    ensures !HasLocation(cfg) ==> r == Err(MissingLocation)
    ensures (HasLocation(cfg) && !SqlAggregationAccepted(spec.aggregationType, spec.aggregationColumn))
              ==> r == Err(InvalidAggregation(spec.aggregationType))
    ensures r.Ok? ==> StartsWith(r.value, "SELECT " + SqlAggregate(spec.aggregationType, spec.aggregationColumn) + " ")
    ensures r.Ok? ==> EndsWith(r.value, SqlGroupBy(GroupColumns(spec.groupBy)) + ";")
    ensures r.Ok? ==> Contains(r.value, "FROM " + TableRef(cfg, spec.table) + " "
                                 + SqlWhere(SqlDatePredicate(spec.dateColumn, ClassifyDate(spec.dateValue)), spec.filters) + " ")
    ensures r.Ok? && spec.groupBy != "" ==> Contains(r.value, ", " + spec.groupBy)
  {
    if !HasLocation(cfg) then Err(MissingLocation)
    else if !SqlAggregationAccepted(spec.aggregationType, spec.aggregationColumn) then
      Err(InvalidAggregation(spec.aggregationType))
    else
      var agg := SqlAggregate(spec.aggregationType, spec.aggregationColumn);
      var where := SqlWhere(SqlDatePredicate(spec.dateColumn, ClassifyDate(spec.dateValue)), spec.filters);
      var groupBy := SqlGroupBy(GroupColumns(spec.groupBy));
      SqlAssembly(agg, spec.groupBy, TableRef(cfg, spec.table), where, groupBy);
      Ok(AssembleSql(agg, spec.groupBy, TableRef(cfg, spec.table), where, groupBy))
  }

  /** The f-string of the SQL builder: single spaces between the parts, so an
      empty part leaves a double space behind. */
  function AssembleSql(agg: string, groupByRaw: string, tableRef: string, where: string, groupBy: string): string {
    var head := "SELECT " + agg + " ";
    var extra := if groupByRaw != "" then ", " + groupByRaw else "";
    var from := "FROM " + tableRef + " " + where + " ";
    head + extra + " " + from + (groupBy + ";")
  }

  lemma SqlAssembly(agg: string, groupByRaw: string, tableRef: string, where: string, groupBy: string)
    ensures StartsWith(AssembleSql(agg, groupByRaw, tableRef, where, groupBy), "SELECT " + agg + " ")
    ensures EndsWith(AssembleSql(agg, groupByRaw, tableRef, where, groupBy), groupBy + ";")
    ensures Contains(AssembleSql(agg, groupByRaw, tableRef, where, groupBy), "FROM " + tableRef + " " + where + " ")
    ensures groupByRaw != "" ==> Contains(AssembleSql(agg, groupByRaw, tableRef, where, groupBy), ", " + groupByRaw)
  {
    var head := "SELECT " + agg + " ";
    var extra := if groupByRaw != "" then ", " + groupByRaw else "";
    var from := "FROM " + tableRef + " " + where + " ";
    var tail := groupBy + ";";
    var front := head + extra + " " + from;
    StartsWithConcat(front, tail);
    PrefixOfPrefix(front + tail, head + extra + " ", from);
    PrefixOfPrefix(front + tail, head + extra, " ");
    PrefixOfPrefix(front + tail, head, extra);
    EndsWithConcat(front, tail);
    ContainsMiddle(head + extra + " ", from, tail);
    if groupByRaw != "" {
      ContainsEnd(head, extra);
      ContainsGrow(head + extra, " ", extra);
      ContainsGrow(head + extra + " ", from, extra);
      ContainsGrow(front, tail, extra);
    }
  }

  // ------------------------------------------------------- executor guard

  /** The executor's guard: the upper-cased, stripped text starts with SELECT. */
  predicate SelectShaped(query: string) {
    StartsWith(Strip(Upper(query)), "SELECT")
  }

  const SelectOnlyMessage := "Only SELECT queries are allowed for data retrieval."

  /** What `execute_query_to_dataframe` returns: a frame, or an (always
      non-empty, hence truthy) error text beside an empty frame. */
  datatype Execution = Fetched(frame: Frame) | ExecFailed(message: string)

  /** `execute_query_to_dataframe`: a query that is not SELECT-shaped is
      refused before the backend sees it; a backend exception comes back as
      an error text instead of propagating. */
  function ExecuteSql(backend: SqlBackend, connection: string, query: string): (r: Execution)
    ensures !SelectShaped(query) ==> r == ExecFailed(SelectOnlyMessage)
    ensures SelectShaped(query) ==> (r.Fetched? <==> backend(connection, query).Rows?)
    ensures SelectShaped(query) && r.Fetched? ==> r.frame == backend(connection, query).frame
    ensures r.ExecFailed? ==> r.message != ""
  {
    if !SelectShaped(query) then ExecFailed(SelectOnlyMessage)
    else
      match backend(connection, query)
      case Rows(f) => Fetched(f)
      case Raised(e) => ExecFailed("SQL execution error: " + e)
  }

  /** Defence in depth agrees with the builder: every query the SQL builder
      produces passes the executor's SELECT guard. */
  lemma BuiltSqlIsSelectShaped(cfg: DbConfig, spec: AggregationSpec)
    requires BuildSql(cfg, spec).Ok?
    ensures SelectShaped(BuildSql(cfg, spec).value)
  {
    var q := BuildSql(cfg, spec).value;
    var agg := SqlAggregate(spec.aggregationType, spec.aggregationColumn);
    PrefixOfPrefix(q, "SELECT " + agg, " ");
    PrefixOfPrefix(q, "SELECT ", agg);
    SelectWordPrefix(q);
    SemicolonEnded(q, SqlGroupBy(GroupColumns(spec.groupBy)));
    SelectPrefixed(q);
  }

  lemma SelectWordPrefix(q: string)
    requires StartsWith(q, "SELECT ")
    ensures StartsWith(q, "SELECT")
  {
    assert q[..6] == q[..7][..6];
  }

  lemma SemicolonEnded(q: string, body: string)
    requires EndsWith(q, body + ";")
    ensures q != [] && q[|q| - 1] == ';'
  {
    assert q[|q| - 1] == (body + ";")[|body|];
  }

  /** A text that begins with SELECT and ends with `;` passes the guard. */
  lemma SelectPrefixed(q: string)
    requires StartsWith(q, "SELECT")
    requires q != [] && q[|q| - 1] == ';'
    ensures SelectShaped(q)
  {
    UpperKeepsPrefix(q, "SELECT");
    var u := Upper(q);
    assert u[0] == UpperChar(q[0]) == 'S';
    assert u[|u| - 1] == UpperChar(q[|q| - 1]) == ';';
    StripKeeps(u);
  }

  // ---------------------------------------------------------------- DAX

  /** DAX quoting: a name holding a space is wrapped in single quotes. */
  function QuoteName(n: string): (r: string)
    ensures HasBlankChar(n) ==> r == "'" + n + "'"
    ensures !HasBlankChar(n) ==> r == n
  {
    if HasBlankChar(n) then "'" + n + "'" else n
  }

  const DaxColumnKinds: set<string> := {"SUM", "AVG", "MIN", "MAX"}

  /** The DAX value expression; every kind without a column form (COUNT,
      COUNT(*), an unknown kind, a missing column) counts rows instead. */
  function DaxAggregate(kind: string, column: string, table: string): (r: string)
    ensures !(NormalizedKind(kind) in DaxColumnKinds && column != "") ==> r == "COUNTROWS(" + QuoteName(table) + ")"
    ensures (NormalizedKind(kind) in DaxColumnKinds && column != "")
              ==> r == NormalizedKind(kind) + "(" + QuoteName(table) + "[" + QuoteName(column) + "])"
  {
    var k := NormalizedKind(kind);
    if k == "COUNT" then "COUNTROWS(" + QuoteName(table) + ")"
    else if k in DaxColumnKinds && column != "" then k + "(" + QuoteName(table) + "[" + QuoteName(column) + "])"
    else "COUNTROWS(" + QuoteName(table) + ")"
  }

  function DaxDateFilter(table: string, dateColumn: string, dateValue: string): string {
    if dateColumn == "" then ""
    else
      match ClassifyDate(dateValue)
      case NoDate => ""
      case Today => QuoteName(table) + "[" + QuoteName(dateColumn) + "] = TODAY()"
      case OnDate(v) => QuoteName(table) + "[" + QuoteName(dateColumn) + "] = DATEVALUE(\"" + v + "\")"
  }

  function DaxFilter(spec: AggregationSpec): string {
    var date := DaxDateFilter(spec.table, spec.dateColumn, spec.dateValue);
    Join((if date != "" then [date] else []) + (if spec.filters != "" then [spec.filters] else []), " && ")
  }

  function QuotedList(columns: seq<string>): seq<string> {
    seq(|columns|, k requires 0 <= k < |columns| => "\"" + columns[k] + "\"")
  }

  const Pad12 := "            "
  const Pad16 := "                "
  const Pad20 := "                    "

  /** Each of the four triple-quoted templates opens with a newline and 16
      spaces and closes with a newline and 12 spaces around the query text;
      `.strip()` takes that padding off again. */
  const TemplateOpen := "\n" + Pad16
  const TemplateClose := "\n" + Pad12

  /** The line every generated query opens with. */
  const DaxPreamble := "EVALUATE\n" + Pad16

  /** The text of a template between its padding: the preamble, then the
      grouped or the one-row shape. */
  function DaxBody(tq: string, agg: string, groups: string, filter: string): (r: string)
    ensures StartsWith(r, DaxPreamble)
    ensures r[|r| - 1] == ')'
  {
    var shape := DaxShape(tq, agg, groups, filter);
    StartsWithConcat(DaxPreamble, shape);
    DaxPreamble + shape
  }

  /** What follows the preamble: SUMMARIZECOLUMNS over the group columns when
      there are any, otherwise a VAR/RETURN block ending in a one-row ROW. */
  function DaxShape(tq: string, agg: string, groups: string, filter: string): (r: string)
    ensures r != [] && r[|r| - 1] == ')'
    ensures groups != "" <==> StartsWith(r, "SUMMARIZECOLUMNS(")
    ensures groups == "" ==> EndsWith(r, "ROW(\"Value\", __value)")
  {
    if groups != "" then
      var args := SummarizeArgs(tq, agg, groups, filter);
      StartsWithConcat("SUMMARIZECOLUMNS(", args);
      "SUMMARIZECOLUMNS(" + args
    else
      var block := ValueBlock(agg, filter);
      EndsWithConcat(block, "ROW(\"Value\", __value)");
      block + "ROW(\"Value\", __value)"
  }

  /** The arguments of SUMMARIZECOLUMNS: the group columns, the FILTER line
      when there is a filter, and the named aggregate. */
  function SummarizeArgs(tq: string, agg: string, groups: string, filter: string): (r: string)
    ensures r != [] && r[|r| - 1] == ')'
  {
    var filterLine := if filter != "" then Pad20 + "FILTER(" + tq + ", " + filter + "),\n" else "";
    var middle := ",\n" + filterLine + Pad20 + "\"Value\", ";
    "\n" + Pad20 + groups + (middle + agg + ("\n" + Pad16 + ")"))
  }

  /** The VAR/RETURN block of the ungrouped shape; with a filter the
      aggregate is wrapped in CALCULATE. */
  function ValueBlock(agg: string, filter: string): (r: string)
    ensures r != [] && r[0] == 'V'
  {
    var value := if filter != "" then "CALCULATE(" + agg + ", " + filter + ")" else agg;
    var rest := value + "\n" + Pad16 + "RETURN\n" + Pad16;
    StartsWithConcat("VAR __value = ", rest);
    "VAR __value = " + rest
  }

  /** The generated text holds the aggregate, the quoted group columns (when
      there are any) and the filter (when there is one). */
  lemma DaxBodyContents(tq: string, agg: string, groups: string, filter: string)
    ensures Contains(DaxBody(tq, agg, groups, filter), agg)
    ensures groups != "" ==> Contains(DaxBody(tq, agg, groups, filter), groups)
    ensures filter != "" ==> Contains(DaxBody(tq, agg, groups, filter), filter)
  {
    var shape := DaxShape(tq, agg, groups, filter);
    var needles := [agg] + (if groups != "" then [groups] else []) + (if filter != "" then [filter] else []);
    forall n | n in needles ensures Contains(shape, n) {
      if groups != "" {
        SummarizeArgsContents(tq, agg, groups, filter);
        ContainsFront("SUMMARIZECOLUMNS(", SummarizeArgs(tq, agg, groups, filter), n);
      } else {
        ValueBlockContents(agg, filter);
        ContainsGrow(ValueBlock(agg, filter), "ROW(\"Value\", __value)", n);
      }
    }
    forall n | n in needles ensures Contains(DaxBody(tq, agg, groups, filter), n) {
      ContainsFront(DaxPreamble, shape, n);
    }
  }

  lemma SummarizeArgsContents(tq: string, agg: string, groups: string, filter: string)
    ensures Contains(SummarizeArgs(tq, agg, groups, filter), agg)
    ensures Contains(SummarizeArgs(tq, agg, groups, filter), groups)
    ensures filter != "" ==> Contains(SummarizeArgs(tq, agg, groups, filter), filter)
  {
    var filterLine := if filter != "" then Pad20 + "FILTER(" + tq + ", " + filter + "),\n" else "";
    var middle := ",\n" + filterLine + Pad20 + "\"Value\", ";
    var back := "\n" + Pad16 + ")";
    var front := "\n" + Pad20;
    ContainsMiddle(front, groups, middle + agg + back);
    ContainsMiddle(middle, agg, back);
    ContainsFront(front + groups, middle + agg + back, agg);
    if filter != "" {
      ContainsMiddle(Pad20 + "FILTER(" + tq + ", ", filter, "),\n");
      ContainsFront(",\n", filterLine, filter);
      ContainsGrow(",\n" + filterLine, Pad20, filter);
      ContainsGrow(",\n" + filterLine + Pad20, "\"Value\", ", filter);
      ContainsGrow(middle, agg, filter);
      ContainsGrow(middle + agg, back, filter);
      ContainsFront(front + groups, middle + agg + back, filter);
    }
  }

  lemma ValueBlockContents(agg: string, filter: string)
    ensures Contains(ValueBlock(agg, filter), agg)
    ensures filter != "" ==> Contains(ValueBlock(agg, filter), filter)
  {
    var value := if filter != "" then "CALCULATE(" + agg + ", " + filter + ")" else agg;
    var tail := "\n" + Pad16 + "RETURN\n" + Pad16;
    assert ValueBlock(agg, filter) == "VAR __value = " + (value + tail);
    if filter != "" {
      ContainsMiddle("CALCULATE(", agg, ", " + filter + ")");
      assert value == "CALCULATE(" + agg + (", " + filter + ")");
      ContainsMiddle("CALCULATE(" + agg + ", ", filter, ")");
    } else {
      assert value[..|agg|] == agg;
    }
    StartsWithConcat(value, tail);
    ContainsTrans(value + tail, value, agg);
    ContainsFront("VAR __value = ", value + tail, agg);
    if filter != "" {
      ContainsTrans(value + tail, value, filter);
      ContainsFront("VAR __value = ", value + tail, filter);
    }
  }

  /** `build_dynamic_dax_query_powerbi`. A non-blank custom query wins and is
      returned stripped, whatever the other fields say. Otherwise the builder
      never fails: it emits SUMMARIZECOLUMNS when there are group-by columns
      and a one-row ROW("Value", ...) query when there are none. */
  function BuildDax(spec: AggregationSpec, customDax: string): (r: string)
    ensures !Blank(customDax) ==> r == Strip(customDax)
    ensures Blank(customDax) ==> StartsWith(r, DaxPreamble)
    ensures Blank(customDax) ==>
              (GroupColumns(spec.groupBy) != [] <==> StartsWith(r, DaxPreamble + "SUMMARIZECOLUMNS("))
    ensures Blank(customDax) && GroupColumns(spec.groupBy) == [] ==> EndsWith(r, "ROW(\"Value\", __value)")
  {
    if !Blank(customDax) then Strip(customDax)
    else
      var tq := QuoteName(spec.table);
      var agg := DaxAggregate(spec.aggregationType, spec.aggregationColumn, spec.table);
      var cols := GroupColumns(spec.groupBy);
      var groups := Join(QuotedList(cols), ", ");
      var body := DaxBody(tq, agg, groups, DaxFilter(spec));
      StripTemplate(body);
      QuotedJoinEmpty(cols);
      DaxBodyShape(tq, agg, groups, DaxFilter(spec));
      Strip(TemplateOpen + body + TemplateClose)
  }

  /** With no custom text, the generated query holds the aggregate, every
      group-by column in double quotes, the date predicate when there is
      one, and the extra filter as given. */
  lemma BuildDaxContents(spec: AggregationSpec, customDax: string)
    requires Blank(customDax)
    ensures Contains(BuildDax(spec, customDax), DaxAggregate(spec.aggregationType, spec.aggregationColumn, spec.table))
    ensures forall k :: 0 <= k < |GroupColumns(spec.groupBy)| ==>
              Contains(BuildDax(spec, customDax), "\"" + GroupColumns(spec.groupBy)[k] + "\"")
    ensures DaxDateFilter(spec.table, spec.dateColumn, spec.dateValue) != "" ==>
              Contains(BuildDax(spec, customDax), DaxDateFilter(spec.table, spec.dateColumn, spec.dateValue))
    ensures spec.filters != "" ==> Contains(BuildDax(spec, customDax), spec.filters)
  {
    var agg := DaxAggregate(spec.aggregationType, spec.aggregationColumn, spec.table);
    var cols := GroupColumns(spec.groupBy);
    var groups := Join(QuotedList(cols), ", ");
    var filter := DaxFilter(spec);
    var r := BuildDax(spec, customDax);
    BuildDaxBody(spec, customDax);
    DaxBodyContents(QuoteName(spec.table), agg, groups, filter);
    QuotedGroups(cols);
    forall k | 0 <= k < |cols| ensures Contains(r, "\"" + cols[k] + "\"") {
      ContainsTrans(r, groups, "\"" + cols[k] + "\"");
    }
    var date := DaxDateFilter(spec.table, spec.dateColumn, spec.dateValue);
    DaxFilterContents(spec);
    if date != "" {
      ContainsLength(filter, date);
      ContainsTrans(r, filter, date);
    }
    if spec.filters != "" {
      ContainsLength(filter, spec.filters);
      ContainsTrans(r, filter, spec.filters);
    }
  }

  /** Without custom text, the builder's answer is the template text itself. */
  lemma BuildDaxBody(spec: AggregationSpec, customDax: string)
    requires Blank(customDax)
    ensures BuildDax(spec, customDax)
            == DaxBody(QuoteName(spec.table), DaxAggregate(spec.aggregationType, spec.aggregationColumn, spec.table),
                       Join(QuotedList(GroupColumns(spec.groupBy)), ", "), DaxFilter(spec))
  {
    StripTemplate(DaxBody(QuoteName(spec.table), DaxAggregate(spec.aggregationType, spec.aggregationColumn, spec.table),
                          Join(QuotedList(GroupColumns(spec.groupBy)), ", "), DaxFilter(spec)));
  }

  /** The quoted group list holds every column in double quotes. */
  lemma QuotedGroups(cols: seq<string>)
    ensures Join(QuotedList(cols), ", ") == "" <==> cols == []
    ensures forall k :: 0 <= k < |cols| ==> Contains(Join(QuotedList(cols), ", "), "\"" + cols[k] + "\"")
  {
    QuotedJoinEmpty(cols);
    forall k | 0 <= k < |cols| ensures Contains(Join(QuotedList(cols), ", "), "\"" + cols[k] + "\"") {
      JoinContains(QuotedList(cols), ", ", k);
    }
  }

  /** The DAX filter holds the date predicate and the extra filter. */
  lemma DaxFilterContents(spec: AggregationSpec)
    ensures DaxDateFilter(spec.table, spec.dateColumn, spec.dateValue) != "" ==>
              Contains(DaxFilter(spec), DaxDateFilter(spec.table, spec.dateColumn, spec.dateValue))
    ensures spec.filters != "" ==> Contains(DaxFilter(spec), spec.filters)
  {
    var date := DaxDateFilter(spec.table, spec.dateColumn, spec.dateValue);
    var parts := (if date != "" then [date] else []) + (if spec.filters != "" then [spec.filters] else []);
    if date != "" {
      assert parts[0] == date;
      JoinContains(parts, " && ", 0);
    }
    if spec.filters != "" {
      assert parts[|parts| - 1] == spec.filters;
      JoinContains(parts, " && ", |parts| - 1);
    }
  }

  lemma StripTemplate(body: string)
    requires StartsWith(body, DaxPreamble) && body[|body| - 1] == ')'
    ensures Strip(TemplateOpen + body + TemplateClose) == body
  {
    assert body[0] == body[..|DaxPreamble|][0] == 'E';
    StripPadded(TemplateOpen, body, TemplateClose);
  }

  /** The two query shapes differ right after the common preamble. */
  lemma DaxBodyShape(tq: string, agg: string, groups: string, filter: string)
    ensures groups != "" <==> StartsWith(DaxBody(tq, agg, groups, filter), DaxPreamble + "SUMMARIZECOLUMNS(")
    ensures groups == "" ==> EndsWith(DaxBody(tq, agg, groups, filter), "ROW(\"Value\", __value)")
  {
    var shape := DaxShape(tq, agg, groups, filter);
    PrefixCancel(DaxPreamble, shape, "SUMMARIZECOLUMNS(");
    if groups == "" {
      EndsWithFront(DaxPreamble, shape, "ROW(\"Value\", __value)");
    }
  }

  /** The quoted group-by text is empty exactly when there are no columns. */
  lemma QuotedJoinEmpty(cols: seq<string>)
    ensures Join(QuotedList(cols), ", ") == "" <==> cols == []
  {
    if cols != [] {
      var q := QuotedList(cols);
      if |cols| == 1 {
        assert Join(q, ", ") == q[0];
      }
      assert |Join(q, ", ")| >= |q[0]| by {
        if |q| > 1 { assert Join(q, ", ") == q[0] + ", " + Join(q[1..], ", "); }
      }
    }
  }

  /** Stripping blank padding around a text with non-blank ends leaves the text. */
  lemma StripPadded(front: string, s: string, back: string)
    requires Blank(front) && Blank(back)
    requires s != [] && !IsSpace(s[0]) && !IsSpace(s[|s| - 1])
    ensures Strip(front + s + back) == s
  {
    TrimStartPadded(front, s + back);
    assert TrimStart(front + s + back) == s + back by {
      assert front + s + back == front + (s + back);
    }
    TrimEndPadded(s, back);
  }

  lemma {:induction false} TrimStartPadded(front: string, s: string)
    requires Blank(front)
    requires s != [] && !IsSpace(s[0])
    ensures TrimStart(front + s) == s
    decreases |front|
  {
    if front != [] {
      var t := front + s;
      assert t[0] == front[0];
      assert t[1..] == front[1..] + s;
      assert Blank(front[1..]) by {
        forall i | 0 <= i < |front[1..]| ensures IsSpace(front[1..][i]) {
          assert front[1..][i] == front[i + 1];
        }
      }
      TrimStartPadded(front[1..], s);
      assert TrimStart(t) == TrimStart(t[1..]);
    } else {
      assert front + s == s;
    }
  }

  lemma {:induction false} TrimEndPadded(s: string, back: string)
    requires Blank(back)
    requires s != [] && !IsSpace(s[|s| - 1])
    ensures TrimEnd(s + back) == s
    decreases |back|
  {
    if back != [] {
      var t := s + back;
      var b := back[..|back| - 1];
      assert t[|t| - 1] == back[|back| - 1];
      assert t[..|t| - 1] == s + b;
      assert Blank(b) by {
        forall i | 0 <= i < |b| ensures IsSpace(b[i]) {
          assert b[i] == back[i];
        }
      }
      TrimEndPadded(s, b);
      assert TrimEnd(t) == TrimEnd(t[..|t| - 1]);
    } else {
      assert s + back == s;
    }
  }
}
