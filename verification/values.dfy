/** The shapes shared by every layer of the engine: the Option/Result
    wrappers, the cell values a backend hands back, the tabular answer of an
    executor, and the PASS/FAIL/ERROR verdict. */
module Values {

  datatype Option<+T> = None | Some(value: T)

  /** A computation that either produced a value or raised; `:-` propagates
      the raise, as an uncaught Python exception would. */
  datatype Result<+T, +E> = Ok(value: T) | Err(error: E) {
    predicate IsFailure() {
      Err?
    }

    function PropagateFailure<U>(): Result<U, E>
      requires Err?
    {
      Err(error)
    }

    function Extract(): T
      requires Ok?
    {
      value
    }
  }

  /** One cell of a result frame. `Num` is anything `float()` accepts as a
      number (int, float, Decimal, numpy scalars); `Text` a string, which
      `float()` may or may not parse; `Other` a value `float()` refuses with
      a TypeError (a date, say), kept with its type name and its `str()`
      rendering. */
  datatype Value = Null | Num(x: real) | Text(s: string) | Other(typeName: string, shown: string)

  /** A pandas frame, row by row. */
  datatype Frame = Frame(rows: seq<seq<Value>>)

  /** What a backend call gives back: the rows, or the text of the
      exception it raised. */
  datatype Answer = Rows(frame: Frame) | Raised(error: string)

  /** The relational executor: connection name and query text. */
  type SqlBackend = (string, string) -> Answer

  /** The analytical (Power BI) executor: workspace id, dataset id, DAX text. */
  type DaxBackend = (string, string, string) -> Answer

  datatype Status = Pass | Fail | Error

  /** `df.iloc[0, 0]` when the frame has a row and a column, else `0`:
      no rows is a zero count, not a failure. */
  function FirstCell(f: Frame): (v: Value)
    ensures (|f.rows| == 0 || |f.rows[0]| == 0) ==> v == Num(0.0)
    ensures |f.rows| > 0 && |f.rows[0]| > 0 ==> v == f.rows[0][0]
  {
    if |f.rows| > 0 && |f.rows[0]| > 0 then f.rows[0][0] else Num(0.0)
  }
}
