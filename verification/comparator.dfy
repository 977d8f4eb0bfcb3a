/** `TestCaseProcessor._perform_comparison`: the verdict on a source value
    against a destination value, under an absolute or a percentage
    tolerance, with a trimmed-text fallback for values `float()` cannot
    read. */
module Comparator {
  import opened Text
  import opened Values

  /** The two numeric primitives the comparator leans on: `float()` on a
      string (None when it raises ValueError) and `str()` on a float. */
  datatype Numerics = Numerics(parse: string -> Option<real>, show: real -> string)

  /** What `float(v)` does to one cell. */
  datatype Conversion = Converted(x: real) | ValueFault | TypeFault(message: string)

  /** The `difference` slot of a result: None, a number, `float('inf')`, or
      the text "N/A". */
  datatype Difference = NoDifference | Amount(amount: real) | Infinite | NotApplicable

  /** The four-tuple `(status, message, test_outcome, difference)`. */
  datatype Comparison = Comparison(status: Status, message: string, outcome: Status, difference: Difference)

  const NoneMessage := "One or both queries returned no comparable result (value is None)."
  const InvalidTypeMessage := "Invalid threshold type configured."
  const IdenticalMessage := "Values are identical (non-numeric comparison)."

  function Abs(x: real): (r: real)
    ensures r >= 0.0 && (r == x || r == -x)
  {
    if x < 0.0 then -x else x
  }

  /** `float(v)`: numbers convert, strings convert or raise ValueError, and
      anything else (None included) raises TypeError. */
  function ToFloat(num: Numerics, v: Value): (r: Conversion)
    ensures v.Num? ==> r == Converted(v.x)
    ensures v.Text? ==> (r.Converted? <==> num.parse(v.s).Some?)
    ensures v.Text? ==> !r.TypeFault?
    ensures (v.Null? || v.Other?) ==> r.TypeFault?
  {
    match v
    case Null => TypeFault("float() argument must be a string or a real number, not 'NoneType'")
    case Num(x) => Converted(x)
    case Text(s) => (match num.parse(s) case Some(x) => Converted(x) case None => ValueFault)
    case Other(typeName, _) => TypeFault("float() argument must be a string or a real number, not '" + typeName + "'")
  }

  /** `str(v)`. */
  function Render(num: Numerics, v: Value): string {
    match v
    case Null => "None"
    case Num(x) => num.show(x)
    case Text(s) => s
    case Other(_, shown) => shown
  }

  /** How the two `float()` calls of the `try` block end: both succeed, one
      raises ValueError (the source is converted first, so a source
      ValueError hides whatever the destination would raise), or one raises
      something else. */
  datatype Reading = Numbers(s: real, d: real) | NotNumeric | Unexpected(message: string)

  function Read(num: Numerics, source: Value, destination: Value): (r: Reading)
    ensures r.Numbers? <==> ToFloat(num, source).Converted? && ToFloat(num, destination).Converted?
    ensures r.Numbers? ==> r.s == ToFloat(num, source).x && r.d == ToFloat(num, destination).x
    ensures r.NotNumeric? <==> ToFloat(num, source).ValueFault?
                               || (ToFloat(num, source).Converted? && ToFloat(num, destination).ValueFault?)
  {
    match ToFloat(num, source)
    case ValueFault => NotNumeric
    case TypeFault(e) => Unexpected(e)
    case Converted(s) =>
      match ToFloat(num, destination)
      case ValueFault => NotNumeric
      case TypeFault(e) => Unexpected(e)
      case Converted(d) => Numbers(s, d)
  }

  /** The tolerance rule, stated without division: an absolute gap within the
      threshold, or a gap within `threshold` percent of a non-zero source; a
      zero source tolerates only a zero destination. */
  predicate Tolerated(s: real, d: real, threshold: real, thresholdType: string) {
    (thresholdType == "ABSOLUTE" && Abs(s - d) <= threshold)
    || (thresholdType == "PERCENTAGE" && s == 0.0 && d == 0.0)
    || (thresholdType == "PERCENTAGE" && s != 0.0 && Abs(s - d) * 100.0 <= threshold * Abs(s))
  }

  function Verdict(num: Numerics, pass: bool, detail: string, difference: Difference, s: real, d: real): (c: Comparison)
    ensures c.status == c.outcome && c.difference == difference
    ensures c.status == Pass <==> pass
    ensures c.status != Error
  {
    if pass then Comparison(Pass, "Test Passed. " + detail, Pass, difference)
    else Comparison(Fail, "Test Failed. " + detail + " Source: " + num.show(s) + ", Dest: " + num.show(d) + ".", Fail, difference)
  }

  /** The numeric branch. The difference reported is the absolute gap, the
      percentage gap, or for a zero source 0 or infinity. */
  function CompareNumbers(num: Numerics, s: real, d: real, threshold: real, thresholdType: string): (c: Comparison)
    ensures c.status == c.outcome
    ensures c.status == Pass <==> Tolerated(s, d, threshold, thresholdType)
    ensures c.status == Error <==> thresholdType != "ABSOLUTE" && thresholdType != "PERCENTAGE"
    ensures c.status == Error ==> c.difference == NoDifference && c.message == InvalidTypeMessage
    ensures thresholdType == "ABSOLUTE" ==> c.difference == Amount(Abs(s - d))
    ensures thresholdType == "PERCENTAGE" && s != 0.0 ==> c.difference == Amount(Abs(s - d) / Abs(s) * 100.0)
    ensures thresholdType == "PERCENTAGE" && s == 0.0 ==> c.difference == (if d == 0.0 then Amount(0.0) else Infinite)
  {
    if thresholdType == "ABSOLUTE" then CompareAbsolute(num, s, d, threshold)
    else if thresholdType == "PERCENTAGE" then ComparePercentage(num, s, d, threshold)
    else Comparison(Error, InvalidTypeMessage, Error, NoDifference)
  }

  function CompareAbsolute(num: Numerics, s: real, d: real, threshold: real): (c: Comparison)
    ensures c.status == c.outcome && c.status != Error
    ensures c.status == Pass <==> Abs(s - d) <= threshold
    ensures c.difference == Amount(Abs(s - d))
  {
    var gap := Abs(s - d);
    Verdict(num, gap <= threshold, "Absolute difference: " + num.show(gap) + ". Threshold: " + num.show(threshold) + ".",
            Amount(gap), s, d)
  }

  function ComparePercentage(num: Numerics, s: real, d: real, threshold: real): (c: Comparison)
    ensures c.status == c.outcome && c.status != Error
    ensures s == 0.0 ==> (c.status == Pass <==> d == 0.0)
    ensures s != 0.0 ==> (c.status == Pass <==> Abs(s - d) * 100.0 <= threshold * Abs(s))
    ensures s != 0.0 ==> c.difference == Amount(Abs(s - d) / Abs(s) * 100.0)
    ensures s == 0.0 ==> c.difference == (if d == 0.0 then Amount(0.0) else Infinite)
  {
    if s == 0.0 then
      Verdict(num, d == 0.0,
              "Source value is 0. Destination value: " + num.show(d) + ". Percentage difference: "
              + (if d != 0.0 then "Infinity" else "0") + "%.",
              if d == 0.0 then Amount(0.0) else Infinite, s, d)
    else
      var pct := Abs(s - d) / Abs(s) * 100.0;
      PercentWithin(Abs(s - d), Abs(s), threshold);
      Verdict(num, pct <= threshold, "Percentage difference: " + num.show(pct) + "%. Threshold: " + num.show(threshold) + "%.",
              Amount(pct), s, d)
  }

  /** The division form of the percentage rule agrees with the
      multiplication form of `Tolerated`. */
  lemma PercentWithin(gap: real, base: real, threshold: real)
    requires base > 0.0
    ensures gap / base * 100.0 <= threshold <==> gap * 100.0 <= threshold * base
  {
    var q := gap / base;
    assert q * base == gap;
    if q * 100.0 <= threshold {
      assert q * 100.0 * base <= threshold * base;
      assert gap * 100.0 == q * 100.0 * base;
    } else {
      assert q * 100.0 * base > threshold * base;
      assert gap * 100.0 == q * 100.0 * base;
    }
  }

  /** `_perform_comparison`. The returned status always equals the returned
      outcome. A None value fails outright; an unknown threshold type on two
      numbers is an ERROR, not a FAIL; text that `float()` rejects falls
      back to comparing the trimmed `str()` forms. */
  function Compare(num: Numerics, source: Value, destination: Value, threshold: real, thresholdType: string): (c: Comparison)
    ensures c.status == c.outcome
    ensures (source.Null? || destination.Null?) ==> c == Comparison(Fail, NoneMessage, Fail, NoDifference)
    ensures !source.Null? && !destination.Null? && Read(num, source, destination).Numbers? ==>
              c == CompareNumbers(num, Read(num, source, destination).s, Read(num, source, destination).d, threshold, thresholdType)
    ensures !source.Null? && !destination.Null? && Read(num, source, destination).NotNumeric? ==>
              (c.status == Pass <==> Strip(Render(num, source)) == Strip(Render(num, destination)))
              && c.status != Error
              && c.difference == (if c.status == Pass then Amount(0.0) else NotApplicable)
    ensures !source.Null? && !destination.Null? && Read(num, source, destination).Unexpected? ==>
              c.status == Error && c.difference == NotApplicable
  {
    if source.Null? || destination.Null? then Comparison(Fail, NoneMessage, Fail, NoDifference)
    else
      match Read(num, source, destination)
      case Numbers(s, d) => CompareNumbers(num, s, d, threshold, thresholdType)
      case NotNumeric =>
        var shownSource := Render(num, source);
        var shownDestination := Render(num, destination);
        if Strip(shownSource) == Strip(shownDestination) then Comparison(Pass, IdenticalMessage, Pass, Amount(0.0))
        else
          Comparison(Fail, "Non-numeric values mismatch. Source: '" + shownSource + "', Destination: '" + shownDestination + "'.",
                     Fail, NotApplicable)
      case Unexpected(e) =>
        Comparison(Error, "An unexpected error occurred during comparison: " + e, Error, NotApplicable)
  }

  /** Loosening the threshold never turns a PASS into anything else. */
  lemma ThresholdMonotone(num: Numerics, source: Value, destination: Value, t1: real, t2: real, thresholdType: string)
    requires t1 <= t2
    requires Compare(num, source, destination, t1, thresholdType).status == Pass
    ensures Compare(num, source, destination, t2, thresholdType).status == Pass
  {
    if !source.Null? && !destination.Null? && Read(num, source, destination).Numbers? {
      var r := Read(num, source, destination);
      if thresholdType == "PERCENTAGE" && r.s != 0.0 {
        assert t1 * Abs(r.s) <= t2 * Abs(r.s);
      }
    }
  }

  /** Two equal numbers pass under either tolerance kind whenever the
      threshold is not negative. */
  lemma EqualNumbersPass(num: Numerics, x: real, threshold: real, thresholdType: string)
    requires thresholdType == "ABSOLUTE" || thresholdType == "PERCENTAGE"
    requires threshold >= 0.0
    ensures Compare(num, Num(x), Num(x), threshold, thresholdType).status == Pass
  {
    assert Read(num, Num(x), Num(x)) == Numbers(x, x);
    if thresholdType == "PERCENTAGE" && x != 0.0 {
      assert Abs(x - x) * 100.0 == 0.0;
      assert threshold * Abs(x) >= 0.0;
    }
  }

  /** The absolute rule does not care which side is the source. */
  lemma AbsoluteSymmetric(num: Numerics, source: Value, destination: Value, threshold: real)
    requires ToFloat(num, source).Converted? && ToFloat(num, destination).Converted?
    ensures Compare(num, source, destination, threshold, "ABSOLUTE").status
            == Compare(num, destination, source, threshold, "ABSOLUTE").status
  {
    var s := ToFloat(num, source).x;
    var d := ToFloat(num, destination).x;
    assert Abs(s - d) == Abs(d - s);
  }
}
