/**
 * The JavaScript numbers the watcher reads back from the store: an integer,
 * or NaN when `Number(text)` does not give one. Comparisons with NaN are all
 * false and NaN differs from every number, which the decision lists rely on.
 */
module JsNumbers {
  import opened Wrappers
  import JsText

  datatype Num = Int(value: int) | NaN

  /** `Number(s)`: the integer `s` denotes, else NaN. */
  function FromText(s: string): (n: Num)
    ensures n.Int? <==> JsText.JsNumber(s).Some?
    ensures n.Int? ==> JsText.JsNumber(s) == Some(n.value)
  {
    match JsText.JsNumber(s)
    case Some(v) => Int(v)
    case None => NaN
  }

  /** `String(n)`, which is also what a template literal prints. */
  function Text(n: Num): string {
    match n
    case Int(v) => JsText.IntToDecimal(v)
    case NaN => "NaN"
  }

  /** `n.toLocaleString()`. */
  function Localized(n: Num): string {
    match n
    case Int(v) => JsText.Grouped(v)
    case NaN => "NaN"
  }

  /** `k - n`. */
  function Minus(k: int, n: Num): Num {
    match n
    case Int(v) => Int(k - v)
    case NaN => NaN
  }

  /** `n > k`. */
  predicate Above(n: Num, k: int) {
    n.Int? && n.value > k
  }

  /** `n < k`. */
  predicate Below(n: Num, k: int) {
    n.Int? && n.value < k
  }

  /** Number(String(n)) gives back every integer, and String(NaN) reads back as NaN. */
  lemma TextRoundTrip(n: Num)
    ensures FromText(Text(n)) == n
  {
    match n
    case Int(v) => JsText.NumberOfDecimal(v);
    case NaN =>
      assert JsText.Trim("NaN") == "NaN";
      assert !JsText.IsDigit('N');
  }

  /** `Number("null")` is NaN: a stock written as `String(null)` reads back as NaN. */
  lemma NullTextIsNaN()
    ensures FromText("null") == NaN
  {
    assert JsText.Trim("null") == "null";
    assert !JsText.IsDigit('n');
  }
}
