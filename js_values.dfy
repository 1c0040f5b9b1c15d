/**
 * The shapes a contract read can hand back to the pages, and the two JavaScript
 * coercions the pages apply to them: truthiness (`if (x)`, `x || 0`) and `Number(x)`.
 *
 * JavaScript numbers are modelled as integers only (the rating contract deals in
 * unsigned integers); NaN is the one non-integral number kept, because `Number(..)`
 * of an unexpected shape produces it and the pages branch on it.
 */
module JsValues {

  datatype JsValue =
    | BigInt(n: int)             // typeof "bigint"
    | Num(n: int)                // typeof "number", integral and finite
    | NaN                        // typeof "number", not a number
    | Null
    | Undefined
    | Bool(b: bool)
    | Text(s: string)
    | Arr(items: seq<JsValue>)   // an array / decoded tuple

  /** The result of `Number(x)`: an integer, or NaN. */
  datatype Numeric = Finite(n: int) | NotANumber

  /** JavaScript truthiness: 0, 0n, NaN, null, undefined, false and "" are falsy. */
  predicate Truthy(v: JsValue): (r: bool)
    ensures v.Arr? ==> r
    ensures v.Text? ==> (r <==> |v.s| > 0)
    ensures !v.Arr? && !v.Text? ==> (r <==> NumericTruthy(ToNumber(v)))
  {
    match v
    case BigInt(n) => n != 0
    case Num(n) => n != 0
    case NaN => false
    case Null => false
    case Undefined => false
    case Bool(b) => b
    case Text(s) => s != ""
    case Arr(_) => true
  }

  /** Truthiness of a number already coerced. */
  predicate NumericTruthy(x: Numeric) {
    x.Finite? && x.n != 0
  }

  predicate IsDigit(c: char) {
    '0' <= c <= '9'
  }

  /** Value of a string of decimal digits, most significant first. */
  function DigitsValue(s: string): (r: nat)
    requires forall i :: 0 <= i < |s| ==> IsDigit(s[i])
    ensures s == [] ==> r == 0
    ensures |s| == 1 ==> r == (s[0] as int) - ('0' as int)
  {
    if s == [] then 0
    else
      assert IsDigit(s[|s| - 1]);
      10 * DigitsValue(s[..|s| - 1]) + ((s[|s| - 1] as int) - ('0' as int))
  }

  /** `Number(s)` for a string: "" is 0, plain decimal digits are their value, anything else NaN. */
  function TextToNumber(s: string): (r: Numeric)
    ensures s == "" ==> r == Finite(0)
    ensures r.Finite? ==> r.n >= 0
  {
    if s == "" then Finite(0)
    else if forall i :: 0 <= i < |s| ==> IsDigit(s[i]) then Finite(DigitsValue(s))
    else NotANumber
  }

  /**
   * `Number(x)`. An array converts through its string form: `[]` is "" (0), a one-element
   * array is the string form of its element, and two or more elements join with a comma,
   * which is never numeric.
   */
  function ToNumber(v: JsValue): (r: Numeric)
    ensures v.BigInt? || v.Num? ==> r == Finite(v.n)
    ensures v == NaN || v == Undefined ==> r == NotANumber
    ensures v == Null || v == Bool(false) || v == Text("") || v == Arr([]) ==> r == Finite(0)
    ensures v.Arr? && |v.items| >= 2 ==> r == NotANumber
    decreases v, 0
  {
    match v
    case BigInt(n) => Finite(n)
    case Num(n) => Finite(n)
    case NaN => NotANumber
    case Null => Finite(0)
    case Undefined => NotANumber
    case Bool(b) => Finite(if b then 1 else 0)
    case Text(s) => TextToNumber(s)
    case Arr(xs) =>
      if |xs| == 0 then Finite(0)
      else if |xs| == 1 then ElementToNumber(xs[0])
      else NotANumber
  }

  /** `Number(String(e))` for the single element `e` of an array. */
  function ElementToNumber(e: JsValue): (r: Numeric)
    ensures e.BigInt? || e.Num? ==> r == Finite(e.n)
    ensures e == Null || e == Undefined ==> r == Finite(0)
    ensures e.Bool? ==> r == NotANumber
    decreases e, 1
  {
    match e
    case BigInt(n) => Finite(n)
    case Num(n) => Finite(n)
    case NaN => NotANumber
    case Null => Finite(0)          // String([null]) == ""
    case Undefined => Finite(0)     // String([undefined]) == ""
    case Bool(_) => NotANumber      // "true" / "false"
    case Text(s) => TextToNumber(s)
    case Arr(_) => ToNumber(e)
  }

  /** A falsy value never coerces to a non-zero number. */
  lemma {:induction false} FalsyIsZeroOrNaN(v: JsValue)
    requires !Truthy(v)
    ensures !NumericTruthy(ToNumber(v))
  {
  }

  /** Wrapping a value in a one-element array keeps its numeric value when it is a number or a string. */
  lemma {:induction false} SingletonArrayNumber(v: JsValue)
    requires v.BigInt? || v.Num? || v.Text? || v.Arr?
    ensures ToNumber(Arr([v])) == ToNumber(v)
  {
  }
}
