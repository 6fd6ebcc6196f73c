/**
  The few pieces of JavaScript value semantics that the resolve handler relies on:
  query-string parameters, truthiness (`if (x)`, `a || b`), strict equality (`!==`),
  the relational comparison of a number with a bound (`x <= 100`), `undefined` in a
  template literal, and the decimal rendering of a non-negative integer in `${n}`.
*/
module JsValues {

  datatype Option<+T> = None | Some(value: T)

  /** An IEEE-754 double as far as comparisons see it: NaN, the infinities, or a real value
      (+0 and -0 are both `Finite(0.0)`; rounding is not modelled). */
  datatype JsNumber = NaN | Finite(value: real) | PosInfinity | NegInfinity

  /** The primitive values that reach the handler's conditions and assignments. */
  datatype JsValue = Undefined | Null | Bool(b: bool) | Number(n: JsNumber) | Str(s: string)

  /** One query-string parameter as the router hands it over: missing, or its decoded text. */
  datatype Param = Absent | Text(text: string)

  /** ToBoolean: the falsy values are undefined, null, false, +0/-0, NaN and the empty string. */
  predicate Truthy(v: JsValue)
  {
    match v
    case Undefined => false
    case Null => false
    case Bool(b) => b
    case Number(n) => n != NaN && n != Finite(0.0)
    case Str(s) => s != ""
  }

  /** `a || b`: the first operand when it is truthy, otherwise the second. */
  function Or(a: JsValue, b: JsValue): JsValue
  {
    if Truthy(a) then a else b
  }

  /** `a === b`: no coercion; NaN is not equal to itself. */
  predicate StrictEquals(a: JsValue, b: JsValue)
  {
    match (a, b)
    case (Number(x), Number(y)) => x != NaN && x == y
    case _ => a == b
  }

  /** `x <= bound` for a number `x` and a finite bound: a comparison with NaN is false. */
  predicate AtMost(x: JsNumber, bound: real)
  {
    match x
    case NaN => false
    case Finite(v) => v <= bound
    case PosInfinity => false
    case NegInfinity => true
  }

  /** `${p}` for a parameter: a missing one reads as the text "undefined". */
  function Render(p: Param): (s: string)
    ensures p.Text? ==> s == p.text
    ensures p.Absent? ==> s == "undefined"
  {
    match p
    case Absent => "undefined"
    case Text(t) => t
  }

  predicate IsDigits(s: string)
  {
    forall i :: 0 <= i < |s| ==> '0' <= s[i] <= '9'
  }

  /** `${n}` for a non-negative integer number: its shortest decimal numeral. */
  function Decimal(n: nat): (s: string)
    ensures |s| > 0 && IsDigits(s)
    ensures s == "0" <==> n == 0
    ensures s[0] != '0' || s == "0"
  {
    var digit := [('0' as int + n % 10) as char];
    if n < 10 then digit else Decimal(n / 10) + digit
  }

  /** The value of a numeral, read back digit by digit. */
  function DecimalValue(s: string): nat
    requires IsDigits(s)
  {
    if s == [] then 0 else DecimalValue(s[..|s| - 1]) * 10 + (s[|s| - 1] as int - '0' as int)
  }

  /** Rendering a count and reading it back gives the count. */
  lemma {:induction false} DecimalRoundTrip(n: nat)
    ensures DecimalValue(Decimal(n)) == n
  {
    if n >= 10 {
      DecimalRoundTrip(n / 10);
      var s := Decimal(n);
      assert s[..|s| - 1] == Decimal(n / 10);
    }
  }
}
