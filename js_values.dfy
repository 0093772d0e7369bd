/** The JavaScript values the power-up reads out of the host's storage, and the
    two numeric tests it applies to them.

    Stored values are JSON; the cases modelled are `undefined` (a key that is not
    there), `null`, booleans, numbers and strings. Numbers are modelled as
    reals: IEEE rounding, infinities and `NaN` are not modelled.

    The two tests differ:
    - `isNaN(v)` converts the WHOLE value with `Number(v)`;
    - `parseFloat(v)` converts `v` to a string and reads the longest prefix
      that is a decimal literal.
    How a string is converted by either is left abstract: a `Coercions` value
    carries the two conversions, `None` standing for `NaN`. */
module JsValues {
  import opened Wrappers

  datatype JsValue = Undefined | Null | Bool(b: bool) | Num(x: real) | Str(s: string)

  /** The string conversions of the JavaScript engine, left uninterpreted:
      `toNumber(s)` is `Number(s)`, `parseFloat(s)` is `parseFloat(s)`. */
  datatype Coercions = Coercions(toNumber: string -> Option<real>, parseFloat: string -> Option<real>)

  /** `isNaN(v)`: does `Number(v)` give `NaN`? */
  predicate IsNaN(v: JsValue, cx: Coercions)
  {
    match v
    case Undefined => true                 // Number(undefined) is NaN
    case Null => false                     // Number(null) is 0
    case Bool(_) => false                  // Number(true) is 1, Number(false) is 0
    case Num(_) => false
    case Str(s) => cx.toNumber(s).None?
  }

  /** `parseFloat(v)`, `None` standing for `NaN`. */
  function ParseFloat(v: JsValue, cx: Coercions): Option<real>
  {
    match v
    case Undefined => None                 // parseFloat("undefined")
    case Null => None                      // parseFloat("null")
    case Bool(_) => None                   // parseFloat("true"), parseFloat("false")
    case Num(x) => Some(x)                 // the decimal rendering of x reads back as x
    case Str(s) => cx.parseFloat(s)
  }

  /** `m[key]` on a plain object: `undefined` when the key is absent. */
  function Lookup<K>(m: map<K, JsValue>, key: K): JsValue
  {
    if key in m then m[key] else Undefined
  }
}
