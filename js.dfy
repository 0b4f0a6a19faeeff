/**
 * The JavaScript values the front-end helpers work on, and the coercions
 * they apply to them: truthiness, `parseFloat`, `Number(..)` and property
 * access. Numbers are exact reals; NaN is a value of its own.
 */
module Js {
  import opened Wrappers
  import opened Text
  import opened Numeric

  /** A JavaScript value: a primitive or a plain object (its own properties by name). */
  datatype Value =
    | Undefined
    | Null
    | Bool(b: bool)
    | Num(n: real)
    | NaN
    | Str(s: string)
    | Obj(props: map<string, Value>)

  /** A plain object's properties. */
  type Object = map<string, Value>

  /** `obj.key`: `undefined` when the object has no such property. */
  function Get(obj: Object, key: string): Value {
    if key in obj then obj[key] else Undefined
  }

  /** JavaScript truthiness: `undefined`, `null`, `false`, `0`, NaN and `''` are falsy. */
  predicate Truthy(v: Value) {
    match v
    case Undefined => false
    case Null => false
    case Bool(b) => b
    case Num(n) => n != 0.0
    case NaN => false
    case Str(s) => s != []
    case Obj(_) => true
  }

  /**
   * `parseFloat(v)`: the value is turned into text first, then its leading
   * literal is read; `None` is NaN. The texts of `undefined`, `null`, the
   * booleans, NaN and plain objects have no leading literal.
   */
  function ParseFloatOf(v: Value): Option<real> {
    match v
    case Num(n) => Some(n)
    case Str(s) => ParseFloat(s)
    case _ => None
  }

  /** A JavaScript number: finite, an infinity, or NaN. */
  datatype Number = Finite(r: real) | Infinity(negative: bool) | NotANumber

  /** `Number(v)`, the coercion arithmetic applies: blank text is 0, other text must be one literal. */
  function ToNumber(v: Value): (x: Number)
    ensures !x.Infinity?
  {
    match v
    case Undefined => NotANumber
    case Null => Finite(0.0)
    case Bool(b) => Finite(if b then 1.0 else 0.0)
    case Num(n) => Finite(n)
    case NaN => NotANumber
    case Str(s) =>
      if IsBlank(s) then Finite(0.0)
      else (match ParseDecimal(s)
        case Some(r) => Finite(r)
        case None => NotANumber)
    case Obj(_) => NotANumber
  }

  /** `x > 0`. */
  predicate Positive(x: Number) {
    match x
    case Finite(r) => r > 0.0
    case Infinity(negative) => !negative
    case NotANumber => false
  }

  /** `((current - buy) / buy) * 100` on numbers that came from `Number(..)`: finite or NaN. */
  function PercentChange(current: Number, buy: Number): (r: Number)
    requires !current.Infinity? && !buy.Infinity?
  {
    if current.NotANumber? || buy.NotANumber? then NotANumber
    else if buy.r != 0.0 then Finite(ChangePercent(current.r, buy.r))
    else if current.r > 0.0 then Infinity(false)
    else if current.r < 0.0 then Infinity(true)
    else NotANumber
  }

  /** `x.toFixed(2)`: `fixed2` renders finite numbers; the others render as their names. */
  function FixedText(x: Number, fixed2: real -> string): string {
    match x
    case Finite(r) => fixed2(r)
    case Infinity(negative) => if negative then "-Infinity" else "Infinity"
    case NotANumber => "NaN"
  }
}
