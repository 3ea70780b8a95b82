/** JavaScript numbers as the original program sees them, and the
    number-to-text and text-to-number built-ins it calls. */
module Numbers {

  /** A JavaScript number: `NaN`, a signed infinity, or a finite value.
      Finite values are exact reals: the model does not round to IEEE-754
      doubles and does not distinguish +0 from -0. */
  datatype JsNumber = NaN | Infinity(negative: bool) | Num(r: real)

  /** `isFinite(n)` (and therefore also `!isNaN(n)`). */
  predicate IsFinite(n: JsNumber) {
    n.Num?
  }

  /** Unary minus. */
  function Neg(a: JsNumber): JsNumber {
    match a
    case NaN => NaN
    case Infinity(n) => Infinity(!n)
    case Num(x) => Num(-x)
  }

  /** `a + b` on numbers. */
  function Add(a: JsNumber, b: JsNumber): JsNumber {
    match (a, b)
    case (NaN, _) => NaN
    case (_, NaN) => NaN
    case (Infinity(n), Infinity(m)) => if n == m then a else NaN
    case (Infinity(_), Num(_)) => a
    case (Num(_), Infinity(_)) => b
    case (Num(x), Num(y)) => Num(x + y)
  }

  /** `a - b`. */
  function Sub(a: JsNumber, b: JsNumber): JsNumber {
    Add(a, Neg(b))
  }

  /** `a * b`. */
  function Mul(a: JsNumber, b: JsNumber): JsNumber {
    match (a, b)
    case (NaN, _) => NaN
    case (_, NaN) => NaN
    case (Infinity(n), Infinity(m)) => Infinity(n != m)
    case (Infinity(n), Num(y)) => if y == 0.0 then NaN else Infinity(n != (y < 0.0))
    case (Num(x), Infinity(m)) => if x == 0.0 then NaN else Infinity(m != (x < 0.0))
    case (Num(x), Num(y)) => Num(x * y)
  }

  /** `a / b`; a zero divisor is taken to be +0. */
  function Div(a: JsNumber, b: JsNumber): JsNumber {
    match (a, b)
    case (NaN, _) => NaN
    case (_, NaN) => NaN
    case (Infinity(_), Infinity(_)) => NaN
    case (Infinity(n), Num(y)) => Infinity(n != (y < 0.0))
    case (Num(_), Infinity(_)) => Num(0.0)
    case (Num(x), Num(y)) =>
      if y != 0.0 then Num(x / y)
      else if x == 0.0 then NaN
      else Infinity(x < 0.0)
  }

  /** `a < b`: false whenever either side is `NaN`. */
  predicate Less(a: JsNumber, b: JsNumber) {
    match (a, b)
    case (NaN, _) => false
    case (_, NaN) => false
    case (Infinity(n), Infinity(m)) => n && !m
    case (Infinity(n), Num(_)) => n
    case (Num(_), Infinity(m)) => !m
    case (Num(x), Num(y)) => x < y
  }

  /** `a > b`. */
  predicate Greater(a: JsNumber, b: JsNumber) {
    Less(b, a)
  }

  /** `a === b` (and `!(a !== b)`): `NaN` equals nothing. */
  predicate StrictEquals(a: JsNumber, b: JsNumber) {
    !a.NaN? && !b.NaN? && a == b
  }

  /** `!!a`: zero and `NaN` are falsy. */
  predicate Truthy(a: JsNumber) {
    match a
    case NaN => false
    case Infinity(_) => true
    case Num(x) => x != 0.0
  }

  /** `Math.min(a, b)`. */
  function Min(a: JsNumber, b: JsNumber): JsNumber {
    if a.NaN? || b.NaN? then NaN
    else if Less(b, a) then b
    else a
  }

  /** The text/number conversions of the JavaScript runtime the original
      program relies on. They are not re-implemented: the model takes them
      as parameters, so every result holds whatever they do. */
  datatype NumberText = NumberText(
    /** `parseInt(s, 10)` */
    parseInt: string -> JsNumber,
    /** `parseFloat(s)` */
    parseFloat: string -> JsNumber,
    /** `'' + n`, `${n}` and `n.toString()` */
    show: JsNumber -> string,
    /** `n.toFixed(digits)` */
    toFixed: (JsNumber, nat) -> string)

  /** `'' + null` */
  const NullText := "null"

  /** `'' + undefined`, and what `parseInt`/`parseFloat` see when given `undefined`. */
  const UndefinedText := "undefined"

  /** `<` is transitive. */
  lemma LessTrans(a: JsNumber, b: JsNumber, c: JsNumber)
    requires Less(a, b) && Less(b, c)
    ensures Less(a, c)
  {
  }

  /** Two numbers other than `NaN` are ordered one way, the other way, or
      equal. */
  lemma LessTotal(a: JsNumber, b: JsNumber)
    requires !a.NaN? && !b.NaN?
    ensures Less(a, b) || a == b || Less(b, a)
  {
  }

  /** `Number.MIN_VALUE`, the smallest positive double: 2^-1074. */
  const MinValue: real := 1.0 / (0x4000000000000_00000000000000000000000000000000_00000000000000000000000000000000_00000000000000000000000000000000_00000000000000000000000000000000_00000000000000000000000000000000_00000000000000000000000000000000_00000000000000000000000000000000_00000000000000000000000000000000 as real)
}
