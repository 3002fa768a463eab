/** Optional values, standing for JavaScript's "absent" results (NaN, null, a thrown parse). */
module Wrappers {
  datatype Option<+T> = None | Some(value: T)
}

/**
  The loosely typed values the pages read out of backend JSON replies, and the
  handful of JavaScript coercions the pages rely on: truthiness, `a || b`,
  `parseFloat`, and `parseFloat(x) || 0`.
  Numbers are exact reals: double rounding, NaN and the infinities are not values here.
 */
module JsValues {
  import opened Wrappers
  import NumberParsing

  datatype JsValue = Undefined | Null | Bool(b: bool) | Num(n: real) | Str(s: string)

  /** ECMAScript ToBoolean: undefined, null, false, 0 and '' are falsy. */
  predicate Truthy(v: JsValue)
    ensures !Truthy(v) <==> v in {Undefined, Null, Bool(false), Num(0.0), Str("")}
  {
    match v
    case Undefined => false
    case Null => false
    case Bool(b) => b
    case Num(n) => n != 0.0
    case Str(s) => s != ""
  }

  /** `a || b`: the first operand when it is truthy, otherwise the second. */
  function Or(a: JsValue, b: JsValue): (r: JsValue)
    ensures Truthy(a) ==> r == a
    ensures !Truthy(a) ==> r == b
    ensures Truthy(r) <==> Truthy(a) || Truthy(b)
  {
    if Truthy(a) then a else b
  }

  /**
    `parseFloat(v)`: None stands for NaN. The argument is first turned into a
    string; a finite number's string form parses back to the number itself,
    and "undefined", "null", "true" and "false" have no numeric prefix.
   */
  function ParseFloat(v: JsValue): (r: Option<real>)
    ensures v.Num? ==> r == Some(v.n)
    ensures v.Undefined? || v.Null? || v.Bool? ==> r == None
  {
    match v
    case Num(n) => Some(n)
    case Str(s) => NumberParsing.ParseFloatString(s)
    case _ => None
  }

  /** `parseFloat(v) || 0`: NaN (and 0 itself) become 0. */
  function FloatOrZero(v: JsValue): (r: real)
    ensures ParseFloat(v).None? ==> r == 0.0
    ensures ParseFloat(v).Some? ==> r == ParseFloat(v).value
  {
    match ParseFloat(v)
    case None => 0.0
    case Some(x) => x
  }

  /** `parseFloat(v || 0)`: a falsy value becomes the number 0 before parsing. */
  function FloatOfOrZero(v: JsValue): (r: Option<real>)
    ensures !Truthy(v) ==> r == Some(0.0)
    ensures Truthy(v) ==> r == ParseFloat(v)
  {
    ParseFloat(Or(v, Num(0.0)))
  }
}
