/**
 * The few JavaScript values the sync handlers look at, and the `Boolean(x)`
 * coercion they apply to the `activo` flag.
 */
module Js {

  /**
   * A JavaScript value. Numbers are finite (`Number`, where 0 and -0 are the
   * same real) or `NaN`; every other value (objects, functions, symbols,
   * arrays that are not read as records) is `Object`.
   */
  datatype JsValue =
    | Undefined
    | Null
    | Bool(b: bool)
    | Number(n: real)
    | NaN
    | Str(s: string)
    | BigInt(i: int)
    | Object

  /** The values that ToBoolean (section 7.1.2 of ECMA-262) maps to false. */
  const Falsy: set<JsValue> := {Undefined, Null, Bool(false), Number(0.0), NaN, Str(""), BigInt(0)}

  /** `Boolean(v)`: the truthiness of `v`, defined case by case as ToBoolean's table. */
  function Truthy(v: JsValue): (r: bool)
    ensures r <==> v !in Falsy
  {
    match v
    case Undefined => false
    case Null => false
    case Bool(b) => b
    case Number(n) => n != 0.0
    case NaN => false
    case Str(s) => |s| > 0
    case BigInt(i) => i != 0
    case Object => true
  }

  /** The flag values the source system uses: 1 is active, 0 is inactive, and so is a missing flag. */
  lemma FlagValues()
    ensures Truthy(Number(1.0)) && !Truthy(Number(0.0))
    ensures !Truthy(Undefined) && !Truthy(Null)
    ensures Truthy(Str("0"))
  {
  }
}
