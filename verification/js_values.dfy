/**
 The JavaScript values that reach the FullScreenYouTube constructor, with the
 two language operations its argument checks depend on: truthiness (the `!x`
 tests) and `typeof`. Numbers are exact reals; `NaN` is its own case.
 */
module JsValues {

  /** A JavaScript value as far as the constructor's checks can tell values apart.
      `Obj` stands for every object and array (including DOM elements), `Func`
      for every function. */
  datatype JsValue =
    | Undefined
    | Null
    | Bool(b: bool)
    | Num(n: real)
    | NaN
    | Str(s: string)
    | Obj
    | Func

  /** The values ToBoolean maps to false (ECMAScript 262, section 7.1.2);
      `-0` is the real `0.0` here. */
  const FalsyValues: set<JsValue> := {Undefined, Null, Bool(false), Num(0.0), NaN, Str("")}

  /** JavaScript truthiness: `!v` is `!Truthy(v)`. */
  function Truthy(v: JsValue): (t: bool)
    ensures t <==> v !in FalsyValues
  {
    match v
    case Undefined => false
    case Null => false
    case Bool(b) => b
    case Num(n) => n != 0.0
    case NaN => false
    case Str(s) => |s| > 0
    case Obj => true
    case Func => true
  }

  /** The string the `typeof` operator yields (ECMAScript 262, section 13.5.3);
      `typeof null` is "object". */
  function TypeOf(v: JsValue): (t: string)
    ensures t == "string" <==> v.Str?
    ensures t == "undefined" <==> v == Undefined
    ensures t == "object" <==> v == Null || v == Obj
    ensures t == "function" <==> v == Func
    ensures t == "number" <==> v.Num? || v == NaN
  {
    match v
    case Undefined => "undefined"
    case Null => "object"
    case Bool(_) => "boolean"
    case Num(_) => "number"
    case NaN => "number"
    case Str(_) => "string"
    case Obj => "object"
    case Func => "function"
  }

  /** A parameter with a default (`p = d`): the default replaces the argument
      only when the argument is `undefined`, which is also what an omitted
      argument is. `null` and every other falsy value are kept. */
  function WithDefault(arg: JsValue, default: JsValue): (v: JsValue)
    ensures arg != Undefined ==> v == arg
    ensures arg == Undefined ==> v == default
    ensures default != Undefined ==> v != Undefined
  {
    if arg == Undefined then default else arg
  }
}
