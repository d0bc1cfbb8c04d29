/**
 * The JavaScript values a tool call's arguments can carry, with the
 * truthiness and template-literal rendering the handlers rely on.
 */
module Values {
  import opened Numeric

  /** A primitive JSON/JavaScript value; a missing property reads as `Undefined`. */
  datatype Value = Undefined | Null | Bool(b: bool) | Num(x: real) | Str(s: string)

  /** Tool arguments: a JSON object from property name to value. */
  type Args = map<string, Value>

  /** `args[key]`: a missing property is `undefined`. */
  function Get(args: Args, key: string): (v: Value)
    ensures key !in args ==> v == Undefined
    ensures key in args ==> v == args[key]
  {
    if key in args then args[key] else Undefined
  }

  /** JavaScript truthiness: `undefined`, `null`, `false`, `0` and `""` are falsy. */
  predicate Truthy(v: Value) {
    match v
    case Undefined => false
    case Null => false
    case Bool(b) => b
    case Num(x) => x != 0.0
    case Str(s) => |s| > 0
  }

  /** `v === undefined || v === null`. */
  predicate Nullish(v: Value) {
    v.Undefined? || v.Null?
  }

  /** `${v}` in a template literal. */
  function Show(v: Value): string {
    match v
    case Undefined => "undefined"
    case Null => "null"
    case Bool(b) => if b then "true" else "false"
    case Num(x) => ShowNumber(x)
    case Str(s) => s
  }

  /** `a || b`: the first operand when truthy, otherwise the second. */
  function Or(a: Value, b: Value): (r: Value)
    ensures Truthy(a) ==> r == a
    ensures !Truthy(a) ==> r == b
  {
    if Truthy(a) then a else b
  }

  /**
   * `+v`, the number an arithmetic operator sees: `undefined` is NaN, `null`
   * and `false` are 0, `true` is 1, and a string is read by `parse`.
   */
  function ToNumber(v: Value, parse: string -> Ext): (e: Ext)
    ensures v.Num? ==> e == Finite(v.x)
    ensures v.Undefined? ==> e == NaN
  {
    match v
    case Undefined => NaN
    case Null => Finite(0.0)
    case Bool(b) => Finite(if b then 1.0 else 0.0)
    case Num(x) => Finite(x)
    case Str(s) => parse(s)
  }
}
