/**
 * JavaScript values as they travel through the package pipeline: the record
 * fetched from the registry, the dependency map, the cache contents. Objects
 * are maps from property names to values, so a missing property reads as
 * `Undefined`; functions, dates and object identity are not represented.
 */
module JsValues {

  datatype Value =
    | Undefined
    | Null
    | Bool(b: bool)
    | Num(n: int)
    | Str(s: string)
    | Arr(items: seq<Value>)
    | Obj(fields: map<string, Value>)

  /** The arguments of a node-style callback `fn(err, data)`. */
  datatype Reply = Reply(err: Value, data: Value)

  /** `fn()`: no error and no data. */
  const Empty: Reply := Reply(Undefined, Undefined)

  /** JavaScript truthiness (`if (v)`, `v || w`). */
  predicate Truthy(v: Value) {
    match v
    case Undefined => false
    case Null => false
    case Bool(b) => b
    case Num(n) => n != 0
    case Str(s) => s != ""
    case _ => true
  }

  /** Values whose property reads throw a TypeError. */
  predicate Nullish(v: Value) {
    v.Undefined? || v.Null?
  }

  /** `o[k]` for an object `o` given by its fields. */
  function Field(m: map<string, Value>, k: string): Value {
    if k in m then m[k] else Undefined
  }

  /**
   * A named property read `v.k` on a value that is not null or undefined.
   * The names the core reads (`name`, `user`, `repo`, `version`) are own
   * properties of objects only; on arrays and primitives they are undefined.
   */
  function Prop(v: Value, k: string): Value
    requires !Nullish(v)
  {
    if v.Obj? then Field(v.fields, k) else Undefined
  }

  /** `Array.isArray(v) && v.length == 0`, or an object with no own keys. */
  predicate IsEmptyCollection(v: Value) {
    (v.Arr? && |v.items| == 0) || (v.Obj? && |v.fields| == 0)
  }

  /** Decimal digits of a natural number, as `String(n)` prints them. */
  function NatToString(n: nat): (r: string)
    ensures |r| >= 1
    ensures forall i :: 0 <= i < |r| ==> '0' <= r[i] <= '9'
  {
    var d := ['0' + (n % 10) as char];
    if n < 10 then d else NatToString(n / 10) + d
  }

  /** `String(v)`, the conversion that `'...' + v` applies. */
  function ToJsString(v: Value): (r: string)
    decreases v, if v.Arr? then |v.items| + 1 else 0
  {
    match v
    case Undefined => "undefined"
    case Null => "null"
    case Bool(b) => if b then "true" else "false"
    case Num(n) => if n < 0 then "-" + NatToString(-n) else NatToString(n)
    case Str(s) => s
    case Arr(xs) => JoinElements(v, |xs|)
    case Obj(_) => "[object Object]"
  }

  /**
   * `Array.prototype.join(',')` over the first `n` elements of an array:
   * null and undefined elements print as the empty string.
   */
  function JoinElements(a: Value, n: nat): string
    requires a.Arr? && n <= |a.items|
    decreases a, n
  {
    if n == 0 then ""
    else
      var x := a.items[n - 1];
      var s := if Nullish(x) then "" else ToJsString(x);
      if n == 1 then s else JoinElements(a, n - 1) + "," + s
  }
}
