/** JavaScript values as the handlers receive them: parsed JSON request
    bodies and the outputs of model invocations. Only what the handlers
    observe is modelled: truthiness, property reads, `String(x)` and
    `Array.prototype.join`. */
module Js {
  import opened Text

  datatype Option<+T> = None | Some(value: T)

  /** A JSON-like value. Numbers are integers in this model. */
  datatype Value =
    | Undefined
    | Null
    | Bool(b: bool)
    | Num(n: int)
    | Str(s: string)
    | Arr(items: seq<Value>)
    | Obj(fields: map<string, Value>)

  /** A request body as `await req.json()` delivers it, or the message of the
      exception it throws. */
  datatype Body = Unparsable(error: string) | Json(value: Value)

  /** What a `replicate.run` call did: returned an output, or threw with a message. */
  datatype Invocation = Returned(output: Value) | Threw(message: string)

  /** The truthiness test of `if (x)`, `!x` and `x || y`. */
  predicate Truthy(v: Value) {
    match v
    case Undefined => false
    case Null => false
    case Bool(b) => b
    case Num(n) => n != 0
    case Str(s) => s != ""
    case Arr(_) => true
    case Obj(_) => true
  }

  /** An environment variable or a header, `undefined` when absent. */
  predicate Present(v: Option<string>) {
    v.Some? && v.value != ""
  }

  /** The property `v.name` as a destructuring pattern reads it; none of the
      names the handlers read exist on arrays or primitive values. */
  function Get(v: Value, name: string): Value {
    if v.Obj? && name in v.fields then v.fields[name] else Undefined
  }

  /** `v?.[0]`: the first element of an array, the first character of a
      string, the property "0" of an object, `undefined` otherwise. */
  function First(v: Value): Value {
    match v
    case Arr(items) => if |items| > 0 then items[0] else Undefined
    case Str(s) => if |s| > 0 then Str([s[0]]) else Undefined
    case Obj(f) => if "0" in f then f["0"] else Undefined
    case _ => Undefined
  }

  function DigitChar(d: nat): char
    requires d < 10
  {
    "0123456789"[d]
  }

  function Digits(n: nat): (r: string)
    ensures |r| > 0
  {
    if n < 10 then [DigitChar(n)] else Digits(n / 10) + [DigitChar(n % 10)]
  }

  /** The decimal text of an integer, as `String(n)` writes it. */
  function Decimal(n: int): (r: string)
    ensures |r| > 0
  {
    if n < 0 then "-" + Digits(-n) else Digits(n)
  }

  /** `parts.join(sep)`. */
  function Join(parts: seq<string>, sep: string): string {
    if parts == [] then ""
    else if |parts| == 1 then parts[0]
    else parts[0] + sep + Join(parts[1..], sep)
  }

  /** The text `join` uses for an array element: `null` and `undefined`
      become the empty string. */
  function ElementText(v: Value): string
    decreases v, 1
  {
    if v == Undefined || v == Null then "" else ToText(v)
  }

  /** The message of the TypeError that `String(v)`, a template literal or
      `join` throws when an object has an own, non-callable `toString`. */
  const NoPrimitive := "Cannot convert object to primitive value"

  /** `String(v)` returns rather than throws. A parsed object has no
      callable properties, so an own `toString` key hides the inherited
      method and the conversion fails; an array converts its elements. */
  predicate Convertible(v: Value) {
    match v
    case Obj(fields) => "toString" !in fields
    case Arr(items) => forall i :: 0 <= i < |items| ==> Convertible(items[i])
    case _ => true
  }

  /** `String(v)`, for a value that is `Convertible`. */
  function ToText(v: Value): string
    decreases v, 0
  {
    match v
    case Undefined => "undefined"
    case Null => "null"
    case Bool(b) => if b then "true" else "false"
    case Num(n) => Decimal(n)
    case Str(s) => s
    case Arr(items) => Join(seq(|items|, i requires 0 <= i < |items| => ElementText(items[i])), ",")
    case Obj(_) => "[object Object]"
  }

  /** `Array.isArray(v) ? v.join(sep) : String(v)`: how a model's output
      becomes text, for a value that is `Convertible`. */
  function OutputText(v: Value, sep: string): string {
    if v.Arr? then Join(seq(|v.items|, i requires 0 <= i < |v.items| => ElementText(v.items[i])), sep)
    else ToText(v)
  }
}
