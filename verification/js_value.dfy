/** JavaScript values as the handlers see them: what JSON.parse produces, plus
    `undefined` for a property the object does not have. Numbers are restricted
    to integers (prices and ratings are scaled to integers where they occur). */
module JsValue {

  datatype Option<T> = None | Some(value: T)

  datatype Value =
    | Undefined
    | Null
    | Bool(b: bool)
    | Num(n: int)
    | NaN
    | Str(s: string)
    | Arr(items: seq<Value>)
    | Obj(fields: map<string, Value>)

  /** JavaScript truthiness: undefined, null, false, 0 and "" are falsy. */
  predicate Truthy(v: Value) {
    match v
    case Undefined => false
    case Null => false
    case Bool(b) => b
    case Num(n) => n != 0
    case NaN => false
    case Str(s) => s != ""
    case Arr(_) => true
    case Obj(_) => true
  }

  /** Property read `v.key` on a value that is not null or undefined (reading
      a property of those throws; callers treat that case first). Missing keys,
      and every key of a primitive or an array, read as undefined. */
  function Get(v: Value, key: string): (r: Value)
    ensures !v.Obj? ==> r == Undefined
  {
    if v.Obj? && key in v.fields then v.fields[key] else Undefined
  }

  predicate IsPrimitive(v: Value) {
    !v.Arr? && !v.Obj?
  }

  /** `a === b` for values that come from different JSON.parse calls: two
      arrays or objects are never the same reference, and NaN equals nothing. */
  predicate StrictEquals(a: Value, b: Value) {
    IsPrimitive(a) && !a.NaN? && a == b
  }

  function DigitChar(d: nat): (c: char)
    requires d < 10
    ensures '0' <= c <= '9'
  {
    "0123456789"[d]
  }

  /** Decimal rendering of a natural number, as Number.prototype.toString gives it. */
  function NatToString(n: nat): (r: string)
    ensures |r| > 0
    ensures forall i :: 0 <= i < |r| ==> '0' <= r[i] <= '9'
  {
    if n < 10 then [DigitChar(n)] else NatToString(n / 10) + [DigitChar(n % 10)]
  }

  function IntToString(n: int): (r: string)
    ensures |r| > 0
  {
    if n < 0 then "-" + NatToString(-n) else NatToString(n)
  }

  /** String(v): the conversion that template literals, `+` with a string and
      `new Error(v)` apply. Arrays join their elements with ",", writing
      undefined and null elements as empty; objects give "[object Object]". */
  function ToStr(v: Value): string
    decreases v, 1, 0
  {
    match v
    case Undefined => "undefined"
    case Null => "null"
    case Bool(b) => if b then "true" else "false"
    case Num(n) => IntToString(n)
    case NaN => "NaN"
    case Str(s) => s
    case Arr(_) => JoinFrom(v, 0)
    case Obj(_) => "[object Object]"
  }

  function JoinFrom(v: Value, i: nat): string
    requires v.Arr? && i <= |v.items|
    decreases v, 0, |v.items| - i
  {
    if i == |v.items| then ""
    else
      var e := v.items[i];
      (if i > 0 then "," else "") + (if e.Undefined? || e.Null? then "" else ToStr(e)) + JoinFrom(v, i + 1)
  }

  /** ToNumber on a primitive other than a string. */
  function NumberOf(v: Value): Value
    requires IsPrimitive(v) && !v.Str?
  {
    match v
    case Undefined => NaN
    case Null => Num(0)
    case Bool(b) => Num(if b then 1 else 0)
    case Num(n) => Num(n)
    case NaN => NaN
  }

  /** The binary `+` operator. Arrays and objects convert to their string
      form, so the result is a concatenation as soon as either operand is a
      string, an array or an object; otherwise both are added as numbers. */
  function Plus(a: Value, b: Value): (r: Value)
    ensures a.Str? || b.Str? ==> r == Str(ToStr(a) + ToStr(b))
  {
    if IsPrimitive(a) && IsPrimitive(b) && !a.Str? && !b.Str? then
      match (NumberOf(a), NumberOf(b))
      case (Num(x), Num(y)) => Num(x + y)
      case _ => NaN
    else Str(ToStr(a) + ToStr(b))
  }

  /** The message V8 gives the TypeError thrown by reading `key` of null or undefined. */
  function NullReadMessage(v: Value, key: string): string
  {
    "Cannot read properties of " + ToStr(v) + " (reading '" + key + "')"
  }

  /** `err.message || fallback` in a catch block. */
  function MessageOr(message: string, fallback: string): string
  {
    if message != "" then message else fallback
  }
}
