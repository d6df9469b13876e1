/**
 * JSON values as both ends see them after parsing, with the JavaScript
 * operations the front end applies to them: truthiness, property access,
 * `String(...)` and `Object.keys(...).length`.
 */
module Json {
  import opened Wrappers
  import opened Text

  /** A parsed JSON value. Numbers are integers in this model. */
  datatype Value =
    | Null
    | Bool(b: bool)
    | Num(n: int)
    | Str(s: string)
    | Arr(items: seq<Value>)
    | Obj(fields: map<string, Value>)

  /** JavaScript truthiness; `None` stands for `undefined`. */
  predicate Truthy(v: Option<Value>) {
    match v
    case None => false
    case Some(Null) => false
    case Some(Bool(b)) => b
    case Some(Num(n)) => n != 0
    case Some(Str(s)) => s != ""
    case Some(_) => true
  }

  /**
   * `v.key` for a `v` that is not `null`, for the data keys this model reads:
   * only objects carry them (inherited members such as `length` are never read).
   */
  function Property(v: Value, key: string): (r: Option<Value>)
    ensures r.Some? <==> v.Obj? && key in v.fields
    ensures r.Some? ==> r.value == v.fields[key]
  {
    if v.Obj? && key in v.fields then Some(v.fields[key]) else None
  }

  /** `v || fallback`. */
  function Or(v: Option<Value>, fallback: Value): Value {
    if Truthy(v) then v.value else fallback
  }

  /** The TypeError V8 raises when a value has no callable conversion to a primitive. */
  const NoPrimitiveMessage: string := "Cannot convert object to primitive value"

  /**
   * Converting `v` to a primitive (`String(v)`, `Number(v)`) throws. A parsed
   * object with its own `toString` key hides the inherited method behind a
   * value that cannot be called, and its inherited `valueOf` gives back the
   * object itself. An array converts by joining its elements, so it throws when
   * one of them does.
   */
  predicate ConversionThrows(v: Value) {
    match v
    case Obj(m) => "toString" in m
    case Arr(items) => exists i :: 0 <= i < |items| && ConversionThrows(items[i])
    case _ => false
  }

  /**
   * `String(v)`: arrays are joined with commas, their `null` elements rendered
   * as the empty string; a failure carries the TypeError's message.
   */
  function ToJsString(v: Value): (r: Result<string, string>)
    ensures r.Failure? <==> ConversionThrows(v)
    ensures r.Failure? ==> r.error == NoPrimitiveMessage
    ensures v.Str? ==> r == Success(v.s)
    ensures v.Num? ==> r == Success(IntStr(v.n))
    ensures v.Obj? && r.Success? ==> r.value == "[object Object]"
  {
    match v
    case Null => Success("null")
    case Bool(b) => Success(if b then "true" else "false")
    case Num(n) => Success(IntStr(n))
    case Str(s) => Success(s)
    case Arr(items) =>
      if exists i :: 0 <= i < |items| && ConversionThrows(items[i]) then Failure(NoPrimitiveMessage)
      else Success(Join(",", seq(|items|, i requires 0 <= i < |items| =>
        if items[i].Null? then "" else ToJsString(items[i]).value)))
    case Obj(m) => if "toString" in m then Failure(NoPrimitiveMessage) else Success("[object Object]")
  }

  /** `Object.keys(v).length` for a `v` that is not `null`: a string has one key per character. */
  function KeyCount(v: Value): nat {
    match v
    case Obj(m) => |m|
    case Arr(xs) => |xs|
    case Str(s) => |s|
    case _ => 0
  }
}
