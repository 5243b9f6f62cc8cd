/** The JavaScript values the route handles after `JSON.parse`, and the three pieces of
    JavaScript semantics its normalisation leans on: truthiness (for `||` and `?:`),
    property reads (which throw on `null`/`undefined`), and template-literal conversion
    of a value to text (which throws on an object with its own `toString` key). */
module JsValue {
  import opened Wrappers
  import opened Text

  /** A parsed JSON value, plus `undefined` for a property that is not there.
      Numbers are integers: the route never does arithmetic on them. */
  datatype Value =
    | Undefined
    | Null
    | Bool(b: bool)
    | Num(n: int)
    | Str(s: string)
    | Arr(items: seq<Value>)
    | Obj(fields: map<string, Value>)

  /** The `TypeError`s the route's normalisation can raise. */
  datatype TypeError =
    | CannotReadProperty(key: string)  // `x.key` with `x` null or undefined
    | NotAFunction(callee: string)     // `x.map(...)` or `x.split(...)` on a value without that method
    | CannotConvertToPrimitive         // `${x}` with `x` an object whose conversion yields no primitive

  /** JavaScript truthiness: `undefined`, `null`, `false`, `0` and `""` are falsy. */
  predicate Truthy(v: Value) {
    match v
    case Undefined => false
    case Null => false
    case Bool(b) => b
    case Num(n) => n != 0
    case Str(s) => s != ""
    case Arr(_) => true
    case Obj(_) => true
  }

  /** The values on which `?.` short-circuits and a plain property read throws. */
  predicate Nullish(v: Value) {
    v.Undefined? || v.Null?
  }

  /** `a || b`: the left operand when truthy, otherwise the right one. */
  function Or(a: Value, b: Value): Value {
    if Truthy(a) then a else b
  }

  /** The value of property `key` of a non-nullish value, and `v?.key` in general.
      The route reads only its own fixed keys, none of which a built-in prototype
      defines, so anything but an object with that key yields `undefined`. */
  function Member(v: Value, key: string): Value {
    if v.Obj? && key in v.fields then v.fields[key] else Undefined
  }

  /** A plain read `v.key`, which throws on `null` and `undefined`. */
  function Get(v: Value, key: string): (r: Result<Value, TypeError>)
    ensures r.Failure? <==> Nullish(v)
    ensures r.Success? ==> r.value == Member(v, key)
  {
    if Nullish(v) then Failure(CannotReadProperty(key)) else Success(Member(v, key))
  }

  /** Whether `${v}` throws. `JSON.parse` can give an object an own `toString` key;
      its value is never callable, and neither is an own `valueOf`, while the inherited
      `valueOf` returns the object itself, so no conversion yields a primitive. An array
      converts through `join`, which converts each element that is not nullish. */
  predicate Unprintable(v: Value) {
    match v
    case Obj(fields) => "toString" in fields
    case Arr(items) => exists i :: 0 <= i < |items| && Unprintable(items[i])
    case _ => false
  }

  /** `${v}`: the text a template literal interpolates for `v`, or the `TypeError`
      the conversion throws. */
  function ToText(v: Value): (r: Result<string, TypeError>)
    ensures r.Failure? <==> Unprintable(v)
    ensures r.Failure? ==> r.error == CannotConvertToPrimitive
    ensures v.Str? ==> r == Success(v.s)
    ensures v.Undefined? ==> r == Success("undefined")
    ensures v.Obj? && !Unprintable(v) ==> r == Success("[object Object]")
  {
    match v
    case Undefined => Success("undefined")
    case Null => Success("null")
    case Bool(b) => Success(if b then "true" else "false")
    case Num(n) => Success(IntText(n))
    case Str(s) => Success(s)
    case Arr(items) => JoinText(items)
    case Obj(fields) => if "toString" in fields then Failure(CannotConvertToPrimitive) else Success("[object Object]")
  }

  /** `items.join(',')`, where `null` and `undefined` elements contribute nothing and
      the first element that cannot be converted ends the join. */
  function JoinText(items: seq<Value>): (r: Result<string, TypeError>)
    ensures r.Failure? <==> exists i :: 0 <= i < |items| && Unprintable(items[i])
    ensures r.Failure? ==> r.error == CannotConvertToPrimitive
    decreases items
  {
    if |items| == 0 then Success("")
    else
      var head :- if Nullish(items[0]) then Success("") else ToText(items[0]);
      if |items| == 1 then Success(head)
      else
        var tail :- JoinText(items[1..]);
        Success(head + "," + tail)
  }

  /** `${v || ''}`: only a truthy value is converted. */
  function TextOrEmpty(v: Value): (r: Result<string, TypeError>)
    ensures r.Failure? <==> Unprintable(v)
    ensures !Truthy(v) ==> r == Success("")
    ensures v.Str? ==> r == Success(v.s)
  {
    if Truthy(v) then ToText(v) else Success("")
  }
}
