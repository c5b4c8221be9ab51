/**
 * The loosely typed values the media server hands to the publish handlers,
 * with the JavaScript operations the handlers apply to them: truthiness,
 * `a || b`, `a && b`, property access and `String(v)`.
 */
module Js {
  import opened Text

  /**
   * A JavaScript value. `undefined` and `null` are both `Missing` (the
   * handlers never tell them apart); numbers are integers; objects are plain
   * records of named properties; arrays are sequences of values.
   */
  datatype Value =
    | Missing
    | Bool(b: bool)
    | Num(n: int)
    | Str(s: string)
    | Obj(fields: map<string, Value>)
    | Arr(elems: seq<Value>)

  /** JavaScript truthiness: `undefined`, `null`, `false`, `0` and `""` are falsy. */
  predicate Truthy(v: Value) {
    match v
    case Missing => false
    case Bool(b) => b
    case Num(n) => n != 0
    case Str(s) => s != ""
    case Obj(_) => true
    case Arr(_) => true
  }

  /** `typeof v === 'object'` for a value that is not `null`: a plain object or an array. */
  predicate IsObject(v: Value) {
    v.Obj? || v.Arr?
  }

  /** `a || b`: `a` when it is truthy, otherwise `b`. */
  function Or(a: Value, b: Value): (r: Value)
    ensures Truthy(r) <==> Truthy(a) || Truthy(b)
    ensures r == a || r == b
  {
    if Truthy(a) then a else b
  }

  /** `a && b`: `a` when it is falsy, otherwise `b`. */
  function And(a: Value, b: Value): (r: Value)
    ensures Truthy(r) <==> Truthy(a) && Truthy(b)
    ensures r == a || r == b
  {
    if Truthy(a) then b else a
  }

  /** `v.name`: the property of a plain object, `undefined` for anything else (arrays included). */
  function Get(v: Value, name: string): Value {
    if v.Obj? && name in v.fields then v.fields[name] else Missing
  }

  /** `typeof v === 'string' && v.startsWith('/')`. */
  predicate IsSlashString(v: Value) {
    v.Str? && "/" <= v.s
  }

  /** `String(v)` for a truthy value, as a template literal writes it. */
  function ToJsString(v: Value): (r: string)
    requires Truthy(v)
    ensures v.Str? ==> r == v.s
    ensures v.Arr? && |v.elems| == 1 && v.elems[0].Str? ==> r == v.elems[0].s
    ensures !v.Arr? ==> r != []
  {
    match v
    case Bool(_) => "true"
    case Num(n) => IntToString(n)
    case Str(s) => s
    case Obj(_) => "[object Object]"
    case Arr(elems) =>
      assert |elems| == 1 ==> ArrayText(v, 1) == "";
      ArrayText(v, 0)
  }

  /**
   * `String(a)` of an array from its `i`th element on: the elements joined
   * with `,`, where `null` and `undefined` give the empty text and a nested
   * array gives its own join.
   */
  function ArrayText(a: Value, i: nat): string
    requires a.Arr? && i <= |a.elems|
    decreases a, |a.elems| - i
  {
    if i == |a.elems| then ""
    else
      var e := a.elems[i];
      var text := match e
        case Missing => ""
        case Bool(b) => if b then "true" else "false"
        case Num(n) => IntToString(n)
        case Str(s) => s
        case Obj(_) => "[object Object]"
        case Arr(_) => ArrayText(e, 0);
      (if i == 0 then "" else ",") + text + ArrayText(a, i + 1)
  }
}
