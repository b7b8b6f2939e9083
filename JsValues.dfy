/**
 The JavaScript values the handler sees: whatever `express.json()` and
 `JSON.parse` can produce, plus `undefined` for a property that is absent.
 Only the parts of JavaScript's semantics that the handler relies on are
 modelled: truthiness, property lookup on a parsed object, and the
 `x || null` fallback.
 */
module JsValues {

  datatype JsValue =
    | Undefined
    | Null
    | Bool(b: bool)
    | Num(n: real)
    | Str(s: string)
    | Arr(elems: seq<JsValue>)
    | Obj(fields: map<string, JsValue>)

  /** JavaScript's ToBoolean on JSON values: `undefined`, `null`, `false`,
      `0` and `""` are falsy; every other value, including every array and
      every object (also empty ones), is truthy. */
  predicate Truthy(v: JsValue) {
    match v
    case Undefined => false
    case Null => false
    case Bool(b) => b
    case Num(n) => n != 0.0
    case Str(s) => s != ""
    case Arr(_) => true
    case Obj(_) => true
  }

  /** `obj.key` on a parsed JSON object: an absent key reads as `undefined`. */
  function Get(obj: map<string, JsValue>, key: string): (v: JsValue)
    ensures key in obj ==> v == obj[key]
    ensures key !in obj ==> v == Undefined
  {
    if key in obj then obj[key] else Undefined
  }

  /** `v || null`: the value itself when it is truthy, `null` otherwise. */
  function OrNull(v: JsValue): (r: JsValue)
    ensures Truthy(r) || r == Null
    ensures Truthy(v) <==> r == v && r != Null
    ensures !Truthy(v) ==> r == Null
  {
    if Truthy(v) then v else Null
  }

  /** Converting `v` to a string, as a template literal does, throws a
      TypeError. A JSON object that carries its own `toString` property has a
      non-callable one (no JSON value is a function), and its `valueOf`
      yields the object itself, so no primitive is found. An array converts
      by joining its elements, so it throws when one of them does. Every
      other JSON value converts, given enough stack: running out of stack on
      a deeply nested array is not part of this predicate. */
  predicate ToStringThrows(v: JsValue)
    decreases v
  {
    match v
    case Obj(fields) => "toString" in fields
    case Arr(elems) => exists i :: 0 <= i < |elems| && ToStringThrows(elems[i])
    case _ => false
  }
}
