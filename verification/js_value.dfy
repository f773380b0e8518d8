/**
 * JavaScript values as the route handlers see them: the result of parsing a
 * JSON request body, read with `.`, `?.` and `||`, and tested for truthiness.
 * A property that is absent reads as `undefined`, written `None` here.
 */
module JsValue {

  datatype Option<+T> = None | Some(value: T)

  /** A JSON value. Numbers are integers in this model. */
  datatype Json =
    | JNull
    | JBool(b: bool)
    | JNum(n: int)
    | JStr(s: string)
    | JArr(elems: seq<Json>)
    | JObj(fields: map<string, Json>)

  /** The value of an expression: `None` is `undefined`. */
  type Value = Option<Json>

  /** JavaScript truthiness: `undefined`, `null`, `false`, `0` and `""` are falsy. */
  predicate Truthy(v: Value) {
    match v
    case None => false
    case Some(JNull) => false
    case Some(JBool(b)) => b
    case Some(JNum(n)) => n != 0
    case Some(JStr(s)) => s != ""
    case Some(_) => true
  }

  /** Truthiness of an environment variable or a header, which is a string or absent. */
  predicate Present(o: Option<string>) {
    o.Some? && o.value != ""
  }

  /** `null` or `undefined`: reading a property of such a value throws a TypeError. */
  predicate Nullish(v: Value) {
    v.None? || v.value.JNull?
  }

  /** `v.k` on a value that is not nullish; only own keys of objects are modelled. */
  function Get(v: Value, k: string): Value
    requires !Nullish(v)
  {
    match v.value
    case JObj(fields) => if k in fields then Some(fields[k]) else None
    case _ => None
  }

  /** `v?.k`: `undefined` when `v` is nullish. */
  function OptGet(v: Value, k: string): Value {
    if Nullish(v) then None else Get(v, k)
  }

  /**
   * `v?.[0]`: the first element of an array, key "0" of an object, the first
   * character of a string; `undefined` otherwise.
   */
  function OptFirst(v: Value): Value {
    match v
    case Some(JArr(elems)) => if |elems| > 0 then Some(elems[0]) else None
    case Some(JObj(fields)) => if "0" in fields then Some(fields["0"]) else None
    case Some(JStr(s)) => if |s| > 0 then Some(JStr([s[0]])) else None
    case _ => None
  }

  /** `a || b`: the first operand when it is truthy, the second otherwise. */
  function Or(a: Value, b: Value): (r: Value)
    ensures Truthy(r) <==> Truthy(a) || Truthy(b)
    ensures Truthy(a) ==> r == a
    ensures !Truthy(a) ==> r == b
  {
    if Truthy(a) then a else b
  }
}
