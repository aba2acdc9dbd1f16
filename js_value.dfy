/**
 * Untyped JavaScript values, for the code that inspects `typeof`, truthiness
 * and properties of values whose shape it does not know: the object
 * sanitizer, the exception filter and the header checks.
 */
module JsValue {
  import opened Wrappers
  import opened JsMap

  datatype Value =
    | Undefined
    | Null
    | Bool(b: bool)
    | Num(n: real)
    | Str(s: string)
    | Arr(items: seq<Value>)
    | Obj(props: seq<Entry<string, Value>>)

  /** JavaScript truthiness (`NaN` is not modelled, so every non-zero number is truthy). */
  predicate Truthy(v: Value)
  {
    match v
    case Undefined => false
    case Null => false
    case Bool(b) => b
    case Num(n) => n != 0.0
    case Str(s) => s != ""
    case Arr(_) => true
    case Obj(_) => true
  }

  /** `v[key]`: a property of an object, `undefined` for a missing one or a non-object. */
  function Property(v: Value, key: string): Value
  {
    if v.Obj? then Get(v.props, key).GetOr(Undefined) else Undefined
  }

  /** `a || b` */
  function Or(a: Value, b: Value): (r: Value)
    ensures Truthy(a) ==> r == a
    ensures !Truthy(a) ==> r == b
    ensures Truthy(r) <==> Truthy(a) || Truthy(b)
    ensures r == a || r == b
  {
    if Truthy(a) then a else b
  }

  /** Every object inside the value has distinct property names, as JavaScript objects do. */
  ghost predicate WellFormed(v: Value)
  {
    match v
    case Arr(items) => forall i :: 0 <= i < |items| ==> WellFormed(items[i])
    case Obj(props) => UniqueKeys(props) && forall i :: 0 <= i < |props| ==> WellFormed(props[i].value)
    case _ => true
  }
}
