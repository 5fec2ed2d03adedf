/**
 * JavaScript values as the library handles them: parsed JSON bodies, parameter
 * records, configuration objects and token caches. An object is a map from
 * property names to values (property order is not modelled); numbers are
 * integers.
 */
module Js {

  datatype Value =
    | Undefined
    | Null
    | Bool(b: bool)
    | Num(n: int)
    | Str(s: string)
    | Arr(items: seq<Value>)
    | Obj(fields: Object)

  type Object = map<string, Value>

  /** JavaScript truthiness: undefined, null, false, 0 and '' are falsy, everything else is truthy. */
  predicate Truthy(v: Value)
    ensures (v.Obj? || v.Arr?) ==> Truthy(v)
  {
    match v
    case Undefined => false
    case Null => false
    case Bool(b) => b
    case Num(n) => n != 0
    case Str(s) => s != ""
    case _ => true
  }

  /** chai's `exists`: the value is neither null nor undefined. */
  predicate Exists(v: Value)
    ensures Truthy(v) ==> Exists(v)
  {
    !v.Undefined? && !v.Null?
  }

  /**
   * Property read `v[k]` on a value that exists (reading a property of null or
   * undefined throws a TypeError, which callers model themselves). Strings and
   * arrays have no modelled own properties.
   */
  function Member(v: Value, k: string): Value
    requires Exists(v)
  {
    if v.Obj? && k in v.fields then v.fields[k] else Undefined
  }

  /** The own properties an object spread `{...v}` copies; spreading a non-object copies nothing. */
  function Spread(v: Value): (r: Object)
    ensures forall k :: k in r ==> Exists(v) && Member(v, k) == r[k]
    ensures v.Obj? ==> r.Keys == v.fields.Keys
    ensures !v.Obj? ==> r == map[]
  {
    if v.Obj? then v.fields else map[]
  }

  /** `a || b`. */
  function Or(a: Value, b: Value): (r: Value)
    ensures r == a || r == b
    ensures Truthy(a) ==> r == a
    ensures Truthy(r) <==> Truthy(a) || Truthy(b)
  {
    if Truthy(a) then a else b
  }

  /** Property read on an object record: a missing key reads as undefined. */
  function Lookup(o: Object, k: string): (r: Value)
    ensures r == Member(Obj(o), k)
    ensures k !in o ==> r == Undefined
  {
    if k in o then o[k] else Undefined
  }
}
