/**
 * The few JavaScript value semantics the handlers rely on: truthiness,
 * object spread and `+ 1`.  Numbers are modelled as integers.
 */
module Js {
  import opened Wrappers

  datatype Value =
    | Undefined
    | Null
    | Bool(b: bool)
    | Num(n: int)
    | NaN
    | Str(s: string)
    | Obj(fields: map<string, Value>)

  /** JavaScript truthiness: `false`, `0`, `NaN`, `""`, `null` and `undefined` are falsy. */
  predicate Truthy(v: Value) {
    match v
    case Undefined => false
    case Null => false
    case Bool(b) => b
    case Num(n) => n != 0
    case NaN => false
    case Str(s) => s != []
    case Obj(_) => true
  }

  /** Truthiness of an optional string field of a request body or query. */
  predicate StrGiven(o: Option<string>) {
    o.Some? && o.value != []
  }

  /** Truthiness of an optional numeric field. */
  predicate NumGiven(o: Option<int>) {
    o.Some? && o.value != 0
  }

  /** The value of property `key` (`undefined` when absent). */
  function Get(m: map<string, Value>, key: string): Value {
    if key in m then m[key] else Undefined
  }

  /** `{ ...a, ...b }`: every key of either object, the later object winning. */
  function Spread(a: map<string, Value>, b: map<string, Value>): (r: map<string, Value>)
    ensures r.Keys == a.Keys + b.Keys
    ensures forall k :: k in b ==> r[k] == b[k]
    ensures forall k :: k in a && k !in b ==> r[k] == a[k]
  {
    a + b
  }

  /** `{ ...v }` of an arbitrary value: the properties of an object; nothing
      for `undefined`, `null`, booleans and numbers.  A string, which JavaScript
      spreads into one property per UTF-16 code unit keyed "0", "1", ..., is
      not modelled: it also yields nothing here. */
  function OwnProperties(v: Value): map<string, Value> {
    if v.Obj? then v.fields else map[]
  }

  /** `v + 1` with JavaScript's coercions: numeric addition, or string
      concatenation when `v` is a string. */
  function PlusOne(v: Value): (r: Value)
    ensures v.Num? ==> r == Num(v.n + 1)
    ensures v.Str? ==> r == Str(v.s + "1")
  {
    match v
    case Num(n) => Num(n + 1)
    case Str(s) => Str(s + "1")
    case Bool(b) => Num(if b then 2 else 1)
    case Null => Num(1)
    case Undefined => NaN
    case NaN => NaN
    case Obj(_) => Str("[object Object]1")
  }

  /** A numeric query-string parameter: its text, which decides its
      truthiness, and what `parseFloat`/`parseInt` make of it. */
  datatype NumParam<N> = NumParam(text: string, value: N)

  /** Truthiness of an optional query-string parameter. */
  predicate ParamGiven<N>(o: Option<NumParam<N>>) {
    o.Some? && o.value.text != []
  }

  /** A body field that the handlers accept either as one string or as an
      array of strings (the `pros` and `cons` of a feedback). */
  datatype ListField = Missing | Single(s: string) | Many(items: seq<string>)
}
