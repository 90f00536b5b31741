/** JavaScript values as the application handles them, and the two wrapper
    types the model uses for absent values and for errors. */
module Json {

  datatype Option<+T> = None | Some(value: T)

  datatype Result<+T, +E> = Ok(value: T) | Err(error: E)

  /** A JavaScript value: JSON data plus `undefined`. NaN and the distinction
      between +0 and -0 are not represented. */
  datatype Value =
    | Undefined
    | Null
    | Bool(b: bool)
    | Num(n: real)
    | Str(s: string)
    | Arr(elems: seq<Value>)
    | Obj(fields: map<string, Value>)

  /** JavaScript truthiness. */
  predicate Truthy(v: Value) {
    match v
    case Undefined => false
    case Null => false
    case Bool(b) => b
    case Num(n) => n != 0.0
    case Str(s) => s != ""
    case Arr(_) => true
    case Obj(_) => true
  }

  /** `null` and `undefined`: reading a property of either throws a TypeError. */
  predicate IsNullish(v: Value) {
    v.Undefined? || v.Null?
  }

  /** `v.k` on a receiver that is neither null nor undefined: the own field of
      an object, otherwise `undefined`. */
  function Field(v: Value, k: string): Value {
    if v.Obj? && k in v.fields then v.fields[k] else Undefined
  }

  /** `a === b`. Objects and arrays compare by reference in JavaScript; the
      model has no references and treats two of them as distinct. */
  predicate StrictEquals(a: Value, b: Value) {
    a == b && !a.Obj? && !a.Arr?
  }

  /** `a || b`. */
  function Or(a: Value, b: Value): Value {
    if Truthy(a) then a else b
  }

  /** `x || 0` for a numeric field that may be absent. */
  function OrZero(x: Option<real>): real {
    if x.Some? then x.value else 0.0
  }

  /** The elements `[...v]` spreads: an array gives its elements, a string its
      characters; any other value is not iterable and the spread throws. */
  function Spread(v: Value): (r: Option<seq<Value>>)
    ensures v.Arr? ==> r == Some(v.elems)
    ensures r.Some? <==> v.Arr? || v.Str?
    ensures v.Str? ==> r.Some? && |r.value| == |v.s|
  {
    match v
    case Arr(xs) => Some(xs)
    case Str(s) => Some(seq(|s|, i requires 0 <= i < |s| => Str([s[i]])))
    case _ => None
  }
}
