/** The untyped JavaScript values that flow through the agent payloads and
    configuration objects, with the operators the modelled code applies to
    them: truthiness (`||`), nullishness (`??`), property access (which
    throws on `null` and `undefined`), optional chaining (`?.`) and object
    spread. */
module Values {
  import opened Wrappers

  /** A `Date`: the current clock reading, or `new Date(raw)` of a payload
      value (the parse itself is not modelled). */
  datatype Moment = Clock(ms: int) | Parsed(raw: Value)

  datatype Value =
    | Undefined
    | Null
    | Bool(b: bool)
    | Num(n: real)
    | Str(s: string)
    | Arr(items: seq<Value>)
    | Obj(fields: map<string, Value>)
    | Date(at: Moment)

  /** The `TypeError` reading a property of `null` or `undefined` raises. */
  datatype TypeError = PropertyOfNullish(key: string)

  predicate Nullish(v: Value) {
    v.Undefined? || v.Null?
  }

  /** JavaScript truthiness: `false`, `0`, `""`, `null` and `undefined` are
      falsy; arrays, objects and dates are truthy even when empty. */
  predicate Truthy(v: Value) {
    match v
    case Undefined => false
    case Null => false
    case Bool(b) => b
    case Num(n) => n != 0.0
    case Str(s) => s != ""
    case _ => true
  }

  /** `a || b` */
  function Or(a: Value, b: Value): (r: Value)
    ensures Truthy(a) ==> r == a
    ensures !Truthy(a) ==> r == b
  {
    if Truthy(a) then a else b
  }

  /** `a ?? b` */
  function Coalesce(a: Value, b: Value): (r: Value)
    ensures !Nullish(a) ==> r == a
    ensures Nullish(a) ==> r == b
  {
    if Nullish(a) then b else a
  }

  /** `v.key`: a missing key, or a key of a primitive, reads `undefined`;
      `null` and `undefined` have no properties at all. */
  function Get(v: Value, key: string): (r: Result<Value, TypeError>)
    ensures r.Err? <==> Nullish(v)
    ensures r.Err? ==> r.error == PropertyOfNullish(key)
    ensures r.Ok? && r.value != Undefined ==> v.Obj? && key in v.fields && v.fields[key] == r.value
  {
    match v
    case Undefined => Err(PropertyOfNullish(key))
    case Null => Err(PropertyOfNullish(key))
    case Obj(fields) => Ok(if key in fields then fields[key] else Undefined)
    case _ => Ok(Undefined)
  }

  /** `v?.key`: like `v.key`, but `undefined` for `null` and `undefined`. */
  function OptGet(v: Value, key: string): (r: Value)
    ensures Nullish(v) ==> r == Undefined
    ensures !Nullish(v) ==> Get(v, key) == Ok(r)
  {
    if Nullish(v) then Undefined else Get(v, key).value
  }

  /** The own enumerable properties `{...v}` copies from an object. */
  function Own(v: Value): (r: map<string, Value>)
    ensures v.Obj? ==> r == v.fields
  {
    if v.Obj? then v.fields else map[]
  }

  /** `{...base, ...over}`: every property of `over`, and the properties of
      `base` that `over` lacks. */
  function Spread(base: map<string, Value>, over: map<string, Value>): (r: map<string, Value>)
    ensures r.Keys == base.Keys + over.Keys
    ensures forall k :: k in over ==> r[k] == over[k]
    ensures forall k :: k in base && k !in over ==> r[k] == base[k]
  {
    base + over
  }

  /** `Array.isArray(v)`. */
  predicate IsArray(v: Value) {
    v.Arr?
  }

  /** An array of strings as a value. */
  function Strings(ss: seq<string>): (r: Value)
    ensures r.Arr? && |r.items| == |ss|
    ensures forall i :: 0 <= i < |ss| ==> r.items[i] == Str(ss[i])
  {
    Arr(seq(|ss|, i requires 0 <= i < |ss| => Str(ss[i])))
  }
}
