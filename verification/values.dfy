/** JavaScript values as they flow through an endpoint: request input,
    middleware options and handler output are all plain string-keyed objects. */
module Values {

  /** A JSON-like JavaScript value. */
  datatype Value =
    | Null
    | Bool(b: bool)
    | Num(n: int)
    | Str(s: string)
    | Array(items: seq<Value>)
    | Object(fields: map<string, Value>)

  /** A plain object: its own enumerable properties. */
  type Obj = map<string, Value>

  /** A thrown JavaScript error; only its message is ever inspected. */
  datatype Exception = Exception(message: string)

  /** `{...base, ...over}`, and `Object.assign(base, over)` for keys other
      than `__proto__`: every key of either object, with the value of `over`
      wherever both have the key. */
  function Merge(base: Obj, over: Obj): (r: Obj)
    ensures r.Keys == base.Keys + over.Keys
    ensures forall k :: k in over ==> r[k] == over[k]
    ensures forall k :: k in base && k !in over ==> r[k] == base[k]
  {
    base + over
  }
}
