/**
 * JavaScript values as they travel over the socket between the browser client and
 * the server, and the three named messages of the synchronisation protocol.
 */
module Wire {

  /** A JavaScript value. Numbers are integers here; `Object` stands for any object or array. */
  datatype Value = Undefined | Null | Bool(b: bool) | Num(n: int) | Str(s: string) | Object

  /** A payload object: its own properties. A property that is absent reads as `undefined`. */
  type Payload = map<string, Value>

  /** `data.name` on a payload object. */
  function Get(data: Payload, name: string): (v: Value)
    ensures name !in data ==> v == Undefined
  {
    if name in data then data[name] else Undefined
  }

  /** JavaScript truthiness (`NaN` is not modelled: numbers are integers). */
  predicate Truthy(v: Value) {
    match v
    case Undefined => false
    case Null => false
    case Bool(b) => b
    case Num(n) => n != 0
    case Str(s) => s != ""
    case Object => true
  }

  /** `a || b`: the left operand when it is truthy, the right one otherwise. */
  function Or(a: Value, b: Value): (r: Value)
    ensures r == a || r == b
    ensures Truthy(r) <==> Truthy(a) || Truthy(b)
  {
    if Truthy(a) then a else b
  }

  /** The three named socket messages: `init_state`, `curl_update` and `meta_update`. */
  datatype Message =
    | InitState(snapshot: Payload)
    | CurlUpdate(curl: Value)
    | MetaUpdate(meta: Payload)
}
