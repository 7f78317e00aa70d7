/** Parsed JSON values as the client sees them after the response middleware
    has decoded a body with symbolized keys. `Null` stands for Ruby's `nil`. */
module Json {

  datatype Option<+T> = None | Some(value: T)

  datatype Value =
    | Null
    | Bool(b: bool)
    | Num(n: int)
    | Str(s: string)
    | Arr(items: seq<Value>)
    | Obj(fields: map<string, Value>)

  /** A decoded JSON object: request and response bodies. */
  type Body = map<string, Value>

  /** `body[key]` on a Ruby hash: `nil` when the key is absent. */
  function Get(body: Body, key: string): (v: Value)
    ensures key !in body ==> v == Null
    ensures key in body ==> v == body[key]
  {
    if key in body then body[key] else Null
  }

  /** `body.fetch(key)` on a Ruby hash: a missing key is an error, unlike `Get`. */
  function FetchKey(body: Body, key: string): (v: Option<Value>)
    ensures v.Some? <==> key in body
    ensures v.Some? ==> v.value == body[key]
  {
    if key in body then Some(body[key]) else None
  }
}
