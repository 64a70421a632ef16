/** Values shared by the whole model: an optional value, and the loosely
    typed JSON-like payloads the client receives as `interface{}` (decoded
    JSON) or builds as request parameters. */
module Values {

  datatype Option<+T> = None | Some(value: T)

  /** A loosely typed value. Decoded JSON numbers are `float64`; they are
      carried as their IEEE-754 bit pattern and never computed with.
      `Int` is an integer the client itself stores (a chat or message id). */
  datatype Value =
    | Null
    | Bool(b: bool)
    | Number(bits: bv64)
    | Int(i: int)
    | Str(s: string)
    | List(items: seq<Value>)
    | Object(fields: map<string, Value>)

  /** `v, _ := m[key].(string)`: the string under `key`, or "" when the key
      is missing or holds something else. */
  function StringField(m: map<string, Value>, key: string): string
  {
    if key in m && m[key].Str? then m[key].s else ""
  }

  /** `if v, ok := m[key].(string); ok { ... }` */
  function OptString(m: map<string, Value>, key: string): Option<string>
  {
    if key in m && m[key].Str? then Some(m[key].s) else None
  }

  /** `if v, ok := m[key].(bool); ok { ... }` */
  function OptBool(m: map<string, Value>, key: string): Option<bool>
  {
    if key in m && m[key].Bool? then Some(m[key].b) else None
  }

  /** `v, _ := m[key].(float64)`: the number under `key`, or the bits of +0.0. */
  function NumberField(m: map<string, Value>, key: string): bv64
  {
    if key in m && m[key].Number? then m[key].bits else 0
  }

  /** Regrouping a concatenation of three sequences. */
  lemma AppendAssociative<T>(a: seq<T>, b: seq<T>, c: seq<T>)
    ensures a + (b + c) == (a + b) + c
  {
  }
}
