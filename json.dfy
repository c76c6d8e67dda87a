/** JSON values as JavaScript sees them after `JSON.parse`, with the two
    JavaScript notions the code leans on: truthiness and property access. */
module Json {
  import opened Wrappers

  /** A parsed JSON value. Numbers are kept exact (`real`): JSON text never
      produces NaN, and no arithmetic is done on them here. An object's
      duplicate keys have already collapsed to the last one, as in
      `JSON.parse`. */
  datatype Value =
    | Null
    | Bool(b: bool)
    | Num(n: real)
    | Str(s: string)
    | Arr(items: seq<Value>)
    | Obj(fields: map<string, Value>)

  /** `JSON.parse`: a value, or the message of the `SyntaxError` it throws.
      The model is parametric in it: nothing is assumed of the parser. */
  type Parser = string -> Result<Value, string>

  /** JavaScript truthiness. */
  predicate Truthy(v: Value) {
    match v
    case Null => false
    case Bool(b) => b
    case Num(n) => n != 0.0
    case Str(s) => s != ""
    case Arr(_) => true
    case Obj(_) => true
  }

  /** Truthiness of a possibly `undefined` (`None`) value. */
  predicate IsTruthy(v: Option<Value>) {
    v.Some? && Truthy(v.value)
  }

  /** `v.key` on a value that is not `null`: only objects carry the keys this
      code reads, so every other value gives `undefined`. (On `null`
      JavaScript throws; callers deal with that case before asking.) */
  function Prop(v: Value, key: string): (r: Option<Value>)
    ensures r.Some? <==> v.Obj? && key in v.fields
  {
    if v.Obj? && key in v.fields then Some(v.fields[key]) else None
  }

  /** `a || b`: the left operand when it is truthy, otherwise the right one. */
  function Or(a: Option<Value>, b: Value): (r: Value)
    ensures IsTruthy(a) ==> r == a.value
    ensures !IsTruthy(a) ==> r == b
  {
    if IsTruthy(a) then a.value else b
  }
}
