/** Values shared by the session supervisor and the HTTP routes: optional
    values, the outcome of a call into an external collaborator, and the
    JavaScript values that request bodies and client events carry. */
module Values {

  datatype Option<+T> = None | Some(value: T)

  /** What a call into the automation client, the webhook transport or the
      operating system did: it returned a value, or it threw an error whose
      `message` is given ("" stands for an error that carries no message). */
  datatype Result<+T> = Ok(value: T) | Err(message: string)

  /** A JavaScript value as the handlers see it: a field of a parsed JSON
      request body, a field of a client event, or a field of a webhook payload.
      Numbers are integers here. */
  datatype Json =
    | Undefined
    | Null
    | Bool(b: bool)
    | Num(n: int)
    | Str(s: string)
    | Arr(items: seq<Json>)
    | Obj(fields: map<string, Json>)

  /** JavaScript truthiness: `undefined`, `null`, `false`, `0` and `''` are
      falsy; every array and every object is truthy. */
  predicate Truthy(v: Json) {
    match v
    case Undefined => false
    case Null => false
    case Bool(b) => b
    case Num(n) => n != 0
    case Str(s) => s != ""
    case Arr(_) => true
    case Obj(_) => true
  }

  /** JavaScript `a || b`. */
  function Or(a: Json, b: Json): Json {
    if Truthy(a) then a else b
  }

  /** JavaScript `v?.key`: the property of an object, else `undefined`. */
  function Member(v: Json, key: string): Json {
    if v.Obj? && key in v.fields then v.fields[key] else Undefined
  }

  /** An environment variable takes effect when it is present and non-empty. */
  predicate IsSet(v: Option<string>) {
    v.Some? && v.value != ""
  }

  /** Concatenation regroups freely. */
  lemma AppendAssoc<T>(a: seq<T>, b: seq<T>, c: seq<T>)
    ensures (a + b) + c == a + (b + c)
  {
  }
}
