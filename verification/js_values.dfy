/** The JavaScript values that reach the configuration code: the values a
    parsed JSON document can hold, with numbers restricted to integers. */
module JsValues {
  import opened Wrappers
  import opened Errors

  datatype Json =
    | JNull                          // null, and also undefined
    | JBool(b: bool)
    | JNum(n: int)
    | JStr(s: string)
    | JArr(items: seq<Json>)
    | JObj(fields: map<string, Json>)

  /** An argument that is either an instance of the class `C` or some plain value;
      this is what an `instanceof` check distinguishes. */
  datatype Arg<C> = Instance(instance: C) | Plain(value: Json)

  /** JavaScript truthiness: `null`, `false`, `0` and `""` are falsy. */
  predicate Truthy(j: Json) {
    match j
    case JNull => false
    case JBool(b) => b
    case JNum(n) => n != 0
    case JStr(s) => s != []
    case JArr(_) => true
    case JObj(_) => true
  }

  /** Every class instance is truthy in JavaScript. */
  predicate ArgTruthy<C>(a: Arg<C>) {
    a.Instance? || Truthy(a.value)
  }

  /** The properties `Object.keys(j)` enumerates, as far as a reader of
      configuration keys can see them. `Object.keys` throws on null and
      undefined. For a string or an array it lists index keys ("0", "1", ...),
      which are never configuration keys, so they are omitted; a number or a
      boolean has no own keys. */
  function Properties(j: Json): (r: Result<map<string, Json>, Error>)
    ensures r.Err? <==> j.JNull?
    ensures r.Err? ==> r.error == KeysOfNull
    ensures j.JObj? ==> r == Ok(j.fields)
    ensures !j.JObj? && !j.JNull? ==> r == Ok(map[])
  {
    match j
    case JNull => Err(KeysOfNull)
    case JObj(m) => Ok(m)
    case _ => Ok(map[])
  }

  /** The properties of `j`, or none when `Object.keys` would throw. */
  function PropertiesOrEmpty(j: Json): map<string, Json> {
    match Properties(j)
    case Ok(m) => m
    case Err(_) => map[]
  }
}
