/** Values shared by the three server components: optional values, results that
    carry a JavaScript error message, and the JSON values stored in the `meta`
    and `payments_meta` columns. */
module Common {

  datatype Option<T> = None | Some(value: T)

  /** The outcome of an async step: a value, or a thrown error with its `message`. */
  datatype Result<T> = Ok(value: T) | Err(message: string)

  /** A JSON value as held in a jsonb column. Numbers are restricted to integers. */
  datatype Json =
    | JNull
    | JBool(b: bool)
    | JNum(n: int)
    | JStr(s: string)
    | JObj(fields: map<string, Json>)

  /** JavaScript truthiness of a JSON value. */
  predicate Truthy(j: Json)
  {
    match j
    case JNull => false
    case JBool(b) => b
    case JNum(n) => n != 0
    case JStr(s) => s != ""
    case JObj(_) => true
  }

  /** `v.key` on a value that is neither null nor undefined; `None` is `undefined`. */
  function Member(v: Json, key: string): Option<Json>
    requires v != JNull
  {
    if v.JObj? && key in v.fields then Some(v.fields[key]) else None
  }

  /** The message of the TypeError thrown when a property of null or undefined is read. */
  function ReadError(onNull: bool, key: string): string
  {
    "Cannot read properties of " + (if onNull then "null" else "undefined") + " (reading '" + key + "')"
  }

  /** `v.key` on any value, `None` standing for `undefined`: reading a property of
      null or undefined throws a TypeError instead of giving a value. */
  function Read(v: Option<Json>, key: string): Result<Option<Json>>
  {
    match v
    case None => Err(ReadError(false, key))
    case Some(JNull) => Err(ReadError(true, key))
    case Some(j) => Ok(Member(j, key))
  }
}
