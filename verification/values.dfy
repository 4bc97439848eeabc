/** Python values as they reach the scraper: decoded JSON, the exceptions the
    pipeline can raise, and the usual Option/Result wrappers. */
module Values {

  /** A decoded JSON value. Python's int and float are both numbers here. */
  datatype Json =
    | JNull
    | JBool(b: bool)
    | JNum(n: real)
    | JStr(s: string)
    | JArr(items: seq<Json>)
    | JObj(fields: map<string, Json>)

  /** The exceptions the core lets escape. */
  datatype PyError =
    | KeyError(key: string)   // d[key] on a dict without that key
    | TypeError               // subscripting or iterating a value that does not allow it
    | AttributeError          // calling .get or .strip on a value that has no such method
    | IndexError              // list[0] on an empty list

  datatype Option<T> = None | Some(value: T)

  datatype Result<T> = Ok(value: T) | Err(error: PyError)

  /** A job record as a Python dict from field name to value. */
  type Record = map<string, Json>
}
