/** Already-parsed JSON values, as the enrichment operator sees them once the
    JSON library has turned a message into objects. Parsing and printing are
    not part of this model. */
module Json {

  /** The result of a map lookup that may miss (Java's `get` returning null). */
  datatype Option<+T> = None | Some(value: T)

  /** A JSON value. Numbers are kept as their text; the operator never reads them. */
  datatype Value =
    | JNull
    | JBool(b: bool)
    | JNumber(text: string)
    | JString(s: string)
    | JArray(elems: seq<Value>)
    | JObject(fields: map<string, Value>)

  /** One element of an event's `data` array: a JSON object, field name to value. */
  type Item = map<string, Value>

  /** The JSON value that storing a possibly-null Java string produces. */
  function FromOption(o: Option<string>): Value
  {
    match o
    case None => JNull
    case Some(s) => JString(s)
  }
}
