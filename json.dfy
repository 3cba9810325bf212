/** Dynamically typed records: JavaScript objects on the pages and the
    documents the detection service keeps in its collection. */
module Json {

  /** A JSON value, plus the document store's date type. */
  datatype Value =
    | Null
    | Bool(b: bool)
    | Num(n: real)
    | Str(s: string)
    | Arr(items: seq<Value>)
    | Obj(fields: map<string, Value>)
    | Date(t: int)

  /** A record keyed by field name; an absent key is JavaScript's `undefined`. */
  type Document = map<string, Value>

  /** JavaScript truthiness of a present value. */
  predicate Truthy(v: Value)
  {
    match v
    case Null => false
    case Bool(b) => b
    case Num(n) => n != 0.0
    case Str(s) => s != ""
    case _ => true
  }

  /** `doc[key]` is present and truthy. */
  predicate TruthyField(doc: Document, key: string)
  {
    key in doc && Truthy(doc[key])
  }
}
