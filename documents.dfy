/** Stored news documents as the two Flask servers read them: Python values with
    Python's truthiness, `dict.get` with a default, and the cursor that yields them. */
module Documents {

  /** A BSON/JSON value. `Date` is a `datetime`, as milliseconds since the epoch. */
  datatype Value =
    | Null
    | Str(s: string)
    | Int(i: int)
    | Num(r: real)
    | Bool(b: bool)
    | Date(t: int)
    | Obj(fields: map<string, Value>)
    | Arr(items: seq<Value>)

  /** A document: a mapping from field names to values. */
  type Doc = map<string, Value>

  /** Python's truth value: `None`, `""`, `0`, `0.0`, `False`, `{}` and `[]` are false. */
  predicate Truthy(v: Value)
  {
    match v
    case Null => false
    case Str(s) => s != []
    case Int(i) => i != 0
    case Num(r) => r != 0.0
    case Bool(b) => b
    case Date(_) => true
    case Obj(fields) => fields != map[]
    case Arr(items) => items != []
  }

  /** `d.get(key, default)`. */
  function Get(d: Doc, key: string, default: Value): (v: Value)
    ensures key in d ==> v == d[key]
    ensures key !in d ==> v == default
  {
    if key in d then d[key] else default
  }

  /** `a or b`: the first operand when it is true, otherwise the second. */
  function Or(a: Value, b: Value): (v: Value)
    ensures v == a || v == b
    ensures Truthy(v) <==> Truthy(a) || Truthy(b)
    ensures Truthy(a) ==> v == a
  {
    if Truthy(a) then a else b
  }

  /** A chain of `or` picks its first true operand however it is grouped, so
      `a or b or c` may be read from either end. */
  lemma OrAssociative(a: Value, b: Value, c: Value)
    ensures Or(Or(a, b), c) == Or(a, Or(b, c))
  {
  }

  /** One step of iterating `collection.find()`: a document, an item that is not a
      mapping (so `.get` on it raises), or a failure of the cursor itself. */
  datatype CursorItem = Mapping(doc: Doc) | NotAMapping | ReadFailure

  /** What `get_news` returns: the list of records with status 200, or the error object
      `{"error": str(e)}` with status 500 (the message is not modelled). */
  datatype NewsResponse = Articles(records: seq<Doc>) | ServerError

  /** The HTTP status of a response. */
  function Status(r: NewsResponse): (code: int)
    ensures code == 200 <==> r.Articles?
    ensures code == 500 <==> r.ServerError?
  {
    if r.Articles? then 200 else 500
  }
}
