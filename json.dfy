/**
 * JSON values as the backend receives and stores them, and JavaScript's notion of
 * a "falsy" value. A document (a request body, a stored record) is a map from field
 * name to value; a missing key is `undefined`. Object ids are natural numbers.
 */
module Json {
  import opened Wrappers
  import opened Decimal

  type Id = nat

  datatype Value =
    | Null
    | Bool(b: bool)
    | Num(n: int)
    | Str(s: string)
    | Arr(items: seq<Value>)
    | Date(t: int)
    | Ref(id: Id)

  type Doc = map<string, Value>

  /** `doc.key`: `None` stands for `undefined`. */
  function Get(d: Doc, key: string): (r: Option<Value>)
    ensures r.Some? <==> key in d
    ensures r.Some? ==> r.value == d[key]
  {
    if key in d then Some(d[key]) else None
  }

  /** JavaScript truthiness: `undefined`, `null`, `false`, `0` and `""` are falsy. */
  predicate Truthy(v: Option<Value>) {
    match v
    case None => false
    case Some(Null) => false
    case Some(Bool(b)) => b
    case Some(Num(n)) => n != 0
    case Some(Str(s)) => s != ""
    case Some(_) => true
  }

  /** `!!doc.key` */
  predicate Has(d: Doc, key: string) {
    Truthy(Get(d, key))
  }

  /** `doc.key === "text"` */
  predicate FieldIs(d: Doc, key: string, text: string) {
    Get(d, key) == Some(Str(text))
  }

  /** Overwrites the fields of `d` with every field of `changes` (`Object.assign`). */
  function Assign(d: Doc, changes: Doc): (r: Doc)
    ensures r.Keys == d.Keys + changes.Keys
    ensures forall k :: k in changes ==> r[k] == changes[k]
    ensures forall k :: k in d && k !in changes ==> r[k] == d[k]
  {
    d + changes
  }

  /** The fields of `d` whose names are in `keys`. */
  function Restrict(d: Doc, keys: set<string>): (r: Doc)
    ensures r.Keys == d.Keys * keys
    ensures forall k :: k in r ==> r[k] == d[k]
  {
    map k | k in d && k in keys :: d[k]
  }

  /** `d` without the field `key` (`delete d.key`). */
  function Remove(d: Doc, key: string): (r: Doc)
    ensures r.Keys == d.Keys - {key}
    ensures forall k :: k in r ==> r[k] == d[k]
  {
    d - {key}
  }

  /** `doc._id` as the browser sees a record it received: how the pages tell records apart. */
  function IdOf(d: Doc): Option<Value> {
    Get(d, "_id")
  }

  /** `d => d._id === id` */
  function IdIs(id: Option<Value>): Doc -> bool {
    d => IdOf(d) == id
  }

  /** `d => d._id !== id` */
  function IdIsNot(id: Option<Value>): Doc -> bool {
    d => IdOf(d) != id
  }

  /** `String(v)` for the scalar values the browser meets; `None` for an array or a
      date, whose text is not modelled. */
  function JsString(v: Option<Value>): (r: Option<string>)
    ensures v.Some? && v.value.Str? ==> r == Some(v.value.s)
    ensures r.None? <==> v.Some? && (v.value.Arr? || v.value.Date?)
  {
    match v
    case None => Some("undefined")
    case Some(Null) => Some("null")
    case Some(Bool(b)) => Some(if b then "true" else "false")
    case Some(Num(n)) => Some(IntToString(n))
    case Some(Str(s)) => Some(s)
    case Some(Ref(id)) => Some(NatToString(id))
    case Some(_) => None
  }

  /** `d.key || fallback`, as the text an `Error` built from it carries. */
  function MessageOr(d: Doc, key: string, fallback: string): (r: string)
    ensures !Has(d, key) ==> r == fallback
    ensures Has(d, key) && d[key].Str? ==> r == d[key].s
  {
    if Has(d, key) then JsString(Get(d, key)).GetOr(fallback) else fallback
  }
}
