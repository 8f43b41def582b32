/**
 * How a Mongoose schema path of a given type turns a JSON value into the stored
 * value (casting), shared by the User and Property schemas. `None` is a cast error,
 * which makes `save` or the update fail. Numbers are integers here; numeric text
 * is read as `Number(text)` reads integer numerals (`Decimal.NumberOfText`).
 */
module SchemaTypes {
  import opened Wrappers
  import opened Text
  import opened Decimal
  import opened Json

  /** `String` paths: numbers and booleans become their text. */
  function CastString(v: Value): (r: Option<Value>)
    ensures r.Some? ==> r.value.Null? || r.value.Str?
    ensures v.Str? ==> r == Some(v)
  {
    match v
    case Str(_) => Some(v)
    case Null => Some(Null)
    case Num(n) => Some(Str(IntToString(n)))
    case Bool(b) => Some(Str(if b then "true" else "false"))
    case _ => None
  }

  /** `Number` paths: only the empty text becomes null; any other text goes through
      `Number(text)`, where NaN is a cast error; booleans become 1 or 0. */
  function CastNumber(v: Value): (r: Option<Value>)
    ensures r.Some? ==> r.value.Null? || r.value.Num?
    ensures v.Num? ==> r == Some(v)
    ensures v.Str? ==> (r == Some(Null) <==> v.s == "")
    ensures v.Str? && v.s != "" ==> (r.Some? <==> NumberOfText(v.s).Some?)
    ensures v.Str? && v.s != "" && r.Some? ==> r.value == Num(NumberOfText(v.s).value)
  {
    match v
    case Num(_) => Some(v)
    case Null => Some(Null)
    case Bool(b) => Some(Num(if b then 1 else 0))
    case Str(s) =>
      if s == "" then Some(Null)
      else (match NumberOfText(s) case Some(n) => Some(Num(n)) case None => None)
    case _ => None
  }

  /** Non-empty blank text, a no-break space included, is stored as 0. */
  lemma CastNumberBlank(s: string)
    requires s != "" && forall i :: 0 <= i < |s| ==> IsSpace(s[i])
    ensures CastNumber(Str(s)) == Some(Num(0))
  {
    TrimEmpty(s);
  }

  /** An integer written out, with white space around it, is stored as itself. */
  lemma CastNumberPadded(n: int, pad: string)
    requires forall i :: 0 <= i < |pad| ==> IsSpace(pad[i])
    ensures CastNumber(Str(pad + IntToString(n) + pad)) == Some(Num(n))
  {
    NumberOfIntText(n, pad);
  }

  /** A plus sign is read. */
  lemma CastNumberPlus()
    ensures CastNumber(Str("+5")) == Some(Num(5))
  {
    TrimStartNoSpace("+5");
    TrimEndNoSpace("+5");
    assert "+5"[1..] == "5";
  }

  /** A hexadecimal prefix is read. */
  lemma CastNumberHex()
    ensures CastNumber(Str("0x1A")) == Some(Num(26))
  {
    TrimStartNoSpace("0x1A");
    TrimEndNoSpace("0x1A");
    assert PrefixBase("0x1A") == 16;
    assert "0x1A"[2..] == "1A";
    assert "1A"[..1] == "1" && "1"[..0] == "";
    assert RadixDigitValue('1') == 1 && RadixDigitValue('A') == 10;
    assert AllRadixDigits("1A", 16);
    assert RadixValue("1", 16) == 1;
    assert RadixValue("1A", 16) == 26;
    assert ParseRadix("1A", 16) == Some(26);
  }

  /** A sign before a prefix is NaN, a cast error. */
  lemma CastNumberSignedHex()
    ensures CastNumber(Str("-0x1A")) == None
  {
    TrimStartNoSpace("-0x1A");
    TrimEndNoSpace("-0x1A");
    assert "-0x1A"[1..] == "0x1A";
    assert !IsDigit("0x1A"[1]);
  }


  /** `Boolean` paths. */
  function CastBool(v: Value): (r: Option<Value>)
    ensures r.Some? ==> r.value.Null? || r.value.Bool?
  {
    match v
    case Bool(_) => Some(v)
    case Null => Some(Null)
    case Num(n) => if n == 0 || n == 1 then Some(Bool(n == 1)) else None
    case Str(s) =>
      if s == "true" || s == "1" then Some(Bool(true))
      else if s == "false" || s == "0" then Some(Bool(false))
      else None
    case _ => None
  }

  /** `Date` paths: a date, or milliseconds since the epoch. */
  function CastDate(v: Value): (r: Option<Value>)
    ensures r.Some? ==> r.value.Null? || r.value.Date?
  {
    match v
    case Date(_) => Some(v)
    case Null => Some(Null)
    case Num(n) => Some(Date(n))
    case _ => None
  }

  /** `ObjectId` paths. */
  function CastRef(v: Value): (r: Option<Value>)
    ensures r.Some? ==> r.value.Null? || r.value.Ref?
  {
    match v
    case Ref(_) => Some(v)
    case Null => Some(Null)
    case Str(s) => (match ParseNat(s) case Some(id) => Some(Ref(id)) case None => None)
    case _ => None
  }

  /** `[String]` paths: every element is cast; a lone value becomes a one-element array. */
  function CastStringArray(v: Value): (r: Option<Value>)
    ensures r.Some? ==> r.value.Null? || r.value.Arr?
  {
    match v
    case Null => Some(Null)
    case Arr(items) =>
      if forall i :: 0 <= i < |items| ==> CastString(items[i]).Some? then
        Some(Arr(seq(|items|, i requires 0 <= i < |items| => CastString(items[i]).value)))
      else None
    case _ => (match CastString(v) case Some(e) => Some(Arr([e])) case None => None)
  }

  /** The `trim` option: applied to text, nothing else. */
  function TrimValue(v: Value): Value {
    if v.Str? then Str(Trim(v.s)) else v
  }

  /** The `lowercase` option. */
  function LowerValue(v: Value): Value {
    if v.Str? then Str(ToLower(v.s)) else v
  }

  /** Casts every field of `body` that names a path, with `cast`; the other fields are
      dropped (strict mode). `None` when one of them cannot be cast. */
  function CastFields(body: Doc, paths: set<string>, cast: (string, Value) -> Option<Value>): (r: Option<Doc>)
    ensures r.Some? ==> r.value.Keys == body.Keys * paths
    ensures r.Some? ==> forall k :: k in r.value ==> cast(k, body[k]) == Some(r.value[k])
    ensures r.None? <==> exists k :: k in body && k in paths && cast(k, body[k]).None?
  {
    if forall k :: k in body && k in paths ==> cast(k, body[k]).Some? then
      Some(map k | k in body && k in paths :: cast(k, body[k]).value)
    else None
  }

  /** `required` on a String path: present, not null, not empty. */
  predicate RequiredText(d: Doc, key: string) {
    key in d && d[key].Str? && d[key].s != ""
  }

  /** `required` on any other path: present and not null. */
  predicate Required(d: Doc, key: string) {
    key in d && !d[key].Null?
  }

  /** The value a unique index sees for `key`: a missing field is indexed as null. */
  function IndexKey(d: Doc, key: string): Value {
    if key in d then d[key] else Null
  }

  /** No two records of the collection share a value of the uniquely indexed `key`. */
  ghost predicate UniqueOn(docs: map<Id, Doc>, key: string) {
    forall a, b :: a in docs && b in docs && a != b ==> IndexKey(docs[a], key) != IndexKey(docs[b], key)
  }

  /** A record other than `self` already holds `d`'s value of `key`. */
  predicate Clashes(docs: map<Id, Doc>, key: string, d: Doc, self: Option<Id>) {
    exists k | k in docs :: Some(k) != self && IndexKey(docs[k], key) == IndexKey(d, key)
  }

  /** Storing `d` under `id` keeps `key` unique exactly when it clashes with no other record. */
  lemma StoreKeepsUnique(docs: map<Id, Doc>, key: string, id: Id, d: Doc)
    requires UniqueOn(docs, key)
    requires !Clashes(docs, key, d, Some(id))
    ensures UniqueOn(docs[id := d], key)
  {
  }
}
