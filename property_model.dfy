/**
 * The Property schema (backend/models/Property.js): casting, defaults and the
 * validators `save` runs, and the properties collection.
 */
module PropertyModel {
  import opened Wrappers
  import opened Json
  import opened SchemaTypes

  const Types: seq<string> := ["Apartment", "House", "Land", "Villa", "Office"]
  const Statuses: seq<string> := ["listed", "unlisted"]

  const Paths: set<string> := {"title", "location", "price", "type", "bedrooms", "bathrooms",
                               "areaSqft", "image", "gallery", "desc", "ownerId", "status", "createdAt"}

  /** The cast of each path, by its declared type. */
  function CastField(key: string, v: Value): Option<Value> {
    if key in {"price", "bedrooms", "bathrooms", "areaSqft"} then CastNumber(v)
    else if key == "gallery" then CastStringArray(v)
    else if key == "ownerId" then CastRef(v)
    else if key == "createdAt" then CastDate(v)
    else CastString(v)
  }

  /** Every validator of the schema: the required paths, the two enums. */
  predicate ValidProperty(d: Doc) {
    && RequiredText(d, "title")
    && RequiredText(d, "location")
    && Required(d, "price")
    && RequiredText(d, "type") && d["type"].s in Types
    && RequiredText(d, "image")
    && Required(d, "ownerId")
    && ("status" in d && d["status"].Str? ==> d["status"].s in Statuses)
  }

  /** The cast input with `bedrooms`, `bathrooms`, `gallery`, `status` and `createdAt`
      defaulted where missing. */
  function WithDefaults(c: Doc, now: int): (r: Doc)
    ensures r.Keys == c.Keys + {"bedrooms", "bathrooms", "gallery", "status", "createdAt"}
    ensures forall k :: k in c ==> r[k] == c[k]
    ensures "bedrooms" !in c ==> r["bedrooms"] == Num(0)
    ensures "bathrooms" !in c ==> r["bathrooms"] == Num(0)
    ensures "gallery" !in c ==> r["gallery"] == Arr([])
    ensures "status" !in c ==> r["status"] == Str("listed")
    ensures "createdAt" !in c ==> r["createdAt"] == Date(now)
  {
    map["bedrooms" := Num(0), "bathrooms" := Num(0), "gallery" := Arr([]),
        "status" := Str("listed"), "createdAt" := Date(now)] + c
  }

  /** The known fields of `input`, cast; `None` on a cast error. */
  function CastProperty(input: Doc): (r: Option<Doc>)
    ensures r.Some? ==> r.value.Keys == input.Keys * Paths
    ensures r.Some? ==> forall k :: k in r.value ==> CastField(k, input[k]) == Some(r.value[k])
  {
    CastFields(input, Paths, CastField)
  }

  /** `new Property(input)` then the validation of `save()` at time `now`. */
  function NewProperty(input: Doc, now: int): (r: Option<Doc>)
    ensures r.Some? ==> ValidProperty(r.value) && r.value.Keys <= Paths
  {
    match CastProperty(input)
    case None => None
    case Some(c) =>
      var d := WithDefaults(c, now);
      if ValidProperty(d) then Some(d) else None
  }

  /** Each required path must be in the input: without it `save` fails. */
  lemma NewPropertyRequires(input: Doc, now: int)
    requires NewProperty(input, now).Some?
    ensures "title" in input && "location" in input && "price" in input
    ensures "type" in input && "image" in input && "ownerId" in input
  {
    KeptFromInput(input, now, "title");
    KeptFromInput(input, now, "location");
    KeptFromInput(input, now, "price");
    KeptFromInput(input, now, "type");
    KeptFromInput(input, now, "image");
    KeptFromInput(input, now, "ownerId");
  }

  /** A stored field without a default came from the input. */
  lemma KeptFromInput(input: Doc, now: int, k: string)
    requires NewProperty(input, now).Some?
    requires k in NewProperty(input, now).value
    requires k !in {"bedrooms", "bathrooms", "gallery", "status", "createdAt"}
    ensures k in input
  {
    StoredCast(input, now, k);
  }

  /** The stored `type` is the input's text exactly when it names one of the five
      enum values; any other text is refused. */
  lemma TypeEnum(input: Doc, now: int, t: string)
    requires "type" in input && input["type"] == Str(t)
    requires NewProperty(input, now).Some?
    ensures t in Types
    ensures NewProperty(input, now).value["type"] == Str(t)
  {
    var c := CastProperty(input).value;
    assert NewProperty(input, now).value == WithDefaults(c, now);
    assert c["type"] == Str(t);
  }

  lemma TypeEnumRejects(input: Doc, now: int, t: string)
    requires "type" in input && input["type"] == Str(t) && t !in Types
    ensures NewProperty(input, now).None?
  {
    var c := CastProperty(input);
    if c.Some? {
      assert c.value["type"] == Str(t);
      assert WithDefaults(c.value, now)["type"] == Str(t);
    }
  }

  /** `price` is stored as a number: a text that is not one fails the cast. */
  lemma PriceIsNumber(input: Doc, now: int)
    requires NewProperty(input, now).Some?
    ensures NewProperty(input, now).value["price"].Num?
  {
    StoredCast(input, now, "price");
  }

  /** A stored field without a default is the cast of the input's field. */
  lemma StoredCast(input: Doc, now: int, k: string)
    requires NewProperty(input, now).Some?
    requires k in NewProperty(input, now).value
    requires k !in {"bedrooms", "bathrooms", "gallery", "status", "createdAt"}
    ensures k in input && CastField(k, input[k]) == Some(NewProperty(input, now).value[k])
  {
    Saved(input, now);
    CastKept(input, CastProperty(input).value, now, k);
  }

  /** A saved property is the cast input with its defaults. */
  lemma Saved(input: Doc, now: int)
    requires NewProperty(input, now).Some?
    ensures CastProperty(input).Some?
    ensures NewProperty(input, now).value == WithDefaults(CastProperty(input).value, now)
  {
  }

  lemma CastKept(input: Doc, c: Doc, now: int, k: string)
    requires CastProperty(input) == Some(c)
    requires k in WithDefaults(c, now)
    requires k !in {"bedrooms", "bathrooms", "gallery", "status", "createdAt"}
    ensures k in input && CastField(k, input[k]) == Some(WithDefaults(c, now)[k])
  {
    assert k in c;
  }

  /** A property created without these fields has no bedrooms or bathrooms, an
      empty gallery, is listed, and was created at `now`. */
  lemma NewPropertyDefaults(input: Doc, now: int)
    requires NewProperty(input, now).Some?
    requires forall k :: k in {"bedrooms", "bathrooms", "gallery", "status", "createdAt"} ==> k !in input
    ensures var d := NewProperty(input, now).value;
      && d["bedrooms"] == Num(0) && d["bathrooms"] == Num(0) && d["gallery"] == Arr([])
      && d["status"] == Str("listed") && d["createdAt"] == Date(now)
  {
    var c := CastProperty(input).value;
    assert NewProperty(input, now).value == WithDefaults(c, now);
  }

  /** An input without a status or creation time is stored listed, created at `now`,
      with its owner as given. */
  lemma NewPropertyFromForm(input: Doc, now: int, owner: Id)
    requires NewProperty(input, now).Some?
    requires "status" !in input && "createdAt" !in input
    requires "ownerId" in input && input["ownerId"] == Ref(owner)
    ensures var d := NewProperty(input, now).value;
      && d["status"] == Str("listed") && d["createdAt"] == Date(now) && d["ownerId"] == Ref(owner)
  {
    var c := CastProperty(input).value;
    assert "status" !in c && "createdAt" !in c && "ownerId" in c;
    assert NewProperty(input, now).value == WithDefaults(c, now);
  }

  /** The properties collection. */
  class PropertyCollection {
    var docs: map<Id, Doc>
    var nextId: Id

    ghost predicate Valid()
      reads this
    {
      forall k :: k in docs ==> k < nextId
    }

    constructor ()
      ensures Valid() && docs == map[]
    {
      docs := map[];
      nextId := 0;
    }

    /** `save()` of a new, validated record under a fresh id. */
    method Insert(d: Doc) returns (id: Id)
      requires Valid()
      modifies this
      ensures Valid()
      ensures id !in old(docs) && docs == old(docs)[id := d]
    {
      id := nextId;
      docs := docs[id := d];
      nextId := nextId + 1;
    }

    /** `findByIdAndUpdate(id, changes, { new: true })` with `changes` already cast:
        no validators run. */
    method UpdateById(id: Id, changes: Doc) returns (r: Option<Doc>)
      requires Valid()
      modifies this
      ensures Valid()
      ensures id !in old(docs) ==> r.None? && docs == old(docs)
      ensures id in old(docs) ==> r == Some(Assign(old(docs)[id], changes)) && docs == old(docs)[id := r.value]
    {
      if id !in docs {
        return None;
      }
      var updated := Assign(docs[id], changes);
      docs := docs[id := updated];
      r := Some(updated);
    }

    /** `deleteOne()` of a stored record. */
    method DeleteById(id: Id)
      requires Valid()
      modifies this
      ensures Valid()
      ensures docs == old(docs) - {id}
    {
      docs := docs - {id};
    }
  }
}
