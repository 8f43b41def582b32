/**
 * The property handlers (backend/controllers/addproperty.js) over the properties
 * collection. `caller` is `req.user` as `protect` set it (`None` when it is unset);
 * `idParam` is the `:id` path segment. Each handler makes its checks in the source's
 * order and answers from the first that fails.
 */
module PropertyController {
  import opened Wrappers
  import opened Decimal
  import opened Json
  import opened Sorting
  import opened Collections
  import opened SchemaTypes
  import opened PropertyModel
  import opened AuthMiddleware

  datatype Reply = Reply(status: nat, message: string, records: seq<Record>)

  function Fail(status: nat, message: string): Reply {
    Reply(status, message, [])
  }

  /** `req.user.role === "admin"` */
  predicate IsAdmin(c: Caller) {
    FieldIs(c.user, "role", "admin")
  }

  /** The fields `addProperty` takes from the body. */
  const FormFields: set<string> := {"title", "location", "price", "type", "bedrooms", "bathrooms",
                                    "areaSqft", "image", "gallery", "desc"}

  /** The fields `addProperty` requires to be truthy. */
  predicate HasRequired(body: Doc) {
    Has(body, "title") && Has(body, "location") && Has(body, "price") && Has(body, "type") && Has(body, "image")
  }

  /** What `addProperty` passes to `new Property`: the form fields of the body and the
      caller as owner. Whatever else the body holds (a status, a creation time, an
      owner) is ignored. */
  function AddInput(body: Doc, owner: Id): (input: Doc)
    ensures input.Keys == (body.Keys * FormFields) + {"ownerId"}
    ensures input["ownerId"] == Ref(owner)
    ensures forall k :: k in body && k in FormFields ==> input[k] == body[k]
  {
    Restrict(body, FormFields)["ownerId" := Ref(owner)]
  }

  /** A new property is always listed, created now, and owned by the caller. */
  lemma AddedProperty(body: Doc, owner: Id, now: int)
    requires NewProperty(AddInput(body, owner), now).Some?
    ensures var d := NewProperty(AddInput(body, owner), now).value;
      && d["status"] == Str("listed") && d["createdAt"] == Date(now) && d["ownerId"] == Ref(owner)
  {
    AddInputIgnoresStatus(body, owner);
    NewPropertyFromForm(AddInput(body, owner), now, owner);
  }

  /** The body cannot set the status, the creation time or the owner. */
  lemma AddInputIgnoresStatus(body: Doc, owner: Id)
    ensures "status" !in AddInput(body, owner) && "createdAt" !in AddInput(body, owner)
    ensures "ownerId" in AddInput(body, owner) && AddInput(body, owner)["ownerId"] == Ref(owner)
  {
    assert "status" !in FormFields && "createdAt" !in FormFields;
  }

  /** `addProperty` */
  method AddProperty(props: PropertyCollection, caller: Option<Caller>, body: Doc, now: int) returns (r: Reply)
    requires props.Valid()
    modifies props
    ensures props.Valid()
    ensures r.status != 201 ==> props.docs == old(props.docs)
    ensures caller.None? ==> r == Fail(500, "Server error")
    ensures caller.Some? && !IsAdmin(caller.value) ==> r == Fail(403, "Only admins can add properties")
    ensures caller.Some? && IsAdmin(caller.value) && !HasRequired(body) ==> r == Fail(400, "Required fields missing")
    ensures r.status in {201, 400, 403, 500}
    ensures r.status == 201 <==>
      caller.Some? && IsAdmin(caller.value) && HasRequired(body) && NewProperty(AddInput(body, caller.value.id), now).Some?
    ensures r.status == 201 ==>
      && caller.Some? && IsAdmin(caller.value) && HasRequired(body)
      && |r.records| == 1
      && var rec := r.records[0];
      && rec.id !in old(props.docs)
      && Some(rec.doc) == NewProperty(AddInput(body, caller.value.id), now)
      && props.docs == old(props.docs)[rec.id := rec.doc]
      && r.message == "Property added successfully"
  {
    if caller.None? {
      return Fail(500, "Server error");
    }
    if !IsAdmin(caller.value) {
      return Fail(403, "Only admins can add properties");
    }
    if !HasRequired(body) {
      return Fail(400, "Required fields missing");
    }
    var property := NewProperty(AddInput(body, caller.value.id), now);
    if property.None? {
      return Fail(500, "Server error");
    }
    var id := props.Insert(property.value);
    r := Reply(201, "Property added successfully", [Record(id, property.value)]);
  }

  /** A price of 0 or "" is taken as missing. */
  lemma ZeroPriceIsMissing(body: Doc)
    requires "price" in body && (body["price"] == Num(0) || body["price"] == Str(""))
    ensures !HasRequired(body)
  {
  }

  // ----- listings -----

  predicate Listed(d: Doc) {
    FieldIs(d, "status", "listed")
  }

  /** The sort key of `sort({ createdAt: -1 })`; a record without a date sorts last. */
  function CreatedKey(rec: Record): int {
    if "createdAt" in rec.doc && rec.doc["createdAt"].Date? then rec.doc["createdAt"].t else -1
  }

  /** `getAllProperties`: every listed record, newest first; the caller plays no part. */
  method GetAllProperties(props: PropertyCollection) returns (r: Reply)
    ensures r.status == 200
    ensures forall rec :: rec in r.records <==> rec.id in props.docs && rec.doc == props.docs[rec.id] && Listed(rec.doc)
    ensures NoDupIds(r.records)
    ensures SortedDesc(r.records, CreatedKey)
  {
    var found := FindWhere(props.docs, Listed);
    var sorted := SortByKeyDesc(found, CreatedKey);
    assert forall rec :: rec in sorted <==> rec in found by {
      forall rec ensures rec in sorted <==> rec in found {
        assert rec in sorted <==> rec in multiset(sorted);
      }
    }
    NoDupIdsPermutation(found, sorted);
    r := Reply(200, "", sorted);
  }

  /** `find({ ownerId: req.user._id })` */
  predicate OwnedBy(d: Doc, owner: Id) {
    Get(d, "ownerId") == Some(Ref(owner))
  }

  /** `getMyProperties`: 401 without a caller, 403 for a non-admin, else exactly the
      caller's own records, listed or not. */
  method GetMyProperties(props: PropertyCollection, caller: Option<Caller>) returns (r: Reply)
    ensures caller.None? ==> r == Fail(401, "You must be logged in")
    ensures caller.Some? && !IsAdmin(caller.value) ==> r == Fail(403, "Only admins can access this endpoint")
    ensures caller.Some? && IsAdmin(caller.value) ==>
      && r.status == 200
      && (forall rec :: rec in r.records <==> rec.id in props.docs && rec.doc == props.docs[rec.id]
                                              && OwnedBy(rec.doc, caller.value.id))
      && NoDupIds(r.records)
  {
    if caller.None? {
      return Fail(401, "You must be logged in");
    }
    if !IsAdmin(caller.value) {
      return Fail(403, "Only admins can access this endpoint");
    }
    var owner := caller.value.id;
    var found := FindWhere(props.docs, d => OwnedBy(d, owner));
    r := Reply(200, "", found);
  }

  /** `getPropertyById`: a path segment that is not an id is a cast error (500). */
  method GetPropertyById(props: PropertyCollection, idParam: string) returns (r: Reply)
    ensures ParseNat(idParam).None? ==> r == Fail(500, "Server error")
    ensures ParseNat(idParam).Some? && ParseNat(idParam).value !in props.docs ==> r == Fail(404, "Property not found")
    ensures ParseNat(idParam).Some? && ParseNat(idParam).value in props.docs ==>
              r == Reply(200, "", [Record(ParseNat(idParam).value, props.docs[ParseNat(idParam).value])])
  {
    var id := ParseNat(idParam);
    if id.None? {
      return Fail(500, "Server error");
    }
    if id.value !in props.docs {
      return Fail(404, "Property not found");
    }
    r := Reply(200, "", [Record(id.value, props.docs[id.value])]);
  }

  // ----- update and delete -----

  /** The ownership check shared by update and delete, once the record `d` is found:
      `None` to go ahead, or the reply. A non-admin is refused before the owner is
      read; an admin and a record without an owner make `ownerId.toString()` throw. */
  function OwnerCheck(caller: Option<Caller>, d: Doc, refusal: string): (r: Option<Reply>)
    ensures r.None? <==> caller.Some? && IsAdmin(caller.value) && OwnedBy(d, caller.value.id)
    ensures r.Some? ==> r.value == Fail(403, refusal) || r.value == Fail(500, "Server error")
    ensures caller.Some? && !IsAdmin(caller.value) ==> r == Some(Fail(403, refusal))
    ensures (caller.Some? && IsAdmin(caller.value) && Get(d, "ownerId").Some? && Get(d, "ownerId").value.Ref?
             && !OwnedBy(d, caller.value.id)) ==> r == Some(Fail(403, refusal))
  {
    if caller.None? then Some(Fail(500, "Server error"))
    else if !IsAdmin(caller.value) then Some(Fail(403, refusal))
    else match Get(d, "ownerId")
      case Some(Ref(owner)) => if owner != caller.value.id then Some(Fail(403, refusal)) else None
      case _ => Some(Fail(500, "Server error"))
  }

  /** `updateProperty`: 404 for an unknown id before any check on the caller; then the
      ownership check; then the body's known fields, cast, overwrite the record's
      (no validators run). */
  method UpdateProperty(props: PropertyCollection, caller: Option<Caller>, idParam: string, body: Doc)
    returns (r: Reply)
    requires props.Valid()
    modifies props
    ensures props.Valid()
    ensures r.status != 200 ==> props.docs == old(props.docs)
    ensures ParseNat(idParam).None? ==> r == Fail(500, "Server error")
    ensures ParseNat(idParam).Some? && ParseNat(idParam).value !in old(props.docs) ==> r == Fail(404, "Property not found")
    ensures ParseNat(idParam).Some? && ParseNat(idParam).value in old(props.docs) ==>
              var id := ParseNat(idParam).value;
              var check := OwnerCheck(caller, old(props.docs)[id], "Not authorized to update this property");
              && (check.Some? ==> r == check.value)
              && (check.None? && CastProperty(body).None? ==> r == Fail(500, "Server error"))
              && (check.None? && CastProperty(body).Some? ==>
                    var updated := Assign(old(props.docs)[id], CastProperty(body).value);
                    && props.docs == old(props.docs)[id := updated]
                    && r == Reply(200, "Property updated", [Record(id, updated)]))
  {
    var id := ParseNat(idParam);
    if id.None? {
      return Fail(500, "Server error");
    }
    if id.value !in props.docs {
      return Fail(404, "Property not found");
    }
    var check := OwnerCheck(caller, props.docs[id.value], "Not authorized to update this property");
    if check.Some? {
      return check.value;
    }
    var changes := CastProperty(body);
    if changes.None? {
      return Fail(500, "Server error");
    }
    var updated := props.UpdateById(id.value, changes.value);
    r := Reply(200, "Property updated", [Record(id.value, updated.value)]);
  }

  /** An update changes exactly the known fields the body names, and no other record. */
  lemma UpdateTouchesOnlyBodyFields(old_: Doc, body: Doc, k: string)
    requires CastProperty(body).Some?
    ensures var updated := Assign(old_, CastProperty(body).value);
      && (k in body && k in Paths ==> k in updated && Some(updated[k]) == CastField(k, body[k]))
      && (k !in body || k !in Paths ==> (k in updated <==> k in old_) && (k in old_ ==> updated[k] == old_[k]))
  {
  }

  /** `deleteProperty`: 404 for an unknown id, then the ownership check, then exactly
      that record is removed. */
  method DeleteProperty(props: PropertyCollection, caller: Option<Caller>, idParam: string) returns (r: Reply)
    requires props.Valid()
    modifies props
    ensures props.Valid()
    ensures r.status != 200 ==> props.docs == old(props.docs)
    ensures ParseNat(idParam).None? ==> r == Fail(500, "Server error")
    ensures ParseNat(idParam).Some? && ParseNat(idParam).value !in old(props.docs) ==> r == Fail(404, "Property not found")
    ensures ParseNat(idParam).Some? && ParseNat(idParam).value in old(props.docs) ==>
              var id := ParseNat(idParam).value;
              var check := OwnerCheck(caller, old(props.docs)[id], "Not authorized to delete this property");
              && (check.Some? ==> r == check.value)
              && (check.None? ==> props.docs == old(props.docs) - {id} && r == Fail(200, "Property deleted"))
  {
    var id := ParseNat(idParam);
    if id.None? {
      return Fail(500, "Server error");
    }
    if id.value !in props.docs {
      return Fail(404, "Property not found");
    }
    var check := OwnerCheck(caller, props.docs[id.value], "Not authorized to delete this property");
    if check.Some? {
      return check.value;
    }
    props.DeleteById(id.value);
    r := Fail(200, "Property deleted");
  }

  // ----- the owner summary attached by populate -----

  /** `populate("ownerId", "name email phoneNumber")`: the schema has no `phoneNumber`,
      so the owner's phone never reaches a listing, nor does the password. */
  function OwnerSummary(user: Doc): (r: Doc)
    ensures r.Keys <= {"name", "email", "phoneNumber"}
    ensures "phone" !in r && "password" !in r
    ensures forall k :: k in r ==> k in user && r[k] == user[k]
    ensures "name" in user ==> "name" in r
    ensures "email" in user ==> "email" in r
    ensures "phoneNumber" in user ==> "phoneNumber" in r
  {
    Restrict(user, {"name", "email", "phoneNumber"})
  }
}
