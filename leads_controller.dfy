/**
 * The leads handlers (backend/controllers/leads.js) over the users collection:
 * listing the plain users, and overwriting a user with whatever the body holds.
 */
module LeadsController {
  import opened Wrappers
  import opened Decimal
  import opened Json
  import opened SchemaTypes
  import opened Collections
  import opened UserModel

  datatype LeadReply = Leads(records: seq<Record>) | Lead(record: Record) | Error(status: nat, message: string)

  predicate IsLead(d: Doc) {
    FieldIs(d, "role", "user")
  }

  /** `getLeads`: every user whose role is "user", each with all its stored fields,
      the password hash included. */
  method GetLeads(users: UserCollection) returns (r: LeadReply)
    ensures r.Leads?
    ensures forall rec :: rec in r.records <==> rec.id in users.docs && rec.doc == users.docs[rec.id] && IsLead(rec.doc)
    ensures NoDupIds(r.records)
  {
    var found := FindWhere(users.docs, IsLead);
    r := Leads(found);
  }

  /** An admin or agent is never a lead, and a lead is sent as stored, password hash
      included. */
  lemma LeadsExposePasswords(r: seq<Record>, docs: map<Id, Doc>, id: Id)
    requires forall rec :: rec in r <==> rec.id in docs && rec.doc == docs[rec.id] && IsLead(rec.doc)
    requires id in docs
    ensures FieldIs(docs[id], "role", "admin") || FieldIs(docs[id], "role", "agent") ==> Record(id, docs[id]) !in r
    ensures IsLead(docs[id]) ==> Record(id, docs[id]) in r
  {
  }

  /** The `$set` `findByIdAndUpdate` applies: the body's known fields, cast and passed
      through the setters, with `updatedAt` stamped; no validator runs. */
  function LeadChanges(body: Doc, now: int): (r: Option<Doc>)
    ensures r.None? <==> exists k :: k in body && k in Paths - {"createdAt", "updatedAt"} && CastField(k, body[k]).None?
    ensures r.Some? ==> r.value.Keys == body.Keys * (Paths - {"createdAt", "updatedAt"}) + {"updatedAt"}
    ensures r.Some? ==> r.value["updatedAt"] == Date(now)
    ensures r.Some? ==> forall k :: k in r.value && k != "updatedAt" ==> k in body && CastField(k, body[k]) == Some(r.value[k])
  {
    match CastUser(body)
    case None => None
    case Some(c) => Some(c["updatedAt" := Date(now)])
  }

  /** Nothing stops a lead's role from being set to "admin", or to a role outside the
      enum: the update is not validated. */
  lemma RoleIsNotGuarded(now: int)
    ensures LeadChanges(map["role" := Str("admin")], now) == Some(map["role" := Str("admin"), "updatedAt" := Date(now)])
    ensures LeadChanges(map["role" := Str("owner")], now) == Some(map["role" := Str("owner"), "updatedAt" := Date(now)])
  {
    RoleCastAsIs("admin");
    RoleCastAsIs("owner");
  }

  lemma RoleCastAsIs(role: string)
    ensures CastUser(map["role" := Str(role)]) == Some(map["role" := Str(role)])
  {
    var b: Doc := map["role" := Str(role)];
    assert "role" in Paths - {"createdAt", "updatedAt"};
    var c := CastUser(b).value;
    assert c.Keys == {"role"};
    assert CastField("role", Str(role)) == Some(Str(role));
    assert c == b;
  }

  /** `updateLead`: a cast error (of the id or the body) or a duplicate email or phone
      gives 500, an unknown id 404; otherwise the user is overwritten with the body's
      fields and returned, and no other user changes. */
  method UpdateLead(users: UserCollection, idParam: string, body: Doc, now: int) returns (r: LeadReply)
    requires users.Valid()
    modifies users
    ensures users.Valid()
    ensures !r.Lead? ==> users.docs == old(users.docs)
    ensures ParseNat(idParam).None? || LeadChanges(body, now).None? ==> r == Error(500, "Server error updating lead")
    ensures ParseNat(idParam).Some? && LeadChanges(body, now).Some? ==>
      var id := ParseNat(idParam).value;
      && (id !in old(users.docs) ==> r == Error(404, "Lead not found"))
      && (r.Lead? ==> id in old(users.docs)
                      && var updated := Assign(old(users.docs)[id], LeadChanges(body, now).value);
                      && r == Lead(Record(id, updated))
                      && users.docs == old(users.docs)[id := updated])
      && (id in old(users.docs) && !r.Lead? ==> r == Error(500, "Server error updating lead"))
      && (id in old(users.docs) ==>
            var updated := Assign(old(users.docs)[id], LeadChanges(body, now).value);
            (r.Lead? <==> !Clashes(old(users.docs), "email", updated, Some(id)) && !Clashes(old(users.docs), "phone", updated, Some(id))))
  {
    var id := ParseNat(idParam);
    var changes := LeadChanges(body, now);
    if id.None? || changes.None? {
      return Error(500, "Server error updating lead");
    }
    var result := users.UpdateById(id.value, changes.value);
    match result
    case Missing => r := Error(404, "Lead not found");
    case Duplicate => r := Error(500, "Server error updating lead");
    case Updated(d) => r := Lead(Record(id.value, d));
  }
}
