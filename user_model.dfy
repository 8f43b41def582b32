/**
 * The User schema (backend/models/User.js) as casting, defaults and a validity
 * predicate, and the User collection with its two unique indexes (email, phone).
 */
module UserModel {
  import opened Wrappers
  import opened Text
  import opened Json
  import opened SchemaTypes

  const Roles: seq<string> := ["user", "admin", "agent"]

  /** The declared paths, including the two the `timestamps` option adds. */
  const Paths: set<string> := {"name", "email", "phone", "password", "role", "contacted",
                               "note", "tags", "lastContactedAt", "createdAt", "updatedAt"}

  // ----- the email validator /^\w+([.-]?\w+)*@\w+([.-]?\w+)*(\.\w{2,3})+$/ -----

  /** `\w+([.-]?\w+)*`: word characters, with single dots or hyphens only between them. */
  predicate WordRuns(s: string) {
    && |s| > 0
    && IsWordChar(s[0])
    && IsWordChar(s[|s| - 1])
    && (forall i :: 0 <= i < |s| ==> IsWordChar(s[i]) || s[i] == '.' || s[i] == '-')
    && (forall i :: 0 <= i < |s| - 1 ==> IsWordChar(s[i]) || IsWordChar(s[i + 1]))
  }

  /** `\w+([.-]?\w+)*(\.\w{2,3})+`: word runs ending in a dot and two or three word
      characters (every earlier `.xx` group is itself part of the word runs). */
  predicate DomainPart(d: string) {
    exists k | 0 <= k < |d| ::
      && d[k] == '.'
      && WordRuns(d[..k])
      && 2 <= |d| - k - 1 <= 3
      && (forall j :: k < j < |d| ==> IsWordChar(d[j]))
  }

  predicate ValidEmail(v: string) {
    match IndexOf(v, '@')
    case None => false
    case Some(i) => WordRuns(v[..i]) && DomainPart(v[i + 1..])
  }

  lemma ValidEmailAccepts()
    ensures ValidEmail("a@x.com")
  {
    assert IndexOf("a@x.com", '@') == Some(1);
    assert "a@x.com"[2..] == "x.com" && "x.com"[..1] == "x";
  }

  /** Two word runs joined by a dot are word runs. */
  lemma WordRunsDotted(a: string, b: string)
    requires WordRuns(a) && WordRuns(b)
    ensures WordRuns(a + ['.'] + b)
  {
    var s := a + ['.'] + b;
    forall i | 0 <= i < |s| - 1 ensures IsWordChar(s[i]) || IsWordChar(s[i + 1]) {
      if i < |a| - 1 { assert s[i] == a[i] && s[i + 1] == a[i + 1]; }
      else if i == |a| - 1 { assert s[i] == a[i]; }
      else if i == |a| { assert s[i + 1] == b[0]; }
      else { assert s[i] == b[i - |a| - 1] && s[i + 1] == b[i - |a|]; }
    }
  }

  /** Word runs, a dot and a two- or three-letter suffix form a domain. */
  lemma DomainPartSuffix(a: string, t: string)
    requires WordRuns(a) && 2 <= |t| <= 3 && forall j :: 0 <= j < |t| ==> IsWordChar(t[j])
    ensures DomainPart(a + ['.'] + t)
  {
    var d := a + ['.'] + t;
    assert d[..|a|] == a;
    assert forall j :: |a| < j < |d| ==> d[j] == t[j - |a| - 1];
  }

  /** A local part and a domain joined by the first `@` form a valid address. */
  lemma ValidEmailJoin(local: string, domain: string)
    requires WordRuns(local) && DomainPart(domain)
    ensures ValidEmail(local + ['@'] + domain)
  {
    assert '@' !in local by {
      forall i | 0 <= i < |local| ensures local[i] != '@' {
        assert IsWordChar(local[i]) || local[i] == '.' || local[i] == '-';
      }
    }
    IndexOfFirst(local, '@', domain);
    var e := local + ['@'] + domain;
    assert e[..|local|] == local && e[|local| + 1..] == domain;
  }

  lemma DottedLocalPart()
    ensures WordRuns("ab.c")
  {
    assert WordRuns("ab") && WordRuns("c");
    WordRunsDotted("ab", "c");
    assert "ab" + ['.'] + "c" == "ab.c";
  }

  lemma SubdomainDomainPart()
    ensures DomainPart("mail.co.in")
  {
    assert WordRuns("mail") && WordRuns("co");
    WordRunsDotted("mail", "co");
    assert "mail" + ['.'] + "co" == "mail.co";
    DomainPartSuffix("mail.co", "in");
    assert "mail.co" + ['.'] + "in" == "mail.co.in";
  }

  lemma ValidEmailAcceptsSubdomains()
    ensures ValidEmail("ab.c@mail.co.in")
  {
    DottedLocalPart();
    SubdomainDomainPart();
    ValidEmailJoin("ab.c", "mail.co.in");
    assert "ab.c" + ['@'] + "mail.co.in" == "ab.c@mail.co.in";
  }

  lemma ValidEmailRejectsLongSuffix()
    ensures !ValidEmail("a@x.comma")
  {
    var bad := "a@x.comma";
    assert IndexOf(bad, '@') == Some(1);
    var dd := bad[2..];
    assert dd == "x.comma";
    forall k | 0 <= k < |dd| && dd[k] == '.' ensures !(2 <= |dd| - k - 1 <= 3) {
      assert k == 1;
    }
  }

  lemma ValidEmailRejectsNoLocalPart()
    ensures !ValidEmail("@x.com")
  {
    assert IndexOf("@x.com", '@') == Some(0);
  }

  // ----- casting, setters, defaults -----

  /** The cast and setters of each path: `name` and `note` are trimmed, `email` is
      lower-cased and trimmed. */
  function CastField(key: string, v: Value): Option<Value> {
    if key == "name" || key == "note" then
      match CastString(v) case Some(c) => Some(TrimValue(c)) case None => None
    else if key == "email" then
      match CastString(v) case Some(c) => Some(TrimValue(LowerValue(c))) case None => None
    else if key == "phone" then CastNumber(v)
    else if key == "password" || key == "role" then CastString(v)
    else if key == "contacted" then CastBool(v)
    else if key == "tags" then CastStringArray(v)
    else CastDate(v)
  }

  /** The value a query on `email` looks for: the same cast and setters as a stored email. */
  function EmailQuery(v: Value): Option<Value> {
    CastField("email", v)
  }

  const Defaulted: set<string> := {"role", "contacted", "note", "tags"}

  /** The cast input with the defaults filled in where a field is missing, and both
      timestamps set to `now`. */
  function Stamped(c: Doc, now: int): (r: Doc)
    ensures r.Keys == c.Keys + Defaulted + {"createdAt", "updatedAt"}
    ensures forall k :: k in c && k != "createdAt" && k != "updatedAt" ==> r[k] == c[k]
    ensures "role" !in c ==> r["role"] == Str("user")
    ensures "contacted" !in c ==> r["contacted"] == Bool(false)
    ensures "note" !in c ==> r["note"] == Str("")
    ensures "tags" !in c ==> r["tags"] == Arr([])
    ensures r["createdAt"] == Date(now) && r["updatedAt"] == Date(now)
  {
    var defaults := map["role" := Str("user"), "contacted" := Bool(false), "note" := Str(""), "tags" := Arr([])];
    var r := (defaults + c)["createdAt" := Date(now)]["updatedAt" := Date(now)];
    assert "role" in defaults + c;
    r
  }

  // ----- validation -----

  /** Every validator of the schema holds of a cast document. */
  predicate ValidUser(d: Doc) {
    && RequiredText(d, "name")
    && RequiredText(d, "email") && ValidEmail(d["email"].s)
    && "phone" in d && d["phone"].Num?
    && ("password" in d && d["password"].Str? ==> |d["password"].s| >= 6)
    && "role" in d && d["role"].Str? && d["role"].s in Roles
  }

  /** `new User(input)` followed by `save()`'s validation, at time `now`:
      the stored document, or `None` where Mongoose raises a validation error. */
  function NewUser(input: Doc, now: int): (r: Option<Doc>)
    ensures r.Some? ==> ValidUser(r.value)
    ensures r.Some? ==> r.value.Keys <= Paths
  {
    match CastUser(input)
    case None => None
    case Some(c) =>
      var d := Stamped(c, now);
      if ValidUser(d) then Some(d) else None
  }

  /** The fields of the input the schema knows, cast: what `NewUser` starts from. */
  function CastUser(input: Doc): (r: Option<Doc>)
    ensures r.Some? ==> r.value.Keys == input.Keys * (Paths - {"createdAt", "updatedAt"})
    ensures r.Some? ==> forall k :: k in r.value ==> CastField(k, input[k]) == Some(r.value[k])
  {
    CastFields(input, Paths - {"createdAt", "updatedAt"}, CastField)
  }

  /** A user cannot be saved without a phone number. */
  lemma NewUserRequiresPhone(input: Doc, now: int)
    requires "phone" !in input
    ensures NewUser(input, now).None?
  {
    var c := CastUser(input);
    if c.Some? {
      assert "phone" !in Stamped(c.value, now);
    }
  }

  /** A saved user holds the defaults where the input had no value, and the creation time. */
  lemma NewUserDefaults(input: Doc, now: int)
    requires NewUser(input, now).Some?
    ensures var d := NewUser(input, now).value;
      && d["createdAt"] == Date(now)
      && ("role" !in input ==> d["role"] == Str("user"))
      && ("contacted" !in input ==> d["contacted"] == Bool(false))
      && ("note" !in input ==> d["note"] == Str(""))
      && ("tags" !in input ==> d["tags"] == Arr([]))
  {
    var c := CastUser(input).value;
    assert NewUser(input, now).value == Stamped(c, now);
  }

  /** A field the input gives, other than the timestamps, is stored as its cast. */
  lemma StoredCast(input: Doc, now: int, k: string)
    requires NewUser(input, now).Some?
    requires k in input && k in Paths - {"createdAt", "updatedAt"}
    ensures k in NewUser(input, now).value && CastField(k, input[k]) == Some(NewUser(input, now).value[k])
  {
    Saved(input, now);
    CastKept(input, CastUser(input).value, now, k);
  }

  /** A saved user is the cast input, defaulted and stamped. */
  lemma Saved(input: Doc, now: int)
    requires NewUser(input, now).Some?
    ensures CastUser(input).Some?
    ensures NewUser(input, now).value == Stamped(CastUser(input).value, now)
  {
  }

  lemma CastKept(input: Doc, c: Doc, now: int, k: string)
    requires CastUser(input) == Some(c)
    requires k in input && k in Paths - {"createdAt", "updatedAt"}
    ensures k in Stamped(c, now) && CastField(k, input[k]) == Some(Stamped(c, now)[k])
  {
    assert k in c;
  }

  /** A given password is stored as given (registration hands over its hash). */
  lemma NewUserKeepsPassword(input: Doc, now: int)
    requires NewUser(input, now).Some? && "password" in input && input["password"].Str?
    ensures NewUser(input, now).value["password"] == input["password"]
  {
    Saved(input, now);
    var c := CastUser(input).value;
    CastKept(input, c, now, "password");
    PasswordCast(input["password"]);
  }

  /** `password` is a plain String path. */
  lemma PasswordCast(v: Value)
    ensures CastField("password", v) == CastString(v)
  {
  }

  /** A saved user's email is the input's, lower-cased and trimmed. */
  lemma NewUserEmail(input: Doc, now: int)
    requires NewUser(input, now).Some?
    requires "email" in input && input["email"].Str?
    ensures NewUser(input, now).value["email"] == Str(Trim(ToLower(input["email"].s)))
  {
    var c := CastUser(input).value;
    assert NewUser(input, now).value == Stamped(c, now);
    assert "email" in c;
  }

  /** A stored password shorter than six characters fails validation; a missing or
      null one (a Google account) does not. */
  lemma PasswordMinLength(input: Doc, now: int)
    requires "password" in input && input["password"].Str? && |input["password"].s| < 6
    ensures NewUser(input, now).None?
  {
    var c := CastUser(input);
    if c.Some? {
      assert "password" in c.value;
      assert Stamped(c.value, now)["password"] == input["password"];
    }
  }

  /** A role outside the enum fails validation. */
  lemma RoleEnum(input: Doc, now: int)
    requires "role" in input && input["role"].Str? && input["role"].s !in Roles
    ensures NewUser(input, now).None?
  {
    var c := CastUser(input);
    if c.Some? {
      assert "role" in c.value;
      assert Stamped(c.value, now)["role"] == input["role"];
    }
  }

  // ----- the collection -----

  /** `findOne({ key: value })` on a uniquely indexed key: the one record holding `value`. */
  function FindByKey(docs: map<Id, Doc>, key: string, value: Value): (r: Option<Id>)
    requires UniqueOn(docs, key)
    ensures r.Some? ==> r.value in docs && IndexKey(docs[r.value], key) == value
    ensures r.None? ==> forall k :: k in docs ==> IndexKey(docs[k], key) != value
  {
    if exists k | k in docs :: IndexKey(docs[k], key) == value then
      var k :| k in docs && IndexKey(docs[k], key) == value;
      Some(k)
    else None
  }

  /** The unique indexes let `d` in: no stored user holds its email or its phone. */
  predicate Admits(docs: map<Id, Doc>, d: Doc) {
    !Clashes(docs, "email", d, None) && !Clashes(docs, "phone", d, None)
  }

  /** The users collection: documents by id, fresh ids above every stored one, and the
      unique indexes on email and phone. */
  class UserCollection {
    var docs: map<Id, Doc>
    var nextId: Id

    ghost predicate Valid()
      reads this
    {
      && (forall k :: k in docs ==> k < nextId)
      && UniqueOn(docs, "email")
      && UniqueOn(docs, "phone")
    }

    constructor (initial: map<Id, Doc>)
      requires UniqueOn(initial, "email") && UniqueOn(initial, "phone")
      ensures Valid() && docs == initial
    {
      docs := initial;
      var bound: Id := 0;
      var rest := initial.Keys;
      while rest != {}
        invariant rest <= initial.Keys
        invariant forall k :: k in initial && k !in rest ==> k < bound
        decreases rest
      {
        var k :| k in rest;
        if bound <= k { bound := k + 1; }
        rest := rest - {k};
      }
      nextId := bound;
    }

    /** `save()` of a new document: refused (a duplicate-key error) when it would share
        an email or a phone with a stored user. */
    method Insert(d: Doc) returns (r: Option<Id>)
      requires Valid()
      modifies this
      ensures Valid()
      ensures r.None? <==> (Clashes(old(docs), "email", d, None) || Clashes(old(docs), "phone", d, None))
      ensures r.None? ==> docs == old(docs)
      ensures r.Some? ==> r.value !in old(docs) && docs == old(docs)[r.value := d]
    {
      if Clashes(docs, "email", d, None) || Clashes(docs, "phone", d, None) {
        r := None;
      } else {
        var id := nextId;
        StoreKeepsUnique(docs, "email", id, d);
        StoreKeepsUnique(docs, "phone", id, d);
        docs := docs[id := d];
        nextId := nextId + 1;
        r := Some(id);
      }
    }

    /** `findByIdAndUpdate(id, changes, { new: true })` once `changes` is cast: the
        updated document, `None` when there is no such record, and a duplicate-key
        error (nothing written) when the result would share an email or phone. */
    method UpdateById(id: Id, changes: Doc) returns (r: UpdateResult)
      requires Valid()
      modifies this
      ensures Valid()
      ensures id !in old(docs) ==> r == Missing && docs == old(docs)
      ensures id in old(docs) ==> var updated := Assign(old(docs)[id], changes);
        && (r == Duplicate <==> (Clashes(old(docs), "email", updated, Some(id)) || Clashes(old(docs), "phone", updated, Some(id))))
        && (r == Duplicate ==> docs == old(docs))
        && (r != Duplicate ==> r == Updated(updated) && docs == old(docs)[id := updated])
    {
      if id !in docs {
        return Missing;
      }
      var updated := Assign(docs[id], changes);
      if Clashes(docs, "email", updated, Some(id)) || Clashes(docs, "phone", updated, Some(id)) {
        return Duplicate;
      }
      StoreKeepsUnique(docs, "email", id, updated);
      StoreKeepsUnique(docs, "phone", id, updated);
      docs := docs[id := updated];
      r := Updated(updated);
    }
  }

  datatype UpdateResult = Missing | Duplicate | Updated(doc: Doc)
}
