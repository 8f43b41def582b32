/**
 * Registration, login and Google sign-in (backend/controllers/authController.js)
 * over the users collection. Passwords are hashed and tokens signed with the
 * abstract functions of `Crypto`; the settings come from `Env`.
 */
module AuthController {
  import opened Wrappers
  import opened Text
  import opened Json
  import opened Env
  import opened Crypto
  import opened SchemaTypes
  import opened UserModel

  /** The `user` object of a reply: the id, name, email and role, never the password. */
  datatype PublicUser = PublicUser(id: Id, name: Value, email: Value, role: Value)

  datatype AuthReply = AuthReply(status: nat, message: string, token: Option<string>, user: Option<PublicUser>)

  function Fail(status: nat, message: string): AuthReply {
    AuthReply(status, message, None, None)
  }

  function Public(id: Id, d: Doc): PublicUser {
    PublicUser(id, IndexKey(d, "name"), IndexKey(d, "email"), IndexKey(d, "role"))
  }

  /** The role a token carries; a role that is not text is signed as empty text. */
  function RoleText(d: Doc): string {
    if "role" in d && d["role"].Str? then d["role"].s else ""
  }

  /** `jwt.sign({ id, role }, JWT_SECRET)` for a stored user. */
  function Issue(env: Env, id: Id, d: Doc): (token: string)
    ensures Verify(Some(token), JwtSecret(env)) == Some(Claims(id, RoleText(d)))
  {
    var c := Claims(id, RoleText(d));
    VerifySign(c, JwtSecret(env), JwtSecret(env));
    Sign(c, JwtSecret(env))
  }

  /** Some stored user holds the (cast) email `q`. */
  predicate EmailTaken(docs: map<Id, Doc>, q: Value) {
    exists k | k in docs :: IndexKey(docs[k], "email") == q
  }

  // ----- register -----

  /** The checks `register` makes before hashing, in their order: the early reply, or
      `None` when registration goes ahead. */
  function RegisterGuard(env: Env, docs: map<Id, Doc>, body: Doc): (r: Option<AuthReply>)
    ensures r.None? <==> (&& Has(body, "name") && Has(body, "email") && Has(body, "password") && Has(body, "role")
                          && EmailQuery(body["email"]).Some? && !EmailTaken(docs, EmailQuery(body["email"]).value)
                          && body["password"].Str?
                          && (FieldIs(body, "role", "admin") ==> FieldIs(body, "adminCode", AdminCode(env))))
    ensures r.Some? ==> r.value.token.None? && r.value.user.None? && r.value.status in {400, 403, 409, 500}
  {
    if !(Has(body, "name") && Has(body, "email") && Has(body, "password") && Has(body, "role")) then
      Some(Fail(400, "All fields are required"))
    else match EmailQuery(body["email"])
      case None => Some(Fail(500, "Server error"))
      case Some(q) =>
        if EmailTaken(docs, q) then Some(Fail(409, "User already exists"))
        else if FieldIs(body, "role", "admin") && !FieldIs(body, "adminCode", AdminCode(env)) then
          Some(Fail(403, "Invalid admin code"))
        else if !body["password"].Str? then Some(Fail(500, "Server error"))
        else None
  }

  /** A body missing one of the four fields is refused with 400, whatever else holds. */
  lemma RegisterMissingField(env: Env, docs: map<Id, Doc>, body: Doc, key: string)
    requires key in ["name", "email", "password", "role"] && !Has(body, key)
    ensures RegisterGuard(env, docs, body) == Some(Fail(400, "All fields are required"))
  {
  }

  /** The duplicate check comes before the admin-code check: a taken email gets 409
      whatever the role and code. */
  lemma RegisterDuplicateFirst(env: Env, docs: map<Id, Doc>, body: Doc)
    requires Has(body, "name") && Has(body, "email") && Has(body, "password") && Has(body, "role")
    requires EmailQuery(body["email"]).Some? && EmailTaken(docs, EmailQuery(body["email"]).value)
    ensures RegisterGuard(env, docs, body) == Some(Fail(409, "User already exists"))
  {
  }

  /** A new email with role "admin" and the wrong code gets 403. */
  lemma RegisterAdminCode(env: Env, docs: map<Id, Doc>, body: Doc)
    requires Has(body, "name") && Has(body, "email") && Has(body, "password")
    requires FieldIs(body, "role", "admin") && !FieldIs(body, "adminCode", AdminCode(env))
    requires EmailQuery(body["email"]).Some? && !EmailTaken(docs, EmailQuery(body["email"]).value)
    ensures RegisterGuard(env, docs, body) == Some(Fail(403, "Invalid admin code"))
  {
  }

  /** `new User(input)`, `save()`: the stored record, or `None` when validation or a
      unique index refuses it (nothing is stored then). */
  method Create(users: UserCollection, input: Doc, now: int) returns (r: Option<Id>)
    requires users.Valid()
    modifies users
    ensures users.Valid()
    ensures r.Some? <==> NewUser(input, now).Some? && Admits(old(users.docs), NewUser(input, now).value)
    ensures r.None? ==> users.docs == old(users.docs)
    ensures r.Some? ==> NewUser(input, now).Some? && r.value !in old(users.docs)
                        && users.docs == old(users.docs)[r.value := NewUser(input, now).value]
  {
    var d := NewUser(input, now);
    if d.None? {
      return None;
    }
    r := users.Insert(d.value);
  }

  /** The record `register` builds: the body's name, email and role and the hashed
      password, plus `phone` when `withPhone` holds. */
  function RegisterInput(body: Doc, withPhone: bool): (input: Doc)
    requires "name" in body && "email" in body && "role" in body && "password" in body && body["password"].Str?
    ensures "password" in input && input["password"] == Str(Hash(body["password"].s))
    ensures "phone" in input <==> withPhone && "phone" in body
  {
    var base := map["name" := body["name"], "email" := body["email"],
                    "password" := Str(Hash(body["password"].s)), "role" := body["role"]];
    if withPhone && "phone" in body then base["phone" := body["phone"]] else base
  }

  /** What follows the checks of `register` and `googleAuth`: create the user, sign a
      token, reply with `status` and `message`; 500 with `failure` when `save` throws. */
  method CreateAndReply(users: UserCollection, env: Env, input: Doc, now: int,
                        status: nat, message: string, failure: string) returns (r: AuthReply)
    requires users.Valid() && status != 500
    modifies users
    ensures users.Valid()
    ensures r.status == status <==> NewUser(input, now).Some? && Admits(old(users.docs), NewUser(input, now).value)
    ensures r.status != status ==> r == Fail(500, failure) && users.docs == old(users.docs)
    ensures r.status == status ==>
              && r.user.Some?
              && var id := r.user.value.id;
              && id !in old(users.docs) && id in users.docs
              && NewUser(input, now) == Some(users.docs[id])
              && users.docs == old(users.docs)[id := users.docs[id]]
              && r == AuthReply(status, message, Some(Issue(env, id, users.docs[id])), Some(Public(id, users.docs[id])))
  {
    var created := Create(users, input, now);
    if created.None? {
      return Fail(500, failure);
    }
    var id := created.value;
    var d := users.docs[id];
    r := AuthReply(status, message, Some(Issue(env, id, d)), Some(Public(id, d)));
  }

  /** `register` as written: the record it builds has no `phone`, which the schema
      requires, so `save` always throws and every request that passes the checks gets
      500; no user is ever created. */
  method Register(users: UserCollection, env: Env, body: Doc, now: int) returns (r: AuthReply)
    requires users.Valid()
    modifies users
    ensures users.Valid() && users.docs == old(users.docs)
    ensures RegisterGuard(env, old(users.docs), body).Some? ==> r == RegisterGuard(env, old(users.docs), body).value
    ensures RegisterGuard(env, old(users.docs), body).None? ==> r == Fail(500, "Server error")
  {
    var guard := RegisterGuard(env, users.docs, body);
    if guard.Some? {
      return guard.value;
    }
    var input := RegisterInput(body, false);
    NewUserRequiresPhone(input, now);
    r := CreateAndReply(users, env, input, now, 201, "User registered successfully", "Server error");
  }

  // ----- a sign-up the corrected register accepts -----
  //
  // `RegisterWithPhoneAccepts` shows on one concrete body that the corrected handler
  // reaches 201, where the handler as written answers 500. The lemmas after it, from
  // `SignupGuard` to `SignupInput`, exist only as the steps of that proof: each checks
  // one part of the body (guards, casts, validators, defaults) in a small context.

  /** A complete sign-up, with a phone. */
  const Signup: Doc := map["name" := Str("Asha"), "email" := Str("a@x.com"), "password" := Str("secret"),
                           "role" := Str("user"), "phone" := Num(9876543210)]

  /** A sign-up from someone whose email and phone no stored user holds passes every
      check and every validator, so `RegisterWithPhone` answers 201 with the new user. */
  lemma RegisterWithPhoneAccepts(env: Env, docs: map<Id, Doc>, now: int)
    requires forall k :: k in docs ==> IndexKey(docs[k], "email") != Str("a@x.com")
    requires forall k :: k in docs ==> IndexKey(docs[k], "phone") != Num(9876543210)
    ensures RegisterGuard(env, docs, Signup).None?
    ensures NewUser(RegisterInput(Signup, true), now).Some?
    ensures Admits(docs, NewUser(RegisterInput(Signup, true), now).value)
  {
    SignupGiven();
    SignupGuard(env, docs, Signup);
    SignupCasts();
    SignupInput();
    SignupValid(RegisterInput(Signup, true), CastUser(RegisterInput(Signup, true)).value, now);
  }

  /** The sign-up has every field, a new email and the role "user": no check stops it. */
  lemma SignupGuard(env: Env, docs: map<Id, Doc>, body: Doc)
    requires forall k :: k in docs ==> IndexKey(docs[k], "email") != Str("a@x.com")
    requires "name" in body && body["name"] == Str("Asha")
    requires "email" in body && body["email"] == Str("a@x.com")
    requires "password" in body && body["password"] == Str("secret")
    requires "role" in body && body["role"] == Str("user")
    ensures RegisterGuard(env, docs, body).None?
  {
    SignupEmail();
    SignupFieldsGiven(body);
    assert !EmailTaken(docs, Str("a@x.com"));
  }

  /** Every field the guard tests is present and truthy, and the role is not "admin". */
  lemma SignupFieldsGiven(body: Doc)
    requires "name" in body && body["name"] == Str("Asha")
    requires "email" in body && body["email"] == Str("a@x.com")
    requires "password" in body && body["password"] == Str("secret")
    requires "role" in body && body["role"] == Str("user")
    ensures Has(body, "name") && Has(body, "email") && Has(body, "password") && Has(body, "role")
    ensures !FieldIs(body, "role", "admin")
  {
  }

  /** The fields the sign-up gives. */
  lemma SignupGiven()
    ensures "name" in Signup && Signup["name"] == Str("Asha")
    ensures "email" in Signup && Signup["email"] == Str("a@x.com")
    ensures "password" in Signup && Signup["password"] == Str("secret")
    ensures "role" in Signup && Signup["role"] == Str("user")
  {
  }

  /** The sign-up's email is already lower-case and trimmed. */
  lemma SignupEmail()
    ensures EmailQuery(Str("a@x.com")) == Some(Str("a@x.com"))
  {
    TrimStartNoSpace("a@x.com");
    TrimEndNoSpace("a@x.com");
    assert ToLower("a@x.com") == "a@x.com";
  }

  /** Every field `register` hands the schema for `Signup` casts. */
  lemma SignupCasts()
    ensures CastUser(RegisterInput(Signup, true)).Some?
  {
    var input := RegisterInput(Signup, true);
    assert input.Keys == {"name", "email", "password", "role", "phone"};
    forall k | k in input ensures CastField(k, input[k]).Some? {
      if k == "email" { SignupEmail(); }
    }
  }

  /** The cast sign-up, defaulted and stamped, passes every validator and is indexed
      under its email and phone. */
  lemma SignupValid(input: Doc, c: Doc, now: int)
    requires CastUser(input) == Some(c)
    requires "name" in input && "email" in input && "password" in input && "role" in input && "phone" in input
    requires input["name"] == Str("Asha") && input["email"] == Str("a@x.com")
    requires input["phone"] == Num(9876543210) && input["role"] == Str("user")
    requires input["password"] == Str(Hash("secret"))
    ensures ValidUser(Stamped(c, now))
    ensures IndexKey(Stamped(c, now), "email") == Str("a@x.com")
    ensures IndexKey(Stamped(c, now), "phone") == Num(9876543210)
  {
    SignupEmail();
    SignupName();
    SignupPlainCasts();
    SignupPaths();
    CastAs(input, c, "name", Str("Asha"));
    CastAs(input, c, "email", Str("a@x.com"));
    CastAs(input, c, "phone", Num(9876543210));
    CastAs(input, c, "role", Str("user"));
    CastAs(input, c, "password", Str(Hash("secret")));
    SignupStamped(c, now);
  }

  /** The cast sign-up stamped: every validator holds. */
  lemma SignupStamped(c: Doc, now: int)
    requires "name" in c && c["name"] == Str("Asha") && "email" in c && c["email"] == Str("a@x.com")
    requires "phone" in c && c["phone"] == Num(9876543210) && "role" in c && c["role"] == Str("user")
    requires "password" in c && c["password"] == Str(Hash("secret"))
    ensures ValidUser(Stamped(c, now))
    ensures IndexKey(Stamped(c, now), "email") == Str("a@x.com")
    ensures IndexKey(Stamped(c, now), "phone") == Num(9876543210)
  {
    ValidEmailAccepts();
    ValidFromValues(Stamped(c, now), "Asha", "a@x.com", 9876543210, "user", Hash("secret"));
  }

  /** The sign-up's fields are paths of the schema. */
  lemma SignupPaths()
    ensures "name" in Paths - {"createdAt", "updatedAt"} && "email" in Paths - {"createdAt", "updatedAt"}
    ensures "phone" in Paths - {"createdAt", "updatedAt"} && "role" in Paths - {"createdAt", "updatedAt"}
    ensures "password" in Paths - {"createdAt", "updatedAt"}
  {
  }

  /** The phone, role and hashed password of the sign-up cast to themselves. */
  lemma SignupPlainCasts()
    ensures CastField("phone", Num(9876543210)) == Some(Num(9876543210))
    ensures CastField("role", Str("user")) == Some(Str("user"))
    ensures CastField("password", Str(Hash("secret"))) == Some(Str(Hash("secret")))
  {
  }

  /** The sign-up's name has no surrounding space to trim. */
  lemma SignupName()
    ensures CastField("name", Str("Asha")) == Some(Str("Asha"))
  {
    TrimStartNoSpace("Asha");
    TrimEndNoSpace("Asha");
  }

  /** A field of the input that casts to `v` is kept as `v`. */
  lemma CastAs(input: Doc, c: Doc, k: string, v: Value)
    requires CastUser(input) == Some(c)
    requires k in input && input[k] == v && k in Paths - {"createdAt", "updatedAt"} && CastField(k, v) == Some(v)
    ensures k in c && c[k] == v
  {
  }

  /** The validators on a user whose five given fields hold these values. */
  lemma ValidFromValues(d: Doc, name: string, email: string, phone: int, role: string, password: string)
    requires "name" in d && d["name"] == Str(name) && name != ""
    requires "email" in d && d["email"] == Str(email) && email != "" && ValidEmail(email)
    requires "phone" in d && d["phone"] == Num(phone)
    requires "role" in d && d["role"] == Str(role) && role in Roles
    requires "password" in d && d["password"] == Str(password) && |password| >= 6
    ensures ValidUser(d)
  {
  }

  /** The record `register` hands the schema for `Signup`. */
  lemma SignupInput()
    ensures var input := RegisterInput(Signup, true);
      && input.Keys == {"name", "email", "password", "role", "phone"}
      && input["name"] == Str("Asha") && input["email"] == Str("a@x.com")
      && input["phone"] == Num(9876543210) && input["role"] == Str("user")
      && input["password"] == Str(Hash("secret"))
  {
  }

  /** `register` with the body's `phone` passed on to the new user: the same checks,
      then a stored user holding the password's hash, and a token for its id and role. */
  method RegisterWithPhone(users: UserCollection, env: Env, body: Doc, now: int) returns (r: AuthReply)
    requires users.Valid()
    modifies users
    ensures users.Valid()
    ensures RegisterGuard(env, old(users.docs), body).Some? ==>
              r == RegisterGuard(env, old(users.docs), body).value && users.docs == old(users.docs)
    ensures r.status != 201 ==> users.docs == old(users.docs)
    ensures r.status == 201 <==>
              && RegisterGuard(env, old(users.docs), body).None?
              && NewUser(RegisterInput(body, true), now).Some?
              && Admits(old(users.docs), NewUser(RegisterInput(body, true), now).value)
    ensures r.status == 201 ==>
              && r.user.Some?
              && var id := r.user.value.id;
              && id !in old(users.docs) && id in users.docs
              && users.docs == old(users.docs)[id := users.docs[id]]
              && "password" in users.docs[id] && users.docs[id]["password"] == Str(Hash(body["password"].s))
              && r.token == Some(Issue(env, id, users.docs[id]))
              && r.user == Some(Public(id, users.docs[id]))
  {
    var guard := RegisterGuard(env, users.docs, body);
    if guard.Some? {
      return guard.value;
    }
    var input := RegisterInput(body, true);
    if NewUser(input, now).Some? {
      NewUserKeepsPassword(input, now);
    }
    r := CreateAndReply(users, env, input, now, 201, "User registered successfully", "Server error");
  }

  // ----- login -----

  /** `user.password || ""` */
  function StoredHash(d: Doc): string {
    if "password" in d && d["password"].Str? then d["password"].s else ""
  }

  /** `login`: 400 without an email or password; the same 401 for an unknown email and
      a wrong password; otherwise a token for the user's id and role. */
  function Login(env: Env, docs: map<Id, Doc>, body: Doc): (r: AuthReply)
    requires UniqueOn(docs, "email")
    ensures r.status in {200, 400, 401, 500}
    ensures r.status == 400 <==> !Has(body, "email") || !Has(body, "password")
    ensures r.status == 401 ==> r == Fail(401, "Invalid email or password")
    ensures r.status == 200 ==>
      && EmailQuery(body["email"]).Some? && body["password"].Str?
      && var found := FindByKey(docs, "email", EmailQuery(body["email"]).value);
      && found.Some?
      && Compare(body["password"].s, StoredHash(docs[found.value]))
      && r == AuthReply(200, "", Some(Issue(env, found.value, docs[found.value])),
                        Some(Public(found.value, docs[found.value])))
  {
    if !Has(body, "email") || !Has(body, "password") then Fail(400, "Email and password required")
    else match EmailQuery(body["email"])
      case None => Fail(500, "Server error")
      case Some(q) =>
        match FindByKey(docs, "email", q)
        case None => Fail(401, "Invalid email or password")
        case Some(id) =>
          if !body["password"].Str? then Fail(500, "Server error")
          else if !Compare(body["password"].s, StoredHash(docs[id])) then Fail(401, "Invalid email or password")
          else AuthReply(200, "", Some(Issue(env, id, docs[id])), Some(Public(id, docs[id])))
  }

  /** An unknown email and a wrong password get the very same reply. */
  lemma LoginHidesWhichFailed(env: Env, docs: map<Id, Doc>, body1: Doc, body2: Doc)
    requires UniqueOn(docs, "email")
    requires Has(body1, "email") && Has(body1, "password") && EmailQuery(body1["email"]).Some?
    requires FindByKey(docs, "email", EmailQuery(body1["email"]).value).None?
    requires Has(body2, "email") && Has(body2, "password") && EmailQuery(body2["email"]).Some?
    requires body2["password"].Str?
    requires var f := FindByKey(docs, "email", EmailQuery(body2["email"]).value);
             f.Some? && !Compare(body2["password"].s, StoredHash(docs[f.value]))
    ensures Login(env, docs, body1) == Login(env, docs, body2)
  {
  }

  /** A user stored with the hash of a password (as `register` stores it) logs in with
      that password, and the token names that user and role under the signing key. */
  lemma LoginAfterRegister(env: Env, docs: map<Id, Doc>, id: Id, body: Doc, email: string, password: string)
    requires UniqueOn(docs, "email")
    requires id in docs && StoredHash(docs[id]) == Hash(password)
    requires EmailQuery(Str(email)) == Some(Str(email)) && FindByKey(docs, "email", Str(email)) == Some(id)
    requires Get(body, "email") == Some(Str(email)) && Get(body, "password") == Some(Str(password))
    requires password != "" && email != ""
    ensures Login(env, docs, body) == AuthReply(200, "", Some(Issue(env, id, docs[id])), Some(Public(id, docs[id])))
    ensures Verify(Login(env, docs, body).token, JwtSecret(env)) == Some(Claims(id, RoleText(docs[id])))
  {
    assert Has(body, "email") && Has(body, "password");
    assert body["email"] == Str(email);
    assert EmailQuery(body["email"]) == Some(Str(email));
    assert body["password"].Str?;
    CompareHash(password, password);
    assert Compare(body["password"].s, StoredHash(docs[id]));
  }

  /** A user without a password (a Google account) can never log in with one. */
  lemma NoPasswordNoLogin(env: Env, docs: map<Id, Doc>, body: Doc)
    requires UniqueOn(docs, "email")
    requires Has(body, "email") && EmailQuery(body["email"]).Some?
    requires var f := FindByKey(docs, "email", EmailQuery(body["email"]).value);
             f.Some? && ("password" !in docs[f.value] || docs[f.value]["password"] == Null)
    ensures Login(env, docs, body).status != 200
  {
    HashIsNotPlaintext(if "password" in body && body["password"].Str? then body["password"].s else "");
  }

  // ----- Google sign-in -----

  /** The email and name `googleAuth` goes on: those of the verified profile when a
      `tokenId` is given, else the body's own, unchecked; `None` when the token does not
      verify. A missing email is sent to the database as null. */
  function GoogleProfileOf(issued: map<string, IdToken>, clientId: string, body: Doc): (r: Option<(Value, Option<Value>)>)
    ensures !Has(body, "tokenId") ==> r == Some((IndexKey(body, "email"), Get(body, "name")))
    ensures Has(body, "tokenId") ==> (r.Some? <==>
      body["tokenId"].Str? && body["tokenId"].s in issued && issued[body["tokenId"].s].audience == clientId)
    ensures Has(body, "tokenId") && r.Some? ==>
      var p := issued[body["tokenId"].s].profile;
      r == Some((Str(p.email), Some(Str(p.name))))
  {
    if !Has(body, "tokenId") then Some((IndexKey(body, "email"), Get(body, "name")))
    else if !body["tokenId"].Str? then None
    else match VerifyIdToken(issued, body["tokenId"].s, clientId)
      case None => None
      case Some(p) => Some((Str(p.email), Some(Str(p.name))))
  }

  /** Without a `tokenId` nothing is verified: a body naming the email of any stored
      user (as stored, lower-case and trimmed) is taken to that user's account, so
      `googleAuth` signs it in with that user's token. */
  lemma GoogleSignInBypass(issued: map<string, IdToken>, clientId: string, docs: map<Id, Doc>, id: Id, e: string)
    requires UniqueOn(docs, "email")
    requires id in docs && IndexKey(docs[id], "email") == Str(e) && Trim(ToLower(e)) == e
    ensures var p := GoogleProfileOf(issued, clientId, map["email" := Str(e)]);
      && p.Some? && EmailQuery(p.value.0) == Some(Str(e))
      && FindByKey(docs, "email", Str(e)) == Some(id)
  {
    var body: Doc := map["email" := Str(e)];
    assert !Has(body, "tokenId");
    var found := FindByKey(docs, "email", Str(e));
    assert found.Some?;
  }

  /** `googleAuth` as written: a known email logs in; an unknown one would be created
      with role "user" and a null password, but without a phone the save always throws,
      so no user is ever created and "Signup successful" is never sent. */
  method GoogleAuth(users: UserCollection, env: Env, issued: map<string, IdToken>, body: Doc, now: int)
    returns (r: AuthReply)
    requires users.Valid()
    modifies users
    ensures users.Valid() && users.docs == old(users.docs)
    ensures r.status in {200, 500}
    ensures r.status == 500 ==> r == Fail(500, "Google authentication failed")
    ensures r.message != "Signup successful"
    ensures GoogleProfileOf(issued, GoogleClientId(env), body).None? ==> r.status == 500
    ensures GoogleProfileOf(issued, GoogleClientId(env), body).Some? ==>
      var email := GoogleProfileOf(issued, GoogleClientId(env), body).value.0;
      EmailQuery(email).Some? && FindByKey(old(users.docs), "email", EmailQuery(email).value).Some? ==>
      var id := FindByKey(old(users.docs), "email", EmailQuery(email).value).value;
      r == AuthReply(200, "Login successful", Some(Issue(env, id, old(users.docs)[id])), Some(Public(id, old(users.docs)[id])))
    ensures r.status == 200 ==>
      && GoogleProfileOf(issued, GoogleClientId(env), body).Some?
      && var email := GoogleProfileOf(issued, GoogleClientId(env), body).value.0;
      && EmailQuery(email).Some?
      && var found := FindByKey(old(users.docs), "email", EmailQuery(email).value);
      && found.Some?
      && r == AuthReply(200, "Login successful", Some(Issue(env, found.value, old(users.docs)[found.value])),
                        Some(Public(found.value, old(users.docs)[found.value])))
  {
    var profile := GoogleProfileOf(issued, GoogleClientId(env), body);
    if profile.None? {
      return Fail(500, "Google authentication failed");
    }
    var (email, name) := profile.value;
    var q := EmailQuery(email);
    if q.None? {
      return Fail(500, "Google authentication failed");
    }
    var found := FindByKey(users.docs, "email", q.value);
    if found.Some? {
      var d := users.docs[found.value];
      return AuthReply(200, "Login successful", Some(Issue(env, found.value, d)), Some(Public(found.value, d)));
    }
    var input := map["email" := email, "password" := Null, "role" := Str("user")];
    if name.Some? {
      input := input["name" := name.value];
    }
    NewUserRequiresPhone(input, now);
    r := CreateAndReply(users, env, input, now, 200, "Signup successful", "Google authentication failed");
  }
}
