/**
 * The authentication middleware (backend/middleware/auth.js): `protect` turns an
 * `Authorization` header into the calling user, `adminOnly` admits admins. Tokens are
 * verified with the constant key "ZIPCARE", whatever key the auth controller signs with.
 */
module AuthMiddleware {
  import opened Wrappers
  import opened Text
  import opened Json
  import opened Env
  import opened Crypto
  import opened AuthController

  const VerifyKey: string := "ZIPCARE"

  /** `req.user`: the stored user, without its password, and its id. */
  datatype Caller = Caller(id: Id, user: Doc)

  /** Either the request goes on to the next handler, with `req.user` set, or it is
      answered here. */
  datatype Gate = Next(caller: Caller) | Deny(status: nat, message: string)

  /** `authorization.split(" ")[1]`: `None` is `undefined`. */
  function BearerToken(header: string): (r: Option<string>)
    ensures r.Some? <==> |Split(header, ' ')| > 1
  {
    var words := Split(header, ' ');
    if |words| > 1 then Some(words[1]) else None
  }

  /** `protect` with verification key `key`, over the stored users. */
  function ProtectWith(key: string, header: Option<string>, docs: map<Id, Doc>): (r: Gate)
    ensures r.Next? ==> r.caller.id in docs && r.caller.user == Remove(docs[r.caller.id], "password")
    ensures r.Deny? ==> r.status == 401
    ensures (header.None? || !StartsWith(header.value, "Bearer")) ==> r == Deny(401, "No token, authorization denied")
  {
    if header.Some? && StartsWith(header.value, "Bearer") then
      match Verify(BearerToken(header.value), key)
      case None => Deny(401, "Invalid token")
      case Some(claims) =>
        if claims.id in docs then Next(Caller(claims.id, Remove(docs[claims.id], "password")))
        else Deny(401, "User not found")
    else Deny(401, "No token, authorization denied")
  }

  /** `protect` as written: verification with the constant key. */
  function Protect(header: Option<string>, docs: map<Id, Doc>): (r: Gate)
    ensures r.Next? ==> "password" !in r.caller.user
  {
    ProtectWith(VerifyKey, header, docs)
  }

  /** `protect` verifying with the key the auth controller signs with. */
  function ProtectConfigured(env: Env, header: Option<string>, docs: map<Id, Doc>): (r: Gate)
    ensures r.Next? ==> "password" !in r.caller.user
  {
    ProtectWith(JwtSecret(env), header, docs)
  }

  /** `adminOnly`: `None` lets the request through, otherwise the 403 reply. */
  function AdminOnly(caller: Option<Caller>): (r: Option<Gate>)
    ensures r.None? <==> caller.Some? && FieldIs(caller.value.user, "role", "admin")
    ensures r.Some? ==> r.value == Deny(403, "Access denied: Admins only")
  {
    if caller.Some? && FieldIs(caller.value.user, "role", "admin") then None
    else Some(Deny(403, "Access denied: Admins only"))
  }

  /** The header a client sends: "Bearer", a space, the token. */
  function BearerHeader(token: string): string {
    "Bearer " + token
  }

  /** The token is read back from the header it was sent in. */
  lemma BearerTokenOf(token: string)
    requires ' ' !in token
    ensures StartsWith(BearerHeader(token), "Bearer")
    ensures BearerToken(BearerHeader(token)) == Some(token)
  {
    assert BearerHeader(token) == "Bearer" + [' '] + token;
    assert ' ' !in "Bearer";
    SplitAtFirst("Bearer", ' ', token);
    SplitNoSeparator(token, ' ');
  }

  /** A token signed with `signKey` for a stored user passes `ProtectWith(verifyKey)`
      exactly when the two keys are equal; the caller is then that user. */
  lemma {:induction false} ProtectAcceptsIff(signKey: string, verifyKey: string, c: Claims, docs: map<Id, Doc>)
    requires c.id in docs
    ensures var g := ProtectWith(verifyKey, Some(BearerHeader(Sign(c, signKey))), docs);
      && (g.Next? <==> signKey == verifyKey)
      && (g.Next? ==> g.caller.id == c.id)
      && (g.Deny? ==> g == Deny(401, "Invalid token"))
  {
    SignHasNoSpace(c, signKey);
    BearerTokenOf(Sign(c, signKey));
    VerifySign(c, signKey, verifyKey);
  }

  /** A verified token for an id with no stored user is refused with "User not found". */
  lemma ProtectUnknownUser(key: string, c: Claims, docs: map<Id, Doc>)
    requires c.id !in docs
    ensures ProtectWith(key, Some(BearerHeader(Sign(c, key))), docs) == Deny(401, "User not found")
  {
    SignHasNoSpace(c, key);
    BearerTokenOf(Sign(c, key));
    VerifySign(c, key, key);
  }

  /** As written: when JWT_SECRET is set to anything but "ZIPCARE", no token the auth
      controller issues is accepted by `protect`, so every protected route answers 401. */
  lemma ConfiguredSecretLocksOut(env: Env, id: Id, d: Doc, docs: map<Id, Doc>)
    requires JwtSecret(env) != VerifyKey
    requires id in docs
    ensures Protect(Some(BearerHeader(Issue(env, id, d))), docs) == Deny(401, "Invalid token")
  {
    ProtectAcceptsIff(JwtSecret(env), VerifyKey, Claims(id, RoleText(d)), docs);
  }

  /** Verifying with the configured key: every token the auth controller issues for a
      stored user is accepted, and the caller is that user without its password. */
  lemma ConfiguredSecretAccepts(env: Env, id: Id, d: Doc, docs: map<Id, Doc>)
    requires id in docs
    ensures ProtectConfigured(env, Some(BearerHeader(Issue(env, id, d))), docs)
            == Next(Caller(id, Remove(docs[id], "password")))
  {
    ProtectAcceptsIff(JwtSecret(env), JwtSecret(env), Claims(id, RoleText(d)), docs);
  }

  /** With JWT_SECRET unset the two keys coincide and `protect` accepts issued tokens. */
  lemma DefaultSecretAccepts(env: Env, id: Id, d: Doc, docs: map<Id, Doc>)
    requires env.jwtSecret.None?
    requires id in docs
    ensures Protect(Some(BearerHeader(Issue(env, id, d))), docs).Next?
  {
    ProtectAcceptsIff(JwtSecret(env), VerifyKey, Claims(id, RoleText(d)), docs);
  }

  // ----- the module's first export -----

  /** The first middleware the file exports: strips the first "Bearer " from the header
      and attaches the decoded claims, without looking the user up. */
  function LegacyAuth(header: Option<string>): (r: Result)
    ensures r.Passed? ==> header.Some? && Verify(Some(ReplaceFirst(header.value, "Bearer ", "")), VerifyKey) == Some(r.claims)
  {
    var token := if header.Some? then ReplaceFirst(header.value, "Bearer ", "") else "";
    if token == "" then Denied(Deny(401, "No token, authorization denied"))
    else match Verify(Some(token), VerifyKey)
      case None => Denied(Deny(401, "Invalid token"))
      case Some(c) => Passed(c)
  }

  datatype Result = Passed(claims: Claims) | Denied(gate: Gate)

  /** The values assigned to `module.exports`, in order. */
  datatype Export = LegacyMiddleware | ProtectAndAdminOnly

  const ExportAssignments: seq<Export> := [LegacyMiddleware, ProtectAndAdminOnly, ProtectAndAdminOnly]

  /** What a `require` of the file sees: the last assignment. */
  function Exported(assignments: seq<Export>): (r: Export)
    requires |assignments| > 0
    ensures r in assignments
    ensures r == assignments[|assignments| - 1]
  {
    assignments[|assignments| - 1]
  }

  /** A further assignment replaces whatever was exported before. */
  lemma LastAssignmentWins(assignments: seq<Export>, e: Export)
    ensures Exported(assignments + [e]) == e
    ensures |assignments| > 0 && e != Exported(assignments) ==> Exported(assignments + [e]) != Exported(assignments)
  {
  }

  /** The first export is overwritten, so no router can reach `LegacyAuth`. */
  lemma LegacyIsDead()
    ensures Exported(ExportAssignments) == ProtectAndAdminOnly
    ensures ExportAssignments[0] == LegacyMiddleware
  {
  }
}
