/**
 * Stand-ins for the three foreign libraries the backend calls: bcryptjs
 * (`hash`, `compare`), jsonwebtoken (`sign`, `verify`) and google-auth-library
 * (`verifyIdToken`). Each is a small concrete definition chosen so that exactly the
 * properties the application relies on hold, and those properties are proved as
 * lemmas:
 *   - a password matches a hash exactly when the hash was made from it, and a hash
 *     never equals the plaintext;
 *   - a token verifies exactly when the verifying key is the signing key, and then
 *     yields the claims it was signed with.
 * Salts, expiry and real cryptographic strength are not modelled.
 */
module Crypto {
  import opened Wrappers
  import opened Text
  import opened Decimal
  import opened Json

  // ----- bcryptjs -----

  /** The prefix of a bcrypt hash made with cost 10. */
  const BcryptPrefix: string := "$2a$10$"

  /** `bcrypt.hash(password, 10)`, idealised: different passwords never collide. */
  function Hash(password: string): (h: string)
    ensures StartsWith(h, BcryptPrefix)
    ensures |h| > |password|
  {
    BcryptPrefix + password
  }

  /** `bcrypt.compare(password, hash)`. */
  predicate Compare(password: string, hash: string) {
    hash == Hash(password)
  }

  /** A password matches the hash of a password exactly when the two are the same. */
  lemma CompareHash(password: string, stored: string)
    ensures Compare(password, Hash(stored)) <==> password == stored
  {
    if Compare(password, Hash(stored)) {
      assert password == Hash(password)[|BcryptPrefix|..] == Hash(stored)[|BcryptPrefix|..];
    }
  }

  /** A hash is never the plaintext, and nothing matches the empty hash. */
  lemma HashIsNotPlaintext(password: string)
    ensures Hash(password) != password
    ensures !Compare(password, "")
  {
  }

  // ----- jsonwebtoken -----

  /** The claims every issued token carries: the user's id and role. */
  datatype Claims = Claims(id: Id, role: string)

  /** One character of a token part. The separator '.', the space and the escape
      character '~' are each written as two characters, so that, as with base64url
      in a real token, no part contains a separator or a space. */
  function EscapeChar(ch: char): string {
    if ch == '.' then "~d" else if ch == ' ' then "~s" else if ch == '~' then "~~" else [ch]
  }

  /** A role or key as it is written into a token. */
  function Escape(s: string): (t: string)
    ensures '.' !in t && ' ' !in t
  {
    if s == [] then [] else EscapeChar(s[0]) + Escape(s[1..])
  }

  /** Reads a token part back; `None` for text no `Escape` produces. */
  function Unescape(t: string): Option<string> {
    if t == [] then Some([])
    else if t[0] == '~' then
      if |t| < 2 then None
      else
        var ch := if t[1] == 'd' then Some('.') else if t[1] == 's' then Some(' ')
                  else if t[1] == '~' then Some('~') else None;
        match (ch, Unescape(t[2..]))
        case (Some(c), Some(rest)) => Some([c] + rest)
        case _ => None
    else if t[0] == '.' || t[0] == ' ' then None
    else
      match Unescape(t[1..])
      case None => None
      case Some(rest) => Some([t[0]] + rest)
  }

  /** Every text, spaces and dots included, is read back from its escaped form. */
  lemma {:induction false} UnescapeEscape(s: string)
    ensures Unescape(Escape(s)) == Some(s)
  {
    if s != [] {
      UnescapeEscape(s[1..]);
      assert Escape(s) == EscapeChar(s[0]) + Escape(s[1..]);
      UnescapeChar(s[0], Escape(s[1..]));
      assert s == [s[0]] + s[1..];
    }
  }

  /** One escaped character is read back before the rest of the part. */
  lemma UnescapeChar(c: char, rest: string)
    ensures Unescape(EscapeChar(c) + rest) ==
            match Unescape(rest) case None => None case Some(r) => Some([c] + r)
  {
    var e := EscapeChar(c);
    if |e| == 2 {
      assert (e + rest)[2..] == rest;
    } else {
      assert (e + rest)[1..] == rest;
    }
  }

  /** `jwt.sign(claims, key)`, idealised: the signature is a function of the key
      that only the same key reproduces. */
  function Sign(c: Claims, key: string): (token: string)
    ensures |token| > 0
  {
    NatToString(c.id) + "." + Escape(c.role) + "." + Escape(key)
  }

  /** Takes a token apart into its claims and the key it was signed with. */
  function Decode(token: string): Option<(Claims, string)> {
    match IndexOf(token, '.')
    case None => None
    case Some(i) =>
      match ParseNat(token[..i])
      case None => None
      case Some(id) =>
        var rest := token[i + 1..];
        match IndexOf(rest, '.')
        case None => None
        case Some(j) =>
          match (Unescape(rest[..j]), Unescape(rest[j + 1..]))
          case (Some(role), Some(key)) => Some((Claims(id, role), key))
          case _ => None
  }

  /** `jwt.verify(token, key)`: the claims, or `None` where the library throws
      (no token, a malformed token, or a signature made with another key). */
  function Verify(token: Option<string>, key: string): (r: Option<Claims>)
    ensures r.Some? ==> token.Some? && Decode(token.value) == Some((r.value, key))
  {
    match token
    case None => None
    case Some(t) =>
      match Decode(t)
      case None => None
      case Some((c, k)) => if k == key then Some(c) else None
  }

  lemma {:induction false} DecodeSign(c: Claims, key: string)
    ensures Decode(Sign(c, key)) == Some((c, key))
  {
    var digits := NatToString(c.id);
    var role := Escape(c.role);
    var k := Escape(key);
    var token := Sign(c, key);
    DigitsExclude(digits, '.');
    assert token == digits + ['.'] + (role + "." + k);
    IndexOfFirst(digits, '.', role + "." + k);
    assert token[..|digits|] == digits;
    ParseNatToString(c.id);
    var rest := token[|digits| + 1..];
    assert rest == role + ['.'] + k;
    IndexOfFirst(role, '.', k);
    assert rest[..|role|] == role;
    assert rest[|role| + 1..] == k;
    UnescapeEscape(c.role);
    UnescapeEscape(key);
  }

  /** Verification succeeds exactly when the verifying key is the signing key, and
      then returns the claims that were signed. */
  lemma VerifySign(c: Claims, signKey: string, verifyKey: string)
    ensures Verify(Some(Sign(c, signKey)), verifyKey) == if signKey == verifyKey then Some(c) else None
  {
    DecodeSign(c, signKey);
  }

  /** Tokens never contain a space, whatever the role and key, so they survive being
      sent as the second word of an `Authorization` header. */
  lemma SignHasNoSpace(c: Claims, key: string)
    ensures ' ' !in Sign(c, key)
  {
    var digits := NatToString(c.id);
    DigitsExclude(digits, ' ');
    assert Sign(c, key) == digits + "." + Escape(c.role) + "." + Escape(key);
  }

  // ----- google-auth-library -----

  /** The profile a Google ID token vouches for. */
  datatype GoogleProfile = GoogleProfile(email: string, name: string)

  /** An ID token Google signed: the client id it was issued for, and the account. */
  datatype IdToken = IdToken(audience: string, profile: GoogleProfile)

  /** `client.verifyIdToken({ idToken, audience })`: `issued` holds the ID tokens
      Google signed; a token it did not sign, or signed for another client id, throws. */
  function VerifyIdToken(issued: map<string, IdToken>, idToken: string, audience: string): (r: Option<GoogleProfile>)
    ensures r.Some? <==> idToken in issued && issued[idToken].audience == audience
    ensures r.Some? ==> r.value == issued[idToken].profile
  {
    if idToken in issued && issued[idToken].audience == audience then Some(issued[idToken].profile) else None
  }
}
