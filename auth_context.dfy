/**
 * The browser-side session (AuthContext): the signed-in user, a loading flag that
 * holds back every page until the stored session has been read, and the
 * `localStorage` entry "authUser" that mirrors the user across reloads.
 *
 * React runs the two effects of the provider after a render, with the values that
 * render saw; the methods below step the state the way those effects and `logout` do.
 * `JSON.stringify`/`JSON.parse` of the user object is modelled by a length-prefixed
 * encoding of its five text fields, which reads back exactly what it wrote.
 */
module AuthContext {
  import opened Wrappers
  import opened Text
  import opened Decimal

  /** The user object the sign-in pages store: the server's user plus the token. */
  datatype SessionUser = SessionUser(id: string, name: string, email: string, role: string, token: string)

  const StorageKey := "authUser"

  /** One field of the serialisation: its length in decimal, a colon, then the text. */
  function Field(s: string): (r: string)
    ensures |r| > |s|
  {
    NatToString(|s|) + ":" + s
  }

  /** `JSON.stringify(user)` */
  function Serialise(u: SessionUser): (r: string)
    ensures r != ""
  {
    Field(u.id) + Field(u.name) + Field(u.email) + Field(u.role) + Field(u.token)
  }

  /** Reads one field off the front of `s`, giving the field and what follows it. */
  function ReadField(s: string): (r: Option<(string, string)>)
    ensures r.Some? ==> |r.value.1| < |s|
  {
    match IndexOf(s, ':')
    case None => None
    case Some(k) =>
      match ParseNat(s[..k])
      case None => None
      case Some(n) =>
        if k + 1 + n <= |s| then Some((s[k + 1..k + 1 + n], s[k + 1 + n..])) else None
  }

  lemma {:induction false} ReadFieldOf(f: string, rest: string)
    ensures ReadField(Field(f) + rest) == Some((f, rest))
  {
    var digits := NatToString(|f|);
    var s := Field(f) + rest;
    assert s == digits + [':'] + (f + rest);
    DigitsExclude(digits, ':');
    IndexOfFirst(digits, ':', f + rest);
    assert s[..|digits|] == digits;
    ParseNatToString(|f|);
    assert s[|digits| + 1..|digits| + 1 + |f|] == f;
    assert s[|digits| + 1 + |f|..] == rest;
  }

  /** `JSON.parse(text)`; `None` where the text is not a stored user (parsing throws). */
  function Parse(s: string): (r: Option<SessionUser>)
  {
    match ReadField(s)
    case None => None
    case Some((id, s1)) =>
      match ReadField(s1)
      case None => None
      case Some((name, s2)) =>
        match ReadField(s2)
        case None => None
        case Some((email, s3)) =>
          match ReadField(s3)
          case None => None
          case Some((role, s4)) =>
            match ReadField(s4)
            case None => None
            case Some((token, s5)) =>
              if s5 == "" then Some(SessionUser(id, name, email, role, token)) else None
  }

  /** What is written to storage reads back as the same user. */
  lemma {:induction false} ParseSerialise(u: SessionUser)
    ensures Parse(Serialise(u)) == Some(u)
  {
    var s4 := Field(u.token);
    var s3 := Field(u.role) + s4;
    var s2 := Field(u.email) + s3;
    var s1 := Field(u.name) + s2;
    assert Serialise(u) == Field(u.id) + s1;
    ReadFieldOf(u.id, s1);
    ReadFieldOf(u.name, s2);
    ReadFieldOf(u.email, s3);
    ReadFieldOf(u.role, s4);
    ReadFieldOf(u.token, "");
    assert s4 == Field(u.token) + "";
  }

  class Session {
    var user: Option<SessionUser>
    var loading: bool
    var storage: map<string, string>

    /** The storage entry mirrors the user: its serialisation, or no entry when signed out. */
    predicate Mirrored()
      reads this
    {
      match user
      case None => StorageKey !in storage
      case Some(u) => StorageKey in storage && storage[StorageKey] == Serialise(u)
    }

    /** `!!user` */
    function IsAuthenticated(): (r: bool)
      reads this
      ensures r <==> user != None
    {
      user.Some?
    }

    /** `user?.role === "admin"`: only a signed-in user can be an admin. */
    function IsAdmin(): (r: bool)
      reads this
      ensures r ==> IsAuthenticated()
      ensures r <==> user.Some? && user.value.role == "admin"
    {
      match user
      case None => false
      case Some(u) => u.role == "admin"
    }

    /** `{!loading && children}`: nothing below the provider renders while loading. */
    function RendersChildren(): (r: bool)
      reads this
      ensures r <==> !loading
    {
      !loading
    }

    /** The first render: no user yet, loading, storage as the browser has it. */
    constructor(browserStorage: map<string, string>)
      ensures user == None && loading && storage == browserStorage
    {
      user := None;
      loading := true;
      storage := browserStorage;
    }

    /** The restoring effect: a non-empty "authUser" entry is parsed into the user, then
        loading ends. An entry that does not parse throws, and loading never ends. */
    method Restore() returns (crashed: bool)
      modifies this
      ensures storage == old(storage)
      ensures crashed <==>
        (StorageKey in storage && storage[StorageKey] != "" && Parse(storage[StorageKey]).None?)
      ensures crashed ==> user == old(user) && loading == old(loading)
      ensures !crashed ==> !loading
      ensures !crashed && StorageKey in storage && storage[StorageKey] != "" ==>
        user == Parse(storage[StorageKey])
      ensures (StorageKey !in storage || storage[StorageKey] == "") ==> user == old(user)
    {
      crashed := false;
      if StorageKey in storage && storage[StorageKey] != "" {
        var parsed := Parse(storage[StorageKey]);
        if parsed.None? {
          crashed := true;
          return;
        }
        user := parsed;
      }
      loading := false;
    }

    /** The persisting effect, run with the user of the render that scheduled it. */
    method Persist(rendered: Option<SessionUser>)
      modifies this
      ensures user == old(user) && loading == old(loading)
      ensures rendered.Some? ==> storage == old(storage)[StorageKey := Serialise(rendered.value)]
      ensures rendered.None? ==> storage == old(storage) - {StorageKey}
    {
      if rendered.Some? {
        storage := storage[StorageKey := Serialise(rendered.value)];
      } else {
        storage := storage - {StorageKey};
      }
    }

    /** Mounting the provider: both effects run after the first render (the persisting
        one still sees no user, so it drops the entry), and when a user was restored the
        next render persists it again. */
    method Mount() returns (crashed: bool)
      requires user == None && loading
      modifies this
      ensures crashed <==> (StorageKey in old(storage) && old(storage)[StorageKey] != ""
                            && Parse(old(storage)[StorageKey]).None?)
      ensures crashed ==> !RendersChildren()
      ensures !crashed ==> RendersChildren() && Mirrored()
      ensures !crashed && StorageKey in old(storage) && old(storage)[StorageKey] != "" ==>
        user == Parse(old(storage)[StorageKey])
      ensures (StorageKey !in old(storage) || old(storage)[StorageKey] == "") ==>
        user == None && storage == old(storage) - {StorageKey}
      ensures forall k :: k != StorageKey ==> (k in storage <==> k in old(storage))
      ensures forall k :: k != StorageKey && k in storage ==> storage[k] == old(storage)[k]
    {
      var first := user;
      crashed := Restore();
      if crashed {
        return;
      }
      Persist(first);
      if user != first {
        Persist(user);
      }
    }

    /** A reload after a session was saved brings back the same user. */
    method Reload() returns (crashed: bool)
      requires user == None && loading
      requires exists u :: StorageKey in storage && storage[StorageKey] == Serialise(u)
      modifies this
      ensures !crashed && RendersChildren() && Mirrored()
      ensures StorageKey in old(storage) && user.Some? && old(storage)[StorageKey] == Serialise(user.value)
    {
      ghost var u :| StorageKey in storage && storage[StorageKey] == Serialise(u);
      ParseSerialise(u);
      crashed := Mount();
    }

    /** `setUser(next)` as the sign-in pages call it, followed by the persisting effect. */
    method SetUser(next: Option<SessionUser>)
      modifies this
      ensures user == next && loading == old(loading)
      ensures Mirrored()
      ensures next.Some? ==> storage == old(storage)[StorageKey := Serialise(next.value)]
      ensures next.None? ==> storage == old(storage) - {StorageKey}
    {
      user := next;
      Persist(user);
    }

    /** `logout`: no user, no stored entry, everything else in storage kept. */
    method Logout()
      modifies this
      ensures user == None && loading == old(loading)
      ensures Mirrored() && !IsAuthenticated() && !IsAdmin()
      ensures storage == old(storage) - {StorageKey}
    {
      var before := user;
      user := None;
      storage := storage - {StorageKey};
      if before != user {
        Persist(user);
      }
    }
  }
}
