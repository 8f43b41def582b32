/**
 * The sign-in page (Signin): the empty-field check, what a refused and an accepted
 * login do to the session and to `localStorage`, and the page each role lands on,
 * for the email form and for Google sign-in alike.
 */
module SigninPage {
  import opened Wrappers
  import opened Json
  import opened AuthContext
  import ProtectedRoute
  import AppRoutes

  const FillMessage := "Please fill all fields."

  /** `!form.email || !form.password`: the error shown, or `None` when the page posts. */
  function Guard(email: string, password: string): (r: Option<string>)
    ensures r.Some? <==> email == "" || password == ""
    ensures r.Some? ==> r.value == FillMessage
  {
    if email == "" || password == "" then Some(FillMessage) else None
  }

  /** Where a signed-in user is sent: the dashboard for an admin, the listings for
      everyone else. */
  function LandingPage(role: string): (r: string)
    ensures r == "/admin/dashboard" <==> role == "admin"
    ensures r != "/admin/dashboard" ==> r == "/properties"
  {
    if role == "admin" then "/admin/dashboard" else "/properties"
  }

  /** The page a user lands on lets that user in: the dashboard admits the admin, and
      the listings are public. */
  lemma LandingAdmits(u: SessionUser)
    ensures AppRoutes.Visit(LandingPage(u.role), Some(u)) == Some(ProtectedRoute.Children)
  {
    if u.role == "admin" {
      AppRoutes.AdminPagesAdmitOnlyAdmins("/admin/dashboard", Some(u));
    } else {
      AppRoutes.ListingIsPublic(Some(u));
    }
  }

  /** The `user` object of an accepted answer. */
  datatype ServerUser = ServerUser(id: string, name: string, email: string, role: string)

  /** What the server answers: not OK, with its body, or OK with the user and a token. */
  datatype Answer = Refused(body: Doc) | Accepted(user: ServerUser, token: string)

  /** `{ ...data.user, token: data.token }` */
  function WithToken(u: ServerUser, token: string): (r: SessionUser)
    ensures r.role == u.role && r.token == token
  {
    SessionUser(u.id, u.name, u.email, u.role, token)
  }

  /** `JSON.stringify(data.user)` as the Google path stores it under "user". */
  function UserText(u: ServerUser): string {
    Field(u.id) + Field(u.name) + Field(u.email) + Field(u.role)
  }

  /** `handleSubmit`: with an empty field, an error and no request. A refused login shows
      the server's message (or "Login failed") and changes nothing else. An accepted one
      sets the session user with the token (which the session mirrors under
      "authUser"), stores the token and picks the landing page by role. */
  method HandleSubmit(session: Session, email: string, password: string, answer: Answer)
      returns (error: string, requested: bool, landing: Option<string>)
    modifies session
    ensures requested <==> Guard(email, password).None?
    ensures !requested ==> error == FillMessage && landing.None?
    ensures (!requested || answer.Refused?) ==>
      session.user == old(session.user) && session.storage == old(session.storage)
    ensures requested && answer.Refused? ==>
      error == MessageOr(answer.body, "message", "Login failed") && landing.None?
    ensures requested && answer.Accepted? ==>
      && error == ""
      && session.user == Some(WithToken(answer.user, answer.token))
      && session.Mirrored()
      && session.storage == old(session.storage)["token" := answer.token]
                                                [StorageKey := Serialise(WithToken(answer.user, answer.token))]
      && landing == Some(LandingPage(answer.user.role))
    ensures session.loading == old(session.loading)
  {
    error := "";
    landing := None;
    requested := false;
    var refused := Guard(email, password);
    if refused.Some? {
      error := refused.value;
      return;
    }
    requested := true;
    match answer {
      case Refused(body) =>
        error := MessageOr(body, "message", "Login failed");
      case Accepted(user, token) =>
        session.SetUser(Some(WithToken(user, token)));
        session.storage := session.storage["token" := token];
        landing := Some(LandingPage(user.role));
    }
  }

  /** `handleGoogleSuccess`: no field check; a refused answer shows its message (or
      "Google login failed"); an accepted one does what the form does and also stores
      the user under "user". */
  method HandleGoogleSuccess(session: Session, answer: Answer) returns (error: string, landing: Option<string>)
    modifies session
    ensures answer.Refused? ==>
      && error == MessageOr(answer.body, "message", "Google login failed") && landing.None?
      && session.user == old(session.user) && session.storage == old(session.storage)
    ensures answer.Accepted? ==>
      && error == ""
      && session.user == Some(WithToken(answer.user, answer.token))
      && session.Mirrored()
      && session.storage == old(session.storage)["token" := answer.token]["user" := UserText(answer.user)]
                                                [StorageKey := Serialise(WithToken(answer.user, answer.token))]
      && landing == Some(LandingPage(answer.user.role))
    ensures session.loading == old(session.loading)
  {
    error := "";
    landing := None;
    match answer {
      case Refused(body) =>
        error := MessageOr(body, "message", "Google login failed");
      case Accepted(user, token) =>
        session.SetUser(Some(WithToken(user, token)));
        session.storage := session.storage["token" := token]["user" := UserText(user)];
        landing := Some(LandingPage(user.role));
    }
  }

  /** Both ways of signing in send an accepted user to the same page, and that page
      lets the user in. */
  lemma SameLandingBothWays(u: ServerUser, token: string)
    ensures LandingPage(WithToken(u, token).role) == LandingPage(u.role)
    ensures AppRoutes.Visit(LandingPage(u.role), Some(WithToken(u, token))) == Some(ProtectedRoute.Children)
  {
    LandingAdmits(WithToken(u, token));
  }
}
