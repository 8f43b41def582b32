/**
 * The route guard of the browser app (ProtectedRoute): a visitor who is not signed in
 * is sent to the login page; a signed-in user whose role is not in the route's list
 * is sent to the home page; everyone else sees the page.
 */
module ProtectedRoute {
  import opened Wrappers
  import AuthContext

  datatype View = Children | RedirectTo(path: string)

  /** The guard's decision, for the signed-in user (if any) and the route's roles list
      (`None` when the route gives none). */
  function Guard(user: Option<AuthContext.SessionUser>, roles: Option<seq<string>>): (r: View)
    ensures user.None? ==> r == RedirectTo("/login")
    ensures user.Some? && roles.Some? && user.value.role !in roles.value ==> r == RedirectTo("/")
    ensures r.RedirectTo? ==> r.path == "/login" || r.path == "/"
  {
    if user.None? then RedirectTo("/login")
    else if roles.Some? && user.value.role !in roles.value then RedirectTo("/")
    else Children
  }

  /** The page is shown exactly to a signed-in user who either faces no roles list or
      holds one of the listed roles. */
  lemma GuardAdmitsIff(user: Option<AuthContext.SessionUser>, roles: Option<seq<string>>)
    ensures Guard(user, roles) == Children <==>
      user.Some? && (roles.None? || user.value.role in roles.value)
  {
  }

  /** Without a roles list any signed-in user gets through. */
  lemma NoRolesAdmitsAnyUser(u: AuthContext.SessionUser)
    ensures Guard(Some(u), None) == Children
  {
  }

  /** An empty roles list is still a list (arrays are truthy), so it admits nobody. */
  lemma EmptyRolesAdmitNobody(user: Option<AuthContext.SessionUser>)
    ensures Guard(user, Some([])).RedirectTo?
  {
  }
}
