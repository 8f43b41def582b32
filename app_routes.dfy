/**
 * The page table of the browser app (App): each path, and whether its page sits
 * behind the route guard with a list of admitted roles.
 */
module AppRoutes {
  import opened Wrappers
  import AuthContext
  import opened ProtectedRoute

  datatype Access = Public | Guarded(roles: seq<string>)

  datatype Page = Page(path: string, access: Access)

  /** The pages in the order the table declares them. */
  const Pages: seq<Page> := [
    Page("/", Public),
    Page("/signup", Public),
    Page("/login", Public),
    Page("/contact", Guarded(["user", "admin"])),
    Page("/blog", Public),
    Page("/admin/dashboard", Guarded(["admin"])),
    Page("/admin/addProperty", Guarded(["admin"])),
    Page("/properties", Public),
    Page("/properties/:id", Guarded(["user", "admin"])),
    Page("/admin/leads", Guarded(["admin"]))
  ]

  /** The access rule of the first page declared for `path`, if any. */
  function AccessOf(path: string): (r: Option<Access>)
    ensures r.Some? <==> exists i :: 0 <= i < |Pages| && Pages[i].path == path
  {
    FirstAccess(Pages, path)
  }

  function FirstAccess(pages: seq<Page>, path: string): (r: Option<Access>)
    ensures r.Some? <==> exists i :: 0 <= i < |pages| && pages[i].path == path
    ensures r.Some? ==> exists i :: 0 <= i < |pages| && pages[i].path == path && pages[i].access == r.value
  {
    if pages == [] then None
    else if pages[0].path == path then Some(pages[0].access)
    else
      var r := FirstAccess(pages[1..], path);
      assert forall i :: 0 <= i < |pages| - 1 ==> pages[1..][i] == pages[i + 1];
      r
  }

  /** What a visitor sees on a declared page. */
  function Visit(path: string, user: Option<AuthContext.SessionUser>): (r: Option<View>)
    ensures r.Some? <==> AccessOf(path).Some?
    ensures AccessOf(path) == Some(Public) ==> r == Some(Children)
  {
    match AccessOf(path)
    case None => None
    case Some(Public) => Some(Children)
    case Some(Guarded(roles)) => Some(Guard(user, Some(roles)))
  }

  /** The first page declared for `path` decides its access. */
  lemma {:induction false} FirstAccessAt(pages: seq<Page>, path: string, i: nat)
    requires i < |pages| && pages[i].path == path
    requires forall j :: 0 <= j < i ==> pages[j].path != path
    ensures FirstAccess(pages, path) == Some(pages[i].access)
  {
    if i > 0 {
      FirstAccessAt(pages[1..], path, i - 1);
    }
  }

  /** The lengths of the declared paths, in table order. */
  const PathLengths: seq<nat> := [1, 7, 6, 8, 5, 16, 18, 11, 15, 12]

  /** No two pages declare the same path: their lengths already differ. */
  lemma PathsDistinct(i: nat)
    requires i < |Pages|
    ensures forall j :: 0 <= j < i ==> Pages[j].path != Pages[i].path
  {
    assert forall k :: 0 <= k < |Pages| ==> |Pages[k].path| == PathLengths[k];
  }

  /** The access rule declared at position `i`. */
  lemma AccessAt(i: nat)
    requires i < |Pages|
    ensures AccessOf(Pages[i].path) == Some(Pages[i].access)
  {
    PathsDistinct(i);
    FirstAccessAt(Pages, Pages[i].path, i);
  }

  predicate AdminPage(path: string) {
    path == "/admin/dashboard" || path == "/admin/addProperty" || path == "/admin/leads"
  }

  /** The three admin pages are shown to admins and to nobody else. */
  lemma AdminPagesAdmitOnlyAdmins(path: string, user: Option<AuthContext.SessionUser>)
    requires AdminPage(path)
    ensures Visit(path, user) == Some(Children) <==> user.Some? && user.value.role == "admin"
  {
    var roles := ["admin"];
    AdminAccess(path);
    assert Visit(path, user) == Some(Guard(user, Some(roles)));
    GuardAdmitsIff(user, Some(roles));
  }

  /** The admin pages are guarded for admins alone. */
  lemma AdminAccess(path: string)
    requires AdminPage(path)
    ensures AccessOf(path) == Some(Guarded(["admin"]))
  {
    if path == "/admin/dashboard" {
      AccessAt(5);
    } else if path == "/admin/addProperty" {
      AccessAt(6);
    } else {
      AccessAt(9);
    }
  }

  /** The details page and the contact page are for users and admins. */
  lemma MemberPagesAdmitUsersAndAdmins(path: string, user: Option<AuthContext.SessionUser>)
    requires path == "/properties/:id" || path == "/contact"
    ensures Visit(path, user) == Some(Children) <==>
      user.Some? && (user.value.role == "user" || user.value.role == "admin")
  {
    var roles := ["user", "admin"];
    MemberAccess(path);
    assert Visit(path, user) == Some(Guard(user, Some(roles)));
    GuardAdmitsIff(user, Some(roles));
    if user.Some? {
      assert user.value.role in roles <==> user.value.role == "user" || user.value.role == "admin";
    }
  }

  /** The contact and details pages are guarded for users and admins. */
  lemma MemberAccess(path: string)
    requires path == "/properties/:id" || path == "/contact"
    ensures AccessOf(path) == Some(Guarded(["user", "admin"]))
  {
    if path == "/contact" {
      AccessAt(3);
    } else {
      AccessAt(8);
    }
  }

  /** The listing page needs no sign-in. */
  lemma ListingIsPublic(user: Option<AuthContext.SessionUser>)
    ensures Visit("/properties", user) == Some(Children)
  {
    AccessAt(7);
  }

  /** No roles list names "agent", so an agent is sent home from every guarded page. */
  lemma {:induction false} AgentsLockedOut(path: string, u: AuthContext.SessionUser)
    requires u.role == "agent"
    requires AccessOf(path).Some? && AccessOf(path).value.Guarded?
    ensures Visit(path, Some(u)) == Some(RedirectTo("/"))
  {
    var a := AccessOf(path).value;
    var i :| 0 <= i < |Pages| && Pages[i].path == path && Pages[i].access == a;
    NoAgentRoles(i);
    assert Visit(path, Some(u)) == Some(Guard(Some(u), Some(a.roles)));
  }

  /** No page of the table lists "agent" among its roles. */
  lemma NoAgentRoles(i: nat)
    requires i < |Pages| && Pages[i].access.Guarded?
    ensures "agent" !in Pages[i].access.roles
  {
  }
}
