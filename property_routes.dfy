/**
 * The properties router (backend/routes/property.js): an ordered table from method
 * and path to a middleware chain and a handler, the first matching entry winning,
 * and the dispatch of a request through it.
 */
module PropertyRoutes {
  import opened Wrappers
  import opened Json
  import opened Collections
  import opened PropertyModel
  import opened AuthMiddleware
  import opened PropertyController

  datatype HttpMethod = GET | POST | PUT | DELETE

  datatype Middleware = ProtectStep | AdminOnlyStep

  datatype Handler = GetMy | GetAll | GetById | Add | Update | Remove

  datatype Route = Route(verb: HttpMethod, pattern: string, chain: seq<Middleware>, handler: Handler)

  const Table: seq<Route> := [
    Route(GET, "/my", [ProtectStep], GetMy),
    Route(GET, "/", [ProtectStep], GetAll),
    Route(GET, "/:id", [ProtectStep], GetById),
    Route(POST, "/", [ProtectStep, AdminOnlyStep], Add),
    Route(PUT, "/:id", [ProtectStep, AdminOnlyStep], Update),
    Route(DELETE, "/:id", [ProtectStep, AdminOnlyStep], Remove)
  ]

  /** A path segment `:id` can stand for: non-empty, without a slash. */
  predicate Segment(s: string) {
    s != "" && '/' !in s
  }

  /** The pattern matches the path: "/:id" any one segment, other patterns themselves. */
  predicate Matches(pattern: string, path: string) {
    if pattern == "/:id" then |path| >= 1 && path[0] == '/' && Segment(path[1..])
    else path == pattern
  }

  /** The first route of `routes` for the method and path. */
  function Lookup(routes: seq<Route>, m: HttpMethod, path: string): (r: Option<Route>)
    ensures r.Some? ==> r.value in routes && r.value.verb == m && Matches(r.value.pattern, path)
    ensures r.None? ==> forall rt :: rt in routes ==> !(rt.verb == m && Matches(rt.pattern, path))
  {
    if routes == [] then None
    else if routes[0].verb == m && Matches(routes[0].pattern, path) then Some(routes[0])
    else Lookup(routes[1..], m, path)
  }

  /** Every route runs `protect` first; the writes run `adminOnly` next, the reads
      never do. */
  lemma ChainsGuarded()
    ensures forall rt :: rt in Table ==> |rt.chain| > 0 && rt.chain[0] == ProtectStep
    ensures forall rt :: rt in Table && rt.verb != GET ==> rt.chain == [ProtectStep, AdminOnlyStep]
    ensures forall rt :: rt in Table && rt.verb == GET ==> AdminOnlyStep !in rt.chain
  {
  }

  /** "/my" also matches "/:id", but the earlier entry wins. */
  lemma MyBeforeId()
    ensures Matches("/:id", "/my")
    ensures Lookup(Table, GET, "/my") == Some(Route(GET, "/my", [ProtectStep], GetMy))
  {
    assert "/my"[1..] == "my";
  }

  /** Any other single segment reaches `getPropertyById`. */
  lemma IdRoute(seg: string)
    requires Segment(seg) && seg != "my"
    ensures Lookup(Table, GET, "/" + seg) == Some(Route(GET, "/:id", [ProtectStep], GetById))
    ensures Lookup(Table, PUT, "/" + seg) == Some(Route(PUT, "/:id", [ProtectStep, AdminOnlyStep], Update))
  {
    var path := "/" + seg;
    assert path[1..] == seg;
    assert "/my"[1..] == "my";
    assert Matches("/:id", path) && !Matches("/my", path) && !Matches("/", path);
    LookupAt(Table, GET, path, 2);
    PutById(path);
  }

  /** No route before `PUT /:id` is a PUT. */
  lemma PutById(path: string)
    requires Matches("/:id", path)
    ensures Lookup(Table, PUT, path) == Some(Table[4])
  {
    assert forall j :: 0 <= j < 4 ==> Table[j].verb != PUT;
    LookupAt(Table, PUT, path, 4);
  }

  /** The first route that fits is the one found. */
  lemma {:induction false} LookupAt(routes: seq<Route>, m: HttpMethod, path: string, i: nat)
    requires i < |routes| && routes[i].verb == m && Matches(routes[i].pattern, path)
    requires forall j :: 0 <= j < i ==> !(routes[j].verb == m && Matches(routes[j].pattern, path))
    ensures Lookup(routes, m, path) == Some(routes[i])
  {
    if i > 0 {
      LookupAt(routes[1..], m, path, i - 1);
    }
  }

  /** The `:id` of a path. */
  function IdParam(path: string): string {
    if |path| >= 1 then path[1..] else ""
  }

  /** A request to the properties router: the route, its chain, its handler. Paths
      that no route matches get the framework's 404. */
  method Dispatch(props: PropertyCollection, users: map<Id, Doc>, m: HttpMethod, path: string,
                  header: Option<string>, body: Doc, now: int) returns (r: Reply)
    requires props.Valid()
    modifies props
    ensures props.Valid()
    ensures Lookup(Table, m, path).None? ==> r == Fail(404, "Not Found") && props.docs == old(props.docs)
    ensures Lookup(Table, m, path).Some? && Protect(header, users).Deny? ==>
              r == Fail(401, Protect(header, users).message) && props.docs == old(props.docs)
    ensures props.docs != old(props.docs) ==>
              && m != GET
              && Protect(header, users).Next?
              && IsAdmin(Protect(header, users).caller)
  {
    var route := Lookup(Table, m, path);
    if route.None? {
      return Fail(404, "Not Found");
    }
    ChainsGuarded();
    var gate := Protect(header, users);
    if gate.Deny? {
      return Fail(gate.status, gate.message);
    }
    var caller := Some(gate.caller);
    if AdminOnlyStep in route.value.chain {
      var refusal := AdminOnly(caller);
      if refusal.Some? {
        return Fail(refusal.value.status, refusal.value.message);
      }
    }
    r := RunHandler(props, route.value.handler, gate.caller, IdParam(path), body, now);
    if props.docs != old(props.docs) {
      WritesAreNotGets(route.value);
    }
  }

  /** The handlers that write are never reached by a GET. */
  lemma WritesAreNotGets(rt: Route)
    requires rt in Table && rt.handler in {Add, Update, Remove}
    ensures rt.verb != GET
  {
  }

  /** The controller a route names, called with `req.user` set. Only the three writes
      change the collection, and only for an admin. */
  method RunHandler(props: PropertyCollection, h: Handler, caller: Caller, idParam: string, body: Doc, now: int)
    returns (r: Reply)
    requires props.Valid()
    modifies props
    ensures props.Valid()
    ensures props.docs != old(props.docs) ==> h in {Add, Update, Remove} && IsAdmin(caller)
  {
    match h
    case GetMy => r := GetMyProperties(props, Some(caller));
    case GetAll => r := GetAllProperties(props);
    case GetById => r := GetPropertyById(props, idParam);
    case Add => r := AddProperty(props, Some(caller), body, now);
    case Update => r := UpdateProperty(props, Some(caller), idParam, body);
    case Remove => r := DeleteProperty(props, Some(caller), idParam);
  }
}
