/**
 * The server's wiring (backend/server.js): the CORS origin check and the routers
 * it mounts.
 */
module Server {
  import opened Wrappers

  const AllowedOrigins: seq<string> := ["https://zipacres.vercel.app", "http://localhost:5173"]

  datatype CorsDecision = Allow | Reject(error: string)

  /** The `origin` callback: no origin (or an empty one) is allowed; otherwise only an
      exact member of the list. */
  function Cors(origin: Option<string>): (r: CorsDecision)
    ensures r.Reject? ==> r.error == "Not allowed by CORS"
  {
    if origin.None? || origin.value == "" then Allow
    else if origin.value in AllowedOrigins then Allow
    else Reject("Not allowed by CORS")
  }

  /** Allowed exactly when there is no origin or it is one of the two listed strings. */
  lemma CorsAllowsIff(origin: Option<string>)
    ensures Cors(origin) == Allow <==>
            origin.None? || origin.value == "" || origin.value == AllowedOrigins[0] || origin.value == AllowedOrigins[1]
  {
  }

  /** The match is exact: a trailing slash or another scheme is rejected. */
  lemma CorsIsExact()
    ensures Cors(Some("https://zipacres.vercel.app/")).Reject?
    ensures Cors(Some("http://zipacres.vercel.app")).Reject?
    ensures Cors(Some("http://localhost:5173")) == Allow
  {
    assert "https://zipacres.vercel.app/" != AllowedOrigins[0] by {
      assert |"https://zipacres.vercel.app/"| != |AllowedOrigins[0]|;
    }
    assert "https://zipacres.vercel.app/" != AllowedOrigins[1] by {
      assert |"https://zipacres.vercel.app/"| != |AllowedOrigins[1]|;
    }
    assert "http://zipacres.vercel.app" != AllowedOrigins[0] by {
      assert "http://zipacres.vercel.app"[4] != AllowedOrigins[0][4];
    }
    assert "http://zipacres.vercel.app" != AllowedOrigins[1] by {
      assert |"http://zipacres.vercel.app"| != |AllowedOrigins[1]|;
    }
  }

  /** The request handlers of the backend, by router. */
  datatype Endpoint =
    | GetMyProperties | GetAllProperties | GetPropertyById | AddProperty | UpdateProperty | DeleteProperty
    | Register | Login | GoogleAuth
    | GetLeads | UpdateLead
    | SendOtp | VerifyOtp

  datatype Router = PropertiesRouter | AuthRouter | LeadsRouter

  function Endpoints(router: Router): set<Endpoint> {
    match router
    case PropertiesRouter => {GetMyProperties, GetAllProperties, GetPropertyById, AddProperty, UpdateProperty, DeleteProperty}
    case AuthRouter => {Register, Login, GoogleAuth}
    case LeadsRouter => {GetLeads, UpdateLead}
  }

  const Mounts: seq<(string, Router)> := [("/api/properties", PropertiesRouter), ("/api/auth", AuthRouter)]

  /** The handlers some mounted router reaches. */
  function Reachable(mounts: seq<(string, Router)>): (r: set<Endpoint>)
    ensures forall i :: 0 <= i < |mounts| ==> Endpoints(mounts[i].1) <= r
  {
    if mounts == [] then {}
    else
      var rest := Reachable(mounts[1..]);
      assert forall i :: 0 < i < |mounts| ==> mounts[i] == mounts[1..][i - 1];
      Endpoints(mounts[0].1) + rest
  }

  /** The leads handlers and the OTP handlers (which no router names) are unreachable. */
  lemma UnmountedHandlers()
    ensures GetLeads !in Reachable(Mounts) && UpdateLead !in Reachable(Mounts)
    ensures SendOtp !in Reachable(Mounts) && VerifyOtp !in Reachable(Mounts)
    ensures Endpoints(AuthRouter) <= Reachable(Mounts) && Endpoints(PropertiesRouter) <= Reachable(Mounts)
  {
    var tail := Mounts[1..];
    assert tail == [("/api/auth", AuthRouter)] && tail[1..] == [];
    assert Reachable(tail) == Endpoints(AuthRouter);
    assert Reachable(Mounts) == Endpoints(PropertiesRouter) + Endpoints(AuthRouter);
  }
}
