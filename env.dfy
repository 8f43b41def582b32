/**
 * The backend's process-wide configuration, read from environment variables with
 * `process.env.NAME || fallback`. An empty variable counts as unset.
 */
module Env {
  import opened Wrappers

  datatype Env = Env(jwtSecret: Option<string>, googleClientId: Option<string>, adminCode: Option<string>)

  /** `process.env.NAME || fallback` */
  function OrElse(v: Option<string>, fallback: string): (r: string)
    ensures v.Some? && v.value != "" ==> r == v.value
    ensures (v.None? || v.value == "") ==> r == fallback
  {
    if v.Some? && v.value != "" then v.value else fallback
  }

  /** The key tokens are signed with (backend/controllers/authController.js:8). */
  function JwtSecret(e: Env): string {
    OrElse(e.jwtSecret, "ZIPCARE")
  }

  function GoogleClientId(e: Env): string {
    OrElse(e.googleClientId, "")
  }

  /** The code an admin must give to register (backend/controllers/authController.js:10). */
  function AdminCode(e: Env): string {
    OrElse(e.adminCode, "12345")
  }

  /** Loading the auth controller throws unless all three settings are non-empty;
      the first and third always are, so the server starts exactly when a Google
      client id is configured. */
  predicate AuthControllerLoads(e: Env) {
    JwtSecret(e) != "" && GoogleClientId(e) != "" && AdminCode(e) != ""
  }

  lemma LoadsIffGoogleClientId(e: Env)
    ensures AuthControllerLoads(e) <==> (e.googleClientId.Some? && e.googleClientId.value != "")
  {
  }
}
