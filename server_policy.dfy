/**
 * The server's origin policy: the allow-list, the options the CORS delegate
 * hands to the `cors` middleware, and the guard in front of every `/api` route.
 */
module ServerPolicy {
  import opened Wrappers
  import opened JsValues
  import opened ServerErrors

  /** The origins the server answers cross-origin requests from. */
  const AllowedOrigins: set<string> := {
    "https://weatherly-tau-three.vercel.app",
    "https://weatherly-x2x7.onrender.com",
    "http://localhost:3000",
    "http://127.0.0.1:3000"
  }

  /** An `Origin` header counts only when it is present and non-empty (`!origin` otherwise). */
  predicate HasOrigin(origin: Option<string>) {
    origin.Some? && origin.value != ""
  }

  /** The `origin` option: `true` (any), the request's origin reflected, or `false`. */
  datatype OriginSetting = AnyOrigin | ReflectOrigin(origin: string) | NoOrigin

  /** The options object the delegate passes to the `cors` middleware. */
  datatype CorsOptions = CorsOptions(
    origin: OriginSetting,
    methods: seq<string>,
    credentials: Option<bool>,
    maxAge: int,
    optionsSuccessStatus: int)

  /**
   * `corsOptionsDelegate`: without an Origin header any origin is allowed; with
   * one, it is reflected exactly when it is on the allow-list and refused
   * otherwise. Methods, max age and preflight status are the same either way;
   * `credentials: false` is set only when an origin was given.
   */
  function CorsOptionsFor(origin: Option<string>): (r: CorsOptions)
    ensures r.origin == AnyOrigin <==> !HasOrigin(origin)
    ensures r.origin.ReflectOrigin? <==> HasOrigin(origin) && origin.value in AllowedOrigins
    ensures r.origin.ReflectOrigin? ==> r.origin.origin == origin.value
    ensures r.origin == NoOrigin <==> HasOrigin(origin) && origin.value !in AllowedOrigins
    ensures r.methods == ["GET", "OPTIONS", "HEAD"] && r.maxAge == 86400 && r.optionsSuccessStatus == 204
    ensures r.credentials == if HasOrigin(origin) then Some(false) else None
  {
    if !HasOrigin(origin) then
      CorsOptions(AnyOrigin, ["GET", "OPTIONS", "HEAD"], None, 86400, 204)
    else
      var isAllowed := origin.value in AllowedOrigins;
      CorsOptions(if isAllowed then ReflectOrigin(origin.value) else NoOrigin,
                  ["GET", "OPTIONS", "HEAD"], Some(false), 86400, 204)
  }

  /**
   * The `/api` guard: a 403 `CORS_FORBIDDEN` reply for a present origin that is
   * not on the allow-list; `None` lets the request through to the route.
   */
  function ApiGuard(origin: Option<string>): (r: Option<Reply>)
    ensures r.Some? <==> HasOrigin(origin) && origin.value !in AllowedOrigins
    ensures r.Some? ==> r.value == ErrorReply(403, "CORS_FORBIDDEN", "Origin is not allowed")
  {
    if HasOrigin(origin) && origin.value !in AllowedOrigins then
      Some(ErrorReply(403, "CORS_FORBIDDEN", "Origin is not allowed"))
    else
      None
  }

  /** The guard refuses exactly the requests for which the delegate sets `origin: false`. */
  lemma GuardAgreesWithDelegate(origin: Option<string>)
    ensures ApiGuard(origin).Some? <==> CorsOptionsFor(origin).origin == NoOrigin
  {
  }
}
