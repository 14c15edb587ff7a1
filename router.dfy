/** backend/router/router.go: `Router.ServeHTTP` as a function from the request's verb and path
    to the response it produces.  The header writes are part of the returned value; what the
    user handler writes for POST /api/users is delegated and not part of this model. */
module Router {

  datatype Route = Preflight | CreateUser | HealthCheck | Home | NotFound

  /** A status and body the router itself writes, or the request handed to `CreateUser`. */
  datatype Reply = Written(status: int, body: string) | Delegated

  datatype Response = Response(headers: map<string, string>, route: Route, reply: Reply)

  const METHOD_OPTIONS := "OPTIONS"
  const METHOD_POST := "POST"

  /** The three CORS headers written before any dispatch. */
  const CORS: map<string, string> := map[
    "Access-Control-Allow-Origin" := "*",
    "Access-Control-Allow-Methods" := "GET, POST, PUT, DELETE, OPTIONS",
    "Access-Control-Allow-Headers" := "Content-Type, Authorization"]

  /** `homeHandler` and `healthCheck`: a JSON content type and a fixed body, with the implicit 200. */
  function Json(headers: map<string, string>, route: Route, body: string): (r: Response)
    ensures r.headers.Keys == headers.Keys + {"Content-Type"}
    ensures r.headers["Content-Type"] == "application/json"
    ensures forall h :: h in headers && h != "Content-Type" ==> r.headers[h] == headers[h]
    ensures r.route == route && r.reply == Written(200, body)
  {
    Response(headers["Content-Type" := "application/json"], route, Written(200, body))
  }

  /** `http.NotFound`, by way of `http.Error`, sets a plain-text content type and `nosniff`. */
  function NotFoundHeaders(headers: map<string, string>): (r: map<string, string>)
    ensures r.Keys == headers.Keys + {"Content-Type", "X-Content-Type-Options"}
    ensures r["Content-Type"] == "text/plain; charset=utf-8" && r["X-Content-Type-Options"] == "nosniff"
    ensures forall h :: h in headers && h != "Content-Type" && h != "X-Content-Type-Options" ==> r[h] == headers[h]
  {
    headers["Content-Type" := "text/plain; charset=utf-8"]["X-Content-Type-Options" := "nosniff"]
  }

  /** One ordered dispatch: OPTIONS first for every path, then the cases of the switch in order,
      each comparing the path by exact string equality. */
  function ServeHTTP(verb: string, path: string): (r: Response)
    ensures forall h :: h in CORS ==> h in r.headers && r.headers[h] == CORS[h]
    ensures r.route == Preflight <==> verb == METHOD_OPTIONS
    ensures r.route == Preflight ==> r.headers == CORS && r.reply == Written(200, "")
    ensures r.route == CreateUser <==> verb == METHOD_POST && path == "/api/users"
    ensures r.route == CreateUser <==> r.reply == Delegated
    ensures r.route == HealthCheck <==> verb != METHOD_OPTIONS && path == "/health"
    ensures r.route == Home <==> verb != METHOD_OPTIONS && path == "/"
    ensures r.route == NotFound <==>
      verb != METHOD_OPTIONS && path != "/health" && path != "/" && !(verb == METHOD_POST && path == "/api/users")
    ensures r.route == NotFound ==> r.headers == NotFoundHeaders(CORS) && r.reply == Written(404, "404 page not found\n")
    ensures r.route == HealthCheck ==> r.reply == Written(200, "{\"status\": \"ok\"}")
    ensures r.route == Home ==> r.reply == Written(200, "{\"message\": \"Welcome to Users API\"}")
    ensures r.route == HealthCheck || r.route == Home ==> r.headers == CORS["Content-Type" := "application/json"]
  {
    var headers := CORS;
    if verb == METHOD_OPTIONS then
      Response(headers, Preflight, Written(200, ""))
    else if path == "/api/users" && verb == METHOD_POST then
      Response(headers, CreateUser, Delegated)
    else if path == "/health" then
      Json(headers, HealthCheck, "{\"status\": \"ok\"}")
    else if path == "/" then
      Json(headers, Home, "{\"message\": \"Welcome to Users API\"}")
    else
      Response(NotFoundHeaders(headers), NotFound, Written(404, "404 page not found\n"))
  }

  /** The user routes that are commented out in the switch fall through to NotFound: a GET of the
      collection, and any path below it. */
  lemma DisabledUserRoutes(verb: string, id: string)
    ensures ServeHTTP("GET", "/api/users").route == NotFound
    ensures verb != METHOD_OPTIONS ==> ServeHTTP(verb, "/api/users/" + id).route == NotFound
  {
  }
}
