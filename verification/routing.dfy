/** The two `http.HandleFunc` registrations: `/api/` to the API handler, everything else to the form handler. */
module Routing {
  import opened GoStrings
  import opened Messages
  import Legacy
  import Api

  datatype Endpoint = FormEndpoint | ApiEndpoint

  /** The longest registered pattern that matches: `/api/` covers its subtree, `/` the rest. */
  function Route(path: string): Endpoint {
    if HasPrefix(path, Api.ApiPrefix) then ApiEndpoint else FormEndpoint
  }

  /** Serving one request: dispatch on the path alone, never on the method. */
  method Serve<C>(req: Request, cc: OpenCC<C>, json: Json) returns (ex: Exchange)
    ensures Route(req.path) == ApiEndpoint ==> ex == Api.ApiExchange(req, cc, json)
    ensures Route(req.path) == FormEndpoint ==> ex == Legacy.LegacyExchange(req, cc, json)
  {
    if HasPrefix(req.path, Api.ApiPrefix) {
      ex := Api.Handle(req, cc, json);
    } else {
      ex := Legacy.Handle(req, cc, json);
    }
  }

  /**
   * A path sent to the API handler is `/api/` followed by the mode it
   * checks; a path sent to the form handler never starts with `/api/`.
   */
  lemma RouteSplitsPath(path: string)
    ensures Route(path) == ApiEndpoint ==> "/api/" + Api.ApiMode(path) == path
    ensures Route(path) == FormEndpoint ==> !("/api/" <= path)
  {
  }

  /** `/api/{m}` reaches the API handler, which checks exactly `m`. */
  lemma ApiPathReachesApi(m: string)
    ensures Route("/api/" + m) == ApiEndpoint
    ensures Api.ApiMode("/api/" + m) == m
  {
    assert HasPrefix("/api/" + m, Api.ApiPrefix);
  }
}
