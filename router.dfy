/**
 * The routing decision of the Worker's `fetch` entry point
 * (src/index.js:14-74): a preflight for every `OPTIONS` request, seven POST
 * handlers, the service directory at `GET /`, and 404 for the rest.
 */
module Router {

  datatype Route =
    | Preflight
    | Chat
    | Code
    | Analyze
    | Summarize
    | Stream
    | Redesign
    | Scrape
    | Directory
    | NotFound
  {
    /** The routes served by a POST handler. */
    predicate IsHandler() {
      !(Preflight? || Directory? || NotFound?)
    }
  }

  /**
   * The chain of tests `fetch` performs, in its order: every `OPTIONS`
   * request is a preflight, a handler is reached only by a POST to a path of
   * the endpoint table, and the directory only by `GET /`.
   */
  function Dispatch(verb: string, path: string): (r: Route)
    ensures r == Preflight <==> verb == "OPTIONS"
    ensures r.IsHandler() ==> verb == "POST" && path in PostRoutes && PostRoutes[path] == r
    ensures r == Directory <==> verb == "GET" && path == "/"
  {
    if verb == "OPTIONS" then Preflight
    else if path == "/chat" && verb == "POST" then Chat
    else if path == "/code" && verb == "POST" then Code
    else if path == "/analyze" && verb == "POST" then Analyze
    else if path == "/summarize" && verb == "POST" then Summarize
    else if path == "/stream" && verb == "POST" then Stream
    else if path == "/redesign" && verb == "POST" then Redesign
    else if path == "/scrape" && verb == "POST" then Scrape
    else if path == "/" && verb == "GET" then Directory
    else NotFound
  }

  /** The POST endpoints as a table, the directory's list of endpoints. */
  const PostRoutes: map<string, Route> := map[
    "/chat" := Chat,
    "/code" := Code,
    "/analyze" := Analyze,
    "/summarize" := Summarize,
    "/stream" := Stream,
    "/redesign" := Redesign,
    "/scrape" := Scrape
  ]

  /** The path a POST handler is mounted on. */
  function PathOf(r: Route): (p: string)
    requires r.IsHandler()
    ensures p in PostRoutes && PostRoutes[p] == r
  {
    match r
    case Chat => "/chat"
    case Code => "/code"
    case Analyze => "/analyze"
    case Summarize => "/summarize"
    case Stream => "/stream"
    case Redesign => "/redesign"
    case Scrape => "/scrape"
  }

  /**
   * The chain of tests agrees with the table: `OPTIONS` on any path is the
   * preflight, a POST to a listed path goes to its handler, `GET /` is the
   * directory, and everything else is 404.
   */
  lemma DispatchByTable(verb: string, path: string)
    ensures Dispatch(verb, path) ==
      if verb == "OPTIONS" then Preflight
      else if verb == "POST" && path in PostRoutes then PostRoutes[path]
      else if verb == "GET" && path == "/" then Directory
      else NotFound
  {
    if verb != "OPTIONS" && verb == "POST" && path in PostRoutes {
      assert path in {"/chat", "/code", "/analyze", "/summarize", "/stream", "/redesign", "/scrape"};
    }
  }

  /** Every handler is reached by a POST to its own path, and by no other path. */
  lemma HandlerReachedOnlyAtItsPath(r: Route, verb: string, path: string)
    requires r.IsHandler()
    ensures Dispatch("POST", PathOf(r)) == r
    ensures Dispatch(verb, path) == r ==> verb == "POST" && path == PathOf(r)
  {
    DispatchByTable("POST", PathOf(r));
    DispatchByTable(verb, path);
  }

  /** 404 is answered exactly for the requests that match no rule. */
  lemma NotFoundIff(verb: string, path: string)
    ensures Dispatch(verb, path) == NotFound <==>
      verb != "OPTIONS" && !(verb == "POST" && path in PostRoutes) && !(verb == "GET" && path == "/")
  {
    DispatchByTable(verb, path);
  }
}
