/**
  The values the router passes around: a registered route, an incoming request
  (only its HTTP method and its path) and the resolved route handed back by a
  lookup.
 */
module RouteEntries {

  datatype Option<+T> = None | Some(value: T)

  /** A registered route. `handler` stands for the opaque handler reference,
      carried through unchanged. */
  datatype RouteEntry = RouteEntry(verb: string, path: string, handler: nat)

  /** What the router reads of a request: its HTTP method (`verb`) and path. */
  datatype Request = Request(verb: string, path: string)

  /** A matched route together with the values bound to its path variables. */
  datatype ResolvedRoute = ResolvedRoute(route: RouteEntry, pathParams: map<string, string>)

  /** Pairs a route with its bindings (the resolved-route builder). */
  function CreateResolvedRoute(route: RouteEntry, pathParams: map<string, string>): ResolvedRoute
  {
    ResolvedRoute(route, pathParams)
  }
}
