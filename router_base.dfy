/**
  The base router: a dictionary of routes whose paths have no variables,
  looked up by the normalised (verb, path) key, in front of a store for
  templated routes (paths with `{name}` segments) that a concrete router
  supplies.

  The collaborators are parameters of the router:
  - whether `getPathVariables(path)` finds variables in a path,
  - the comparator `compareRoute`,
  - the concrete path-variable store: a state of some type `S` and the three
    hooks that add to it, search it and list it.
  What the router promises about templated routes is stated under laws that
  a store may or may not obey (`OnlyListsAdded`, `AppendsToListing`,
  `SoundFind`); `ListStore` is one store that obeys them all.
 */
module RouterBase {
  import opened RouteEntries
  import opened RouteKey
  import opened RouteSort
  import opened RouteTable

  /** `getPathVariables(path)` is truthy. */
  type PathVarsTest = string -> bool

  /** `getKeyForRoute(route)`. */
  function KeyForRoute(route: RouteEntry): (key: string)
    ensures key != []
    ensures '/' !in route.verb ==> SplitKey(key) == (NormalizeVerb(route.verb), NormalizePath(route.path))
  {
    if '/' in route.verb then GetKey(route.verb, route.path)
    else
      SplitKeyOfGetKey(route.verb, route.path);
      GetKey(route.verb, route.path)
  }

  /** `getKeyForRequest(request)`. */
  function KeyForRequest(request: Request): (key: string)
    ensures key != []
    ensures '/' !in request.verb ==> SplitKey(key) == (NormalizeVerb(request.verb), NormalizePath(request.path))
  {
    if '/' in request.verb then GetKey(request.verb, request.path)
    else
      SplitKeyOfGetKey(request.verb, request.path);
      GetKey(request.verb, request.path)
  }

  /** Registration and lookup normalise identically: for method tokens
      (no `/`), a request hits the key of a route exactly when their verbs
      and paths normalise to the same thing. */
  lemma RequestKeyMatchesRouteKey(route: RouteEntry, request: Request)
    requires '/' !in route.verb && '/' !in request.verb
    ensures KeyForRequest(request) == KeyForRoute(route) <==>
            NormalizeVerb(request.verb) == NormalizeVerb(route.verb) &&
            NormalizePath(request.path) == NormalizePath(route.path)
  {
    GetKeyInjective(request.verb, request.path, route.verb, route.path);
  }

  // ---------------------------------------------------------------------------
  // The path-variable store

  /** The three abstract hooks of a concrete router over its store state `S`:
      `addRouteWithPathVars`, `findRouteWithPathVars`, `listRoutesWithPathVars`. */
  datatype PathVarHooks<!S> = PathVarHooks(
    add: (S, RouteEntry) -> S,
    find: (S, Request) -> Option<ResolvedRoute>,
    list: S -> seq<RouteEntry>)

  /** The store lists no route that was not already listed or just added. */
  ghost predicate OnlyListsAdded<S(!new)>(hooks: PathVarHooks<S>)
  {
    forall st, route, x :: x in hooks.list(hooks.add(st, route)) ==> x == route || x in hooks.list(st)
  }

  /** Adding a route adds exactly that route to the store's listing. */
  ghost predicate AppendsToListing<S(!new)>(hooks: PathVarHooks<S>)
  {
    forall st, route :: multiset(hooks.list(hooks.add(st, route))) == multiset(hooks.list(st)) + multiset{route}
  }

  /** The store answers only with routes it lists. */
  ghost predicate SoundFind<S(!new)>(hooks: PathVarHooks<S>)
  {
    forall st, request :: hooks.find(st, request).Some? ==> hooks.find(st, request).value.route in hooks.list(st)
  }

  /** A store that keeps the routes handed to it in order and searches them
      with a given matching function. */
  function ListStore(matcher: (seq<RouteEntry>, Request) -> Option<ResolvedRoute>): PathVarHooks<seq<RouteEntry>>
  {
    PathVarHooks((st: seq<RouteEntry>, route: RouteEntry) => st + [route], matcher, (st: seq<RouteEntry>) => st)
  }

  /** The matching function answers only with routes it was given. */
  ghost predicate SoundMatcher(matcher: (seq<RouteEntry>, Request) -> Option<ResolvedRoute>)
  {
    forall routes, request :: matcher(routes, request).Some? ==> matcher(routes, request).value.route in routes
  }

  /** The list store obeys the listing laws, and finds soundly when its
      matching function does. */
  lemma ListStoreLaws(matcher: (seq<RouteEntry>, Request) -> Option<ResolvedRoute>)
    ensures AppendsToListing(ListStore(matcher))
    ensures OnlyListsAdded(ListStore(matcher))
    ensures SoundMatcher(matcher) <==> SoundFind(ListStore(matcher))
  {
    var hooks := ListStore(matcher);
    forall st: seq<RouteEntry>, route: RouteEntry, x | x in hooks.list(hooks.add(st, route))
      ensures x == route || x in hooks.list(st)
    {
      assert hooks.list(hooks.add(st, route)) == st + [route];
    }
  }

  // ---------------------------------------------------------------------------
  // The state of a router, as a value

  /** The route dictionary and the state of the path-variable store. */
  datatype RouterState<S> = RouterState(
    withoutPathVars: map<string, RouteEntry>,
    withPathVars: S)

  /** Every route in the dictionary has a path without variables and sits
      under its own key. */
  ghost predicate StaticClassified<S>(s: RouterState<S>, hasPathVars: PathVarsTest)
  {
    forall k :: k in s.withoutPathVars ==>
      KeyForRoute(s.withoutPathVars[k]) == k && !hasPathVars(s.withoutPathVars[k].path)
  }

  /** Every route sits in the store its path selects. */
  ghost predicate Classified<S>(s: RouterState<S>, hasPathVars: PathVarsTest, hooks: PathVarHooks<S>)
  {
    && StaticClassified(s, hasPathVars)
    && (forall x :: x in hooks.list(s.withPathVars) ==> hasPathVars(x.path))
  }

  /** What `list()` holds before it is sorted. */
  ghost function ListContents<S>(s: RouterState<S>, hooks: PathVarHooks<S>): multiset<RouteEntry>
  {
    StaticValues(s.withoutPathVars) + multiset(hooks.list(s.withPathVars))
  }

  /** `add(route)` on the state: a route without path variables is stored
      under its key, every other key keeps its route and the path-variable
      store is untouched; a route with path variables goes only to the
      path-variable store. */
  function AddRoute<S>(s: RouterState<S>, route: RouteEntry, hasPathVars: PathVarsTest,
                       hooks: PathVarHooks<S>): (t: RouterState<S>)
    ensures !hasPathVars(route.path) ==>
      && KeyForRoute(route) in t.withoutPathVars
      && t.withoutPathVars[KeyForRoute(route)] == route
      && t.withoutPathVars.Keys == s.withoutPathVars.Keys + {KeyForRoute(route)}
      && (forall k :: k in s.withoutPathVars && k != KeyForRoute(route) ==>
            t.withoutPathVars[k] == s.withoutPathVars[k])
      && t.withPathVars == s.withPathVars
    ensures hasPathVars(route.path) ==>
      && t.withoutPathVars == s.withoutPathVars
      && t.withPathVars == hooks.add(s.withPathVars, route)
  {
    if !hasPathVars(route.path) then
      s.(withoutPathVars := s.withoutPathVars[KeyForRoute(route) := route])
    else
      s.(withPathVars := hooks.add(s.withPathVars, route))
  }

  /** `find(request)` on the state: the dictionary is consulted first, and
      on a hit the answer is the route stored under the request's key with
      no bindings; the path-variable store is asked only on a miss. */
  function FindRoute<S>(s: RouterState<S>, request: Request, hooks: PathVarHooks<S>): (r: Option<ResolvedRoute>)
    ensures KeyForRequest(request) in s.withoutPathVars ==>
      r == Some(ResolvedRoute(s.withoutPathVars[KeyForRequest(request)], map[]))
    ensures KeyForRequest(request) !in s.withoutPathVars ==> r == hooks.find(s.withPathVars, request)
  {
    var key := KeyForRequest(request);
    if key in s.withoutPathVars then Some(CreateResolvedRoute(s.withoutPathVars[key], map[]))
    else hooks.find(s.withPathVars, request)
  }

  // ---------------------------------------------------------------------------
  // add

  /** Each registration keeps every dictionary route under its own key, and
      when the store lists only what it was given, every templated route in
      the store. */
  lemma AddPreservesClassified<S(!new)>(s: RouterState<S>, route: RouteEntry, hasPathVars: PathVarsTest,
                                        hooks: PathVarHooks<S>)
    requires StaticClassified(s, hasPathVars)
    ensures StaticClassified(AddRoute(s, route, hasPathVars, hooks), hasPathVars)
    ensures Classified(s, hasPathVars, hooks) && OnlyListsAdded(hooks) ==>
      Classified(AddRoute(s, route, hasPathVars, hooks), hasPathVars, hooks)
  {
  }

  /** Registering a second static route under the same key overwrites the
      first: the last registration wins. */
  lemma LastWriteWins<S>(s: RouterState<S>, r1: RouteEntry, r2: RouteEntry, hasPathVars: PathVarsTest,
                         hooks: PathVarHooks<S>)
    requires !hasPathVars(r1.path) && !hasPathVars(r2.path)
    requires KeyForRoute(r1) == KeyForRoute(r2)
    ensures AddRoute(AddRoute(s, r1, hasPathVars, hooks), r2, hasPathVars, hooks) == AddRoute(s, r2, hasPathVars, hooks)
  {
  }

  /** What `add` does to the listing: the route joins it and, when a static
      route under the same key was registered before, that one leaves it.
      For a templated route this holds when the store appends to its
      listing; otherwise only the dictionary's share is fixed. */
  lemma AddRouteListing<S(!new)>(s: RouterState<S>, route: RouteEntry, hasPathVars: PathVarsTest,
                                 hooks: PathVarHooks<S>)
    ensures var t := AddRoute(s, route, hasPathVars, hooks);
      hasPathVars(route.path) ==>
        ListContents(t, hooks) == StaticValues(s.withoutPathVars) + multiset(hooks.list(t.withPathVars))
    ensures var key := KeyForRoute(route);
      var replaced := !hasPathVars(route.path) && key in s.withoutPathVars;
      !hasPathVars(route.path) || AppendsToListing(hooks) ==>
        ListContents(AddRoute(s, route, hasPathVars, hooks), hooks) ==
          (if replaced then ListContents(s, hooks) - multiset{s.withoutPathVars[key]} else ListContents(s, hooks))
            + multiset{route}
  {
    var key := KeyForRoute(route);
    if !hasPathVars(route.path) {
      StaticValuesUpdate(s.withoutPathVars, key, route);
      if key in s.withoutPathVars {
        StaticValuesRemove(s.withoutPathVars, key);
      }
    }
  }

  /** The listing holds one route per static key plus every route the
      path-variable store lists. */
  lemma ListContentsSize<S>(s: RouterState<S>, hooks: PathVarHooks<S>)
    ensures |ListContents(s, hooks)| == |s.withoutPathVars| + |hooks.list(s.withPathVars)|
  {
    StaticValuesSize(s.withoutPathVars);
  }

  /** Two registrations that do not overwrite each other can be made in
      either order: the dictionary comes out the same; the whole state does
      when at most one of them is templated, and the listing does when both
      are and the store appends to its listing. */
  lemma AddCommutes<S(!new)>(s: RouterState<S>, r1: RouteEntry, r2: RouteEntry, hasPathVars: PathVarsTest,
                             hooks: PathVarHooks<S>)
    requires hasPathVars(r1.path) || hasPathVars(r2.path) || KeyForRoute(r1) != KeyForRoute(r2)
    ensures var t12 := AddRoute(AddRoute(s, r1, hasPathVars, hooks), r2, hasPathVars, hooks);
      var t21 := AddRoute(AddRoute(s, r2, hasPathVars, hooks), r1, hasPathVars, hooks);
      && t12.withoutPathVars == t21.withoutPathVars
      && (!hasPathVars(r1.path) || !hasPathVars(r2.path) ==> t12 == t21)
      && (AppendsToListing(hooks) ==> ListContents(t12, hooks) == ListContents(t21, hooks))
  {
    if hasPathVars(r1.path) && hasPathVars(r2.path) && AppendsToListing(hooks) {
      var st := s.withPathVars;
      assert multiset(hooks.list(hooks.add(hooks.add(st, r1), r2))) == multiset(hooks.list(st)) + multiset{r1} + multiset{r2};
      assert multiset(hooks.list(hooks.add(hooks.add(st, r2), r1))) == multiset(hooks.list(st)) + multiset{r2} + multiset{r1};
    }
  }

  // ---------------------------------------------------------------------------
  // find

  /** On a dictionary hit the answer does not depend on the path-variable
      store at all: any other store state and any other hooks give the same. */
  lemma StaticFirst<S>(s: RouterState<S>, request: Request, hooks: PathVarHooks<S>,
                       other: S, otherHooks: PathVarHooks<S>)
    requires KeyForRequest(request) in s.withoutPathVars
    ensures FindRoute(s.(withPathVars := other), request, otherHooks) == FindRoute(s, request, hooks)
  {
  }

  /** After a static route is added, a request with the same method and path
      up to normalisation finds it, with empty bindings. */
  lemma AddThenFind<S>(s: RouterState<S>, route: RouteEntry, request: Request,
                       hasPathVars: PathVarsTest, hooks: PathVarHooks<S>)
    requires !hasPathVars(route.path)
    requires NormalizeVerb(request.verb) == NormalizeVerb(route.verb)
    requires NormalizePath(request.path) == NormalizePath(route.path)
    ensures FindRoute(AddRoute(s, route, hasPathVars, hooks), request, hooks) == Some(ResolvedRoute(route, map[]))
  {
  }

  /** `find` answers only with listed routes when the store answers only
      with routes it lists; a static answer is the route stored under the
      request's key, with no bindings. */
  lemma FindReturnsRegistered<S(!new)>(s: RouterState<S>, request: Request,
                                       hasPathVars: PathVarsTest, hooks: PathVarHooks<S>)
    requires Classified(s, hasPathVars, hooks) && SoundFind(hooks)
    ensures var r := FindRoute(s, request, hooks);
      r.Some? ==> r.value.route in ListContents(s, hooks)
    ensures var r := FindRoute(s, request, hooks);
      r.Some? && !hasPathVars(r.value.route.path) ==>
        KeyForRoute(r.value.route) == KeyForRequest(request) && r.value.pathParams == map[]
  {
    var key := KeyForRequest(request);
    if key in s.withoutPathVars {
      StaticValuesRemove(s.withoutPathVars, key);
    } else {
      var r := hooks.find(s.withPathVars, request);
      if r.Some? {
        assert r.value.route in hooks.list(s.withPathVars);
      }
    }
  }

  /** Registering `GET /widgets` and `GET /widgets/{id}` on an empty router:
      `GET /widgets` hits the dictionary, `GET /widgets/42` goes to the
      path-variable store, and `POST /widgets` finds nothing when the store
      has nothing for it. */
  lemma WidgetsScenario<S>(hasPathVars: PathVarsTest, hooks: PathVarHooks<S>, emptyStore: S,
                           widgetsRoute: RouteEntry, widgetByIdRoute: RouteEntry)
    requires widgetsRoute == RouteEntry("GET", "/widgets", 1)
    requires widgetByIdRoute == RouteEntry("GET", "/widgets/{id}", 2)
    requires !hasPathVars("/widgets") && hasPathVars("/widgets/{id}")
    requires hooks.find(hooks.add(emptyStore, widgetByIdRoute), Request("GET", "/widgets/42")) ==
      Some(ResolvedRoute(widgetByIdRoute, map["id" := "42"]))
    requires hooks.find(hooks.add(emptyStore, widgetByIdRoute), Request("POST", "/widgets")) == None
    ensures var s := AddRoute(AddRoute(RouterState(map[], emptyStore), widgetsRoute, hasPathVars, hooks),
                              widgetByIdRoute, hasPathVars, hooks);
      && FindRoute(s, Request("GET", "/widgets"), hooks) == Some(ResolvedRoute(widgetsRoute, map[]))
      && FindRoute(s, Request("GET", "/widgets/42"), hooks) == Some(ResolvedRoute(widgetByIdRoute, map["id" := "42"]))
      && FindRoute(s, Request("POST", "/widgets"), hooks) == None
  {
    WidgetKeys();
    var s := AddRoute(AddRoute(RouterState(map[], emptyStore), widgetsRoute, hasPathVars, hooks),
                      widgetByIdRoute, hasPathVars, hooks);
    assert s == RouterState(map["/get/widgets" := widgetsRoute], hooks.add(emptyStore, widgetByIdRoute));
    assert "/get/widgets/42" != "/get/widgets" by { assert |"/get/widgets/42"| != |"/get/widgets"|; }
    assert "/post/widgets" != "/get/widgets" by { assert "/post/widgets"[1] != "/get/widgets"[1]; }
  }

  lemma WidgetKeys()
    ensures GetKey("GET", "/widgets") == "/get/widgets"
    ensures GetKey("GET", "/widgets/42") == "/get/widgets/42"
    ensures GetKey("POST", "/widgets") == "/post/widgets"
  {
  }

  // ---------------------------------------------------------------------------
  // The router object

  class BaseRouter<S> {
    /** Routes whose paths have no variables, by key. */
    var routesWithoutPathVars: map<string, RouteEntry>
    /** The state of the concrete router's path-variable store. */
    var pathVarStore: S

    const hasPathVariables: PathVarsTest
    const compareRoute: Comparator
    const hooks: PathVarHooks<S>

    ghost function State(): RouterState<S>
      reads this
    {
      RouterState(routesWithoutPathVars, pathVarStore)
    }

    ghost predicate Valid()
      reads this
    {
      StaticClassified(State(), hasPathVariables)
    }

    constructor(hasPathVariables: PathVarsTest, compareRoute: Comparator, hooks: PathVarHooks<S>, emptyStore: S)
      ensures Valid() && State() == RouterState(map[], emptyStore)
      ensures this.hasPathVariables == hasPathVariables
      ensures this.compareRoute == compareRoute
      ensures this.hooks == hooks
    {
      this.hasPathVariables := hasPathVariables;
      this.compareRoute := compareRoute;
      this.hooks := hooks;
      routesWithoutPathVars := map[];
      pathVarStore := emptyStore;
    }

    method Add(route: RouteEntry)
      requires Valid()
      modifies this
      ensures Valid()
      ensures State() == AddRoute(old(State()), route, hasPathVariables, hooks)
    {
      if !hasPathVariables(route.path) {
        var key := KeyForRoute(route);
        routesWithoutPathVars := routesWithoutPathVars[key := route];
      } else {
        AddRouteWithPathVars(route);
      }
    }

    method Find(request: Request) returns (r: Option<ResolvedRoute>)
      ensures r == FindRoute(State(), request, hooks)
    {
      var key := KeyForRequest(request);
      if key in routesWithoutPathVars {
        r := Some(CreateResolvedRoute(routesWithoutPathVars[key], map[]));
      } else {
        r := FindRouteWithPathVars(request);
      }
    }

    /** `list()`: both stores joined and sorted by the comparator. */
    method List() returns (routes: seq<RouteEntry>)
      ensures multiset(routes) == ListContents(State(), hooks)
      ensures |routes| == |routesWithoutPathVars| + |hooks.list(pathVarStore)|
      ensures TotalPreorder(compareRoute) ==> Sorted(routes, compareRoute)
    {
      var values := StaticRouteValues();
      var withVars := ListRoutesWithPathVars();
      routes := Sort(values + withVars, compareRoute);
      ListContentsSize(State(), hooks);
      if TotalPreorder(compareRoute) {
        SortSorted(values + withVars, compareRoute);
      }
    }

    /** `Object.values(routesWithoutPathVars)`. */
    method StaticRouteValues() returns (values: seq<RouteEntry>)
      ensures multiset(values) == StaticValues(routesWithoutPathVars)
    {
      values := [];
      var rest := routesWithoutPathVars;
      while rest != map[]
        invariant multiset(values) + StaticValues(rest) == StaticValues(routesWithoutPathVars)
        decreases |rest|
      {
        var k :| k in rest;
        StaticValuesRemove(rest, k);
        RemoveOne(rest, k);
        values := values + [rest[k]];
        rest := rest - {k};
      }
    }

    /** Hook: hand a templated route to the path-variable store. */
    method AddRouteWithPathVars(route: RouteEntry)
      requires Valid() && hasPathVariables(route.path)
      modifies this
      ensures Valid()
      ensures pathVarStore == hooks.add(old(pathVarStore), route)
      ensures routesWithoutPathVars == old(routesWithoutPathVars)
    {
      pathVarStore := hooks.add(pathVarStore, route);
    }

    /** Hook: ask the path-variable store for a route matching the request. */
    method FindRouteWithPathVars(request: Request) returns (r: Option<ResolvedRoute>)
      ensures r == hooks.find(pathVarStore, request)
    {
      r := hooks.find(pathVarStore, request);
    }

    /** Hook: the routes of the path-variable store. */
    method ListRoutesWithPathVars() returns (routes: seq<RouteEntry>)
      ensures routes == hooks.list(pathVarStore)
    {
      routes := hooks.list(pathVarStore);
    }
  }
}
