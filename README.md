# Base REST router: route keys, static-first lookup and route listing

This project models the request-routing core of the LoopBack REST package,
`BaseRouter` and its key normaliser `getKey` in
`packages/rest/src/router/router-base.ts`, and proves properties of it in Dafny.

- `getKey(verb, path)` turns an HTTP method and a path into the key under
  which a route without path variables is stored and looked up. The verb is
  lower-cased and defaults to `get`. The path defaults to `/`, gets a leading
  `/` when it lacks one, and loses one trailing `/` unless it is `/`. The key
  is `"/" + verb + path` (module `RouteKey`, file `route_key.dfy`).
- `BaseRouter` keeps a dictionary from keys to routes whose paths have no
  `{name}` template variables. Templated routes go to a store that a
  concrete subclass supplies. `add` classifies a route and writes to exactly
  one of the two stores; the last registration under a key wins. `find`
  tries the dictionary first, with empty bindings, and asks the templated
  store only on a miss. `list` joins both stores and sorts the result with
  the route comparator (module `RouterBase`, file `router_base.dfy`).
- The routes, requests and resolved routes are values (`route_entry.dfy`).
  The dictionary's values as a multiset are in `route_table.dfy`. The
  comparator's laws and the sort that `list` uses are in `route_sort.dfy`.

The collaborators live in files this model does not include, so they are
parameters of the router object, fixed when it is constructed:
- `hasPathVariables: string -> bool` says whether `getPathVariables(path)` is truthy;
- `compareRoute: (RouteEntry, RouteEntry) -> int` is a JavaScript-style comparator;
- `hooks: PathVarHooks<S>` is the concrete router's path-variable store: the
  functions behind the three abstract hooks `addRouteWithPathVars`,
  `findRouteWithPathVars` and `listRoutesWithPathVars`, over a store state of
  any type `S` that the router keeps in a field.

Each method on the object is specified by a function on the router's state
as a value (`RouterState<S>`: the dictionary and the store state), and the
lemmas are proved about those functions. The base class promises nothing
about the subclass's store, so what the router's properties need of it is
stated as laws: `OnlyListsAdded` (the store lists only routes handed to it),
`AppendsToListing` (adding a route adds exactly that route to the listing)
and `SoundFind` (the store answers only with routes it lists). Properties
about templated routes hold under the law they name. `ListStore`, a store
that keeps its routes in a list and searches them with a matching function,
obeys all three (`RouterBase.ListStoreLaws`).

Two consequences of the code that are easy to miss:
- Only one trailing slash is stripped, so `a/` and `a//` have different
  keys (`RouteKey.OnlyOneTrailingSlashRemoved`). A path that does not
  already end in `/` has the same key with or without one trailing `/`
  (`RouteKey.TrailingSlashInsensitive`).
- The path keeps its case: a route registered as `get /Items/` is found by
  `GET /Items` and not by `GET /items` (`RouteKey.PathCaseSensitive`).

## Model

| member | source | states |
|---|---|---|
| `RouteKey.Lower` | packages/rest/src/router/router-base.ts:80 | lower-casing keeps the length and lower-cases each character, ASCII letters only |
| `RouteKey.NormalizeVerb` | packages/rest/src/router/router-base.ts:80 | the verb part is never empty; an empty verb gives `get`; otherwise it is the verb lower-cased letter by letter and holds no upper-case letter |
| `RouteKey.NormalizePath` | packages/rest/src/router/router-base.ts:82-88 | the path part starts with `/`, is at most one character longer than the input, and a path already in normal form is left as it is; `RouteKey.StripsExactlyOne` states that one trailing `/` is removed |
| `RouteKey.StripsExactlyOne` | packages/rest/src/router/router-base.ts:84-88 | for a path starting with `/`, appending one `/` and normalising gives the path back: exactly one trailing `/` is removed |
| `RouteKey.GetKey` | packages/rest/src/router/router-base.ts:78-90 | every key starts with `/`, the lower-cased verb and another `/`; for verbs without `/` that second `/` starts the path part, so the verb part never runs into the path |
| `RouteKey.VerbCaseInsensitive` | packages/rest/src/router/router-base.ts:80 | upper-casing the verb does not change the key |
| `RouteKey.EmptyVerbIsGet` | packages/rest/src/router/router-base.ts:80 | a missing verb gives the same key as `GET` and `get` |
| `RouteKey.VerbPartIffSameIgnoringCase` | packages/rest/src/router/router-base.ts:80 | two non-empty verbs have the same verb part exactly when they agree letter by letter ignoring ASCII case |
| `RouteKey.LeadingSlashInsensitive` | packages/rest/src/router/router-base.ts:82-83 | adding the missing leading `/` does not change the key |
| `RouteKey.TrailingSlashInsensitive` | packages/rest/src/router/router-base.ts:84-88 | for a path not ending in `/`, appending one `/` does not change the key |
| `RouteKey.OnlyOneTrailingSlashRemoved` | packages/rest/src/router/router-base.ts:84-88 | only one trailing `/` is removed: `a//` gives `/get/a/`, `a/` gives `/get/a` |
| `RouteKey.PathCaseSensitive` | packages/rest/src/router/router-base.ts:78-90 | the path keeps its case: `/Items/` and `/Items` share a key, `/items` does not |
| `RouteKey.SplitKeyOfGetKey` | packages/rest/src/router/router-base.ts:89 | for a verb without `/`, splitting the key at its second `/` gives back the normalised verb and the normalised path |
| `RouteKey.GetKeyInjective` | packages/rest/src/router/router-base.ts:89 | for verbs without `/`, two keys are equal if and only if the verbs and the paths normalise to the same |
| `RouteKey.VerbWithSlashCollides` | packages/rest/src/router/router-base.ts:89 | a verb holding `/` can collide with another verb and path: `a/b` with `c` and `a` with `b/c` share a key |
| `RouteSort.Insert` | packages/rest/src/router/router-base.ts:49 | inserting a route into a sequence adds exactly that route to its elements |
| `RouteSort.Sort` | packages/rest/src/router/router-base.ts:49 | sorting returns a permutation of its input |
| `RouteSort.SortSorted` | packages/rest/src/router/router-base.ts:49 | under a comparator that is a total preorder, the sorted sequence is in non-decreasing comparator order |
| `RouteSort.SortedUnique` | packages/rest/src/router/router-base.ts:45-50 | two sorted sequences with the same routes are equal when only equal routes among them tie, so the listing depends only on the registered routes |
| `RouteTable.StaticValues` | packages/rest/src/router/router-base.ts:46 | the dictionary hands over no route exactly when it is empty |
| `RouteTable.StaticValuesSupport` | packages/rest/src/router/router-base.ts:46 | the routes handed over are exactly the dictionary's values: every stored route and nothing else |
| `RouteTable.StaticValuesRemove` | packages/rest/src/router/router-base.ts:46 | the dictionary's values are the value at any key plus the values of the rest, whichever key is taken first |
| `RouteTable.StaticValuesSize` | packages/rest/src/router/router-base.ts:46 | the dictionary hands over exactly one route per key |
| `RouteTable.StaticValuesUpdate` | packages/rest/src/router/router-base.ts:28 | storing a route under a key replaces the route stored there before, if any, and adds the new one |
| `RouterBase.KeyForRoute` | packages/rest/src/router/router-base.ts:21-23 | the key is never empty and, for a verb without `/`, reads back as the route's normalised verb and path |
| `RouterBase.KeyForRequest` | packages/rest/src/router/router-base.ts:34-36 | the key is never empty and, for a method without `/`, reads back as the request's normalised method and path |
| `RouterBase.RequestKeyMatchesRouteKey` | packages/rest/src/router/router-base.ts:21-36 | registration and lookup use the same key: for method tokens without `/`, a request's key equals a route's key if and only if verb and path normalise to the same |
| `RouterBase.ListStoreLaws` | packages/rest/src/router/router-base.ts:52-70 | a store that keeps the routes handed to it in a list obeys `AppendsToListing` and `OnlyListsAdded`, and finds soundly exactly when its matching function does |
| `RouterBase.AddRoute` | packages/rest/src/router/router-base.ts:25-32 | a route without path variables is stored under its key, every other key keeps its route and the path-variable store is untouched; a route with path variables changes only the path-variable store, through its add hook |
| `RouterBase.FindRoute` | packages/rest/src/router/router-base.ts:38-43 | on a dictionary hit the answer is the route stored under the request's key with empty bindings; on a miss it is the path-variable store's answer |
| `RouterBase.AddPreservesClassified` | packages/rest/src/router/router-base.ts:25-31 | every dictionary route stays under its own key with a path without variables; when the store lists only what it was given, every listed templated route has path variables |
| `RouterBase.LastWriteWins` | packages/rest/src/router/router-base.ts:28 | two static registrations under one key leave the same state as the second alone |
| `RouterBase.AddRouteListing` | packages/rest/src/router/router-base.ts:25-31 | after `add` the listing holds the new route, minus the static route it overwrote, if any; for a templated route this holds when the store appends to its listing, and in any case the dictionary's share is unchanged |
| `RouterBase.ListContentsSize` | packages/rest/src/router/router-base.ts:45-47 | the listing has one route per static key plus every route the store lists |
| `RouterBase.AddCommutes` | packages/rest/src/router/router-base.ts:25-31 | two registrations that do not overwrite each other give the same dictionary in either order, the same state when at most one is templated, and the same listing when the store appends to its listing |
| `RouterBase.StaticFirst` | packages/rest/src/router/router-base.ts:38-43 | on a dictionary hit the answer does not depend on the path-variable store or its hooks |
| `RouterBase.AddThenFind` | packages/rest/src/router/router-base.ts:21-41 | after a static route is added, a request whose verb and path normalise the same finds it with empty bindings |
| `RouterBase.FindReturnsRegistered` | packages/rest/src/router/router-base.ts:38-43 | when the store answers only with listed routes, `find` answers only with listed routes; a static answer has the request's key and no bindings |
| `RouterBase.WidgetsScenario` | packages/rest/src/router/router-base.ts:25-43 | with `GET /widgets` and `GET /widgets/{id}` registered on an empty router, `GET /widgets` hits the dictionary, `GET /widgets/42` is the store's match and `POST /widgets` finds nothing |
| `RouterBase.BaseRouter.constructor` | packages/rest/src/router/router-base.ts:19 | a new router has an empty dictionary and the given empty store |
| `RouterBase.BaseRouter.Add` | packages/rest/src/router/router-base.ts:25-32 | keeps every dictionary route under its own key and the new state is `add` on the old one |
| `RouterBase.BaseRouter.Find` | packages/rest/src/router/router-base.ts:38-43 | changes nothing and answers as `find` on the current state |
| `RouterBase.BaseRouter.List` | packages/rest/src/router/router-base.ts:45-50 | returns a permutation of the dictionary's values and the store's listing, one per static key plus one per listed route, sorted when the comparator is a total preorder |
| `RouterBase.BaseRouter.StaticRouteValues` | packages/rest/src/router/router-base.ts:46 | returns exactly the dictionary's values, one per key |
| `RouterBase.BaseRouter.AddRouteWithPathVars` | packages/rest/src/router/router-base.ts:57 | the store state becomes the add hook's result; the dictionary is unchanged |
| `RouterBase.BaseRouter.FindRouteWithPathVars` | packages/rest/src/router/router-base.ts:63-65 | answers with the find hook's result on the current store |
| `RouterBase.BaseRouter.ListRoutesWithPathVars` | packages/rest/src/router/router-base.ts:70 | returns the list hook's result on the current store |

## Left out

- `packages/rest-explorer/src/rest-explorer.controller.ts` is not part of this model. It reads and renders an HTML template and writes an HTTP response; its only logic is defaulting two configuration strings.
- `getPathVariables`, `compareRoute` and `createResolvedRoute` are in files that are not part of this model. The first two are parameters of the router. The third is a plain pair of route and bindings.
- A concrete templated store, such as a trie or a regular-expression table, is not modelled. The store is a parameter; `ListStore` is the one instance whose laws are proved.
- Requests are reduced to their method and path strings. An `undefined` verb or path is modelled as the empty string, which `getKey` treats the same way.
- `toLowerCase` is modelled on ASCII letters only; full Unicode case mapping is not.
- The route dictionary is a map. JavaScript object quirks such as inherited property names do not arise, because every key starts with `/`. A stored route is an object and so always truthy, so `if (route)` is modelled as a presence test.
- The order in which `Object.values` hands over the dictionary's values is not modelled; the listing is stated as a multiset before sorting.
- `Array.prototype.sort` is modelled by an insertion sort; stability and the engine's own algorithm are not modelled.
- RouterBase.BaseRouter.List: sortedness is promised only for a comparator that is a total preorder, because a JavaScript sort with an inconsistent comparator gives an engine-defined order.
- RouterBase.BaseRouter.FindRouteWithPathVars: its answer is whatever the store's find hook returns; no matching algorithm, no tie-breaking between overlapping templates and no binding extraction is modelled.
- RouterBase.AddRouteListing: for a templated route the listing is pinned down only under `AppendsToListing`, because the base class leaves the store's behaviour to its subclass.
- RouterBase.AddCommutes: for two templated routes the listing agrees only under `AppendsToListing`, and the store states themselves need not agree, for the same reason.
- Concurrency is not modelled: all operations are synchronous and single-threaded.
