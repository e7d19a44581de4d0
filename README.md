# next-api-router routing core in Dafny

This project models the routing core of `next-api-router`, a helper for Next.js API
route handlers, and proves properties of that model. The core has two parts.

* **Route registry.** Decorators record, for each controller class, a list of route
  definitions (`path`, verb, handler name), a map from handler name to middleware
  list, and a class-level middleware list. Registration only appends. The readers
  return empty defaults for a class with no registrations. Storage is the fallback
  metadata table: target, then key, then value, with the inner map created lazily.
* **Router.** The constructor compiles each registered route. The full path is the
  base path plus the declared path, with trailing slashes stripped. The handler
  chain is the class middlewares, then the handler's own middlewares, then the
  controller method bound to its instance. `handle` upper-cases the request verb and
  strips a leading `/api` from the pathname. It then picks the first route, in
  registration order, whose verb and matcher both accept. It runs that route's chain
  in continuation-passing style. On a throw it falls back to the route's error
  handler, then the instance's, then a generic 500. When no route matches it
  answers 404 with `{sucess: false, message: "Not Found"}`, spelled as in the source.

Files and modules:

* `wrappers.dfy`, module `Wrappers`: `Option` and `Result`.
* `http.dfy`, module `Http`: the shared types. These are verbs, requests, JSON
  responses, thrown errors, middleware identities, and the three things a step can
  do when invoked (`Respond`, `Throw`, `CallNext`).
* `metadata.dfy`, module `Metadata`: the fallback store, for `src/http/utils/metadata.ts`.
  Pure table functions (`Lookup`, `Touch`, `Set`) and the class `MetadataStore`,
  whose methods update the `store` field.
* `routing_mapping.dfy`, module `RoutingMapping`: `src/http/decorators/RoutingMapping.ts`.
  The decorators are methods over a `MetadataStore`. Each is specified by a pure
  table transformer (`AddRoute`, `AddRouteMiddlewares`, `AddControllerMiddlewares`)
  whose contract is stated through the readers.
* `api_router.dfy`, module `Routing`: `src/http/routing/ApiRouter.ts`. Path and verb
  normalisation, route compilation, the chain (`Execute`), the first-match scan
  (`FindRoute`), the request semantics (`Dispatch`), and the class `ApiRouter`.

Modelling choices:

* A request's `method` field is named `verb`, because `method` is a Dafny keyword.
* `path-to-regexp` is abstract: `Env.matchPath(pattern, path)` returns `NoMatch`,
  `Matched(params)` or `DecodeFailed`. `DecodeFailed` stands for `decodeURIComponent`
  throwing on a malformed escape.
* A middleware or bound handler is abstract too: `Env.act(step, request, params)`
  says whether the step responds, throws, or returns what `next()` returns.
  User error handlers are `Env.onErr`.
* The bound handler's `next` re-enters the last step (ApiRouter.ts:81). Steps are
  modelled as stateless, so what a step does is a function of the step, the request
  and the params, and a step that calls `next()` does so before any `await`. Under
  those two assumptions a terminal `next()` re-enters the last step synchronously
  until the call stack overflows. `Env.maxReplays` is that depth, and the overflow
  is a `RangeError` that rejects the chain's promise, which the error fallback
  (ApiRouter.ts:86-92) then answers. A step that awaits before `next()`, or that
  stops calling `next()` on a later invocation, behaves differently. "## Left out"
  says how.
* The constructor throws a TypeError when a route's handler name is not a function of
  the controller (`controller[name].bind`). It is modelled as `ApiRouter.Create`,
  which returns a `Result`.
* `globalErrorHandler` is an `Option`, so the third fallback tier stays visible.
  `ApiRouter.Valid()` records that it is always set, and `Create` and `OnError` keep
  that invariant.

Behaviour that is easy to misread:

* ApiRouter.ts:68 removes `/api` with the regular expression `/^\/api/`, which
  removes four characters and does not check for a segment boundary. `/apiary`
  becomes `ary` (`StripApiPrefixExamples`).
* ApiRouter.ts:72 calls the matcher before the `try` at line 84. A matcher whose
  `decodeURIComponent` throws on a malformed escape therefore rejects `handle`, and
  no error handler runs (`DecodeErrorRejects`). Not every failure becomes an HTTP
  response.
* ApiRouter.ts:81 gives the last step `next = () => execute(i)`, so a terminal
  `next()` calls the same step again rather than doing nothing. Under the
  assumptions above, a terminal step that always calls `next()` re-enters itself
  until the stack overflows, and the error fallback answers the `RangeError`
  (`TerminalNextOverflows`).
* RoutingMapping.ts calls the global `Reflect` metadata API directly. The model gives
  it the read/write contract of the fallback table in `metadata.ts`.

## Model

| member | source | states |
|---|---|---|
| `Metadata.Touch` | src/http/utils/metadata.ts:3-7 | Touching a target inserts an empty inner map only when the target has none. Every other entry is kept, and no lookup of any key on any target changes. |
| `Metadata.Set` | src/http/utils/metadata.ts:15 | After a set, the key reads back as the value. Every other (target, key) pair reads as before. The target is now present. |
| `Metadata.SetAfterTouch` | src/http/utils/metadata.ts:15 | A lazy insert before a set leaves no trace in the result. |
| `Metadata.SetOverwrites` | src/http/utils/metadata.ts:15 | A second definition of the same key on the same target replaces the first. |
| `Metadata.ReplayLookup` | src/http/utils/metadata.ts:9-24 | After any sequence of definitions, a key reads as undefined exactly when it was never defined on that target. Otherwise it reads as the value of its last definition. |
| `Metadata.MetadataStore.constructor` | src/http/utils/metadata.ts:1 | The store starts empty. |
| `Metadata.MetadataStore.GetMap` | src/http/utils/metadata.ts:3-7 | The first access creates and returns an empty inner map. Later calls return the stored map and leave the store unchanged. |
| `Metadata.MetadataStore.DefineMetadata` | src/http/utils/metadata.ts:9-16 | The key reads back as the value. Every other key on this target, and every other target, is unchanged. |
| `Metadata.MetadataStore.GetMetadata` | src/http/utils/metadata.ts:18-24 | Returns the stored value, or None when it was never defined. The only state change is the lazy insert. |
| `RoutingMapping.GetRoutes` | src/http/decorators/RoutingMapping.ts:43-45 | Returns the stored route list, or `[]` when nothing was registered. It never fails. |
| `RoutingMapping.GetControllerMiddlewares` | src/http/decorators/RoutingMapping.ts:47-49 | Returns the stored class middleware list, or `[]`. It never fails. |
| `RoutingMapping.GetRouteMiddlewares` | src/http/decorators/RoutingMapping.ts:51-53 | Returns the stored handler-to-middlewares map, or `{}`. It never fails. |
| `RoutingMapping.ReadersOfFreshStore` | src/http/decorators/RoutingMapping.ts:43-53 | For a class with no registrations, the three readers return `[]`, `[]` and `{}`. |
| `RoutingMapping.MiddlewaresFor` | src/http/routing/ApiRouter.ts:51 | A handler name with no entry contributes no middlewares. Otherwise it contributes its entry. |
| `RoutingMapping.AddRoute` | src/http/decorators/RoutingMapping.ts:14-24 | The class's route list becomes the old list plus the new definition at the end. Its middleware lists are unchanged, and every other class reads as before. |
| `RoutingMapping.RequestMapping` | src/http/decorators/RoutingMapping.ts:14-24 | The store after the decorator is the `AddRoute` of the old store with `{path, verb, handlerName: propertyKey}`. |
| `RoutingMapping.AddRoutesAppends` | src/http/decorators/RoutingMapping.ts:14-24 | Any sequence of registrations appends its definitions in order, with duplicates kept. Earlier entries and other classes are untouched. |
| `RoutingMapping.AddRouteMiddlewares` | src/http/decorators/RoutingMapping.ts:26-33 | `map[propertyKey]` becomes its old entry (or `[]`) followed by the new middlewares. Every other handler's entry, the route list, the class list and other classes are unchanged. |
| `RoutingMapping.Use` | src/http/decorators/RoutingMapping.ts:26-33 | The store after the decorator is the `AddRouteMiddlewares` of the old store. |
| `RoutingMapping.AddRouteMiddlewaresAsWritten` | src/http/decorators/RoutingMapping.ts:30 | As written, an absent handler name that names an `Object.prototype` member throws a TypeError. Every other name behaves as `AddRouteMiddlewares`. |
| `RoutingMapping.UseOnInheritedNameThrows` | src/http/decorators/RoutingMapping.ts:30 | `@Use(mw)` on `toString` throws as written, while the model records `[mw]` for it. |
| `RoutingMapping.AddControllerMiddlewares` | src/http/decorators/RoutingMapping.ts:35-41 | The class list becomes the old list followed by the new middlewares, in order. The rest of the class and other classes are unchanged. |
| `RoutingMapping.UseController` | src/http/decorators/RoutingMapping.ts:35-41 | The store after the decorator is the `AddControllerMiddlewares` of the old store. |
| `RoutingMapping.UseControllerTwice` | src/http/decorators/RoutingMapping.ts:35-41 | Two class decorations read back as the concatenation of their lists, in application order. |
| `Routing.StripTrailingSlashes` | src/http/routing/ApiRouter.ts:47 | The result is a prefix of the input and does not end in `/`. Everything removed is `/`. |
| `Routing.StripTrailingSlashesUnique` | src/http/routing/ApiRouter.ts:47 | Those three properties determine the result. |
| `Routing.StripTrailingSlashesIdempotent` | src/http/routing/ApiRouter.ts:47 | Stripping again changes nothing. |
| `Routing.StripTrailingSlashesExamples` | src/http/routing/ApiRouter.ts:47 | `/a/` under base `/api` gives `/api/a`. `/` under an empty base gives the empty path. |
| `Routing.UpperChar` | src/http/routing/ApiRouter.ts:67 | Letters `a`-`z` map to their capitals. Every other character is kept. No lower-case letter remains. |
| `Routing.ToUpper` | src/http/routing/ApiRouter.ts:67 | Each character is upper-cased in place. The length is unchanged. |
| `Routing.ToUpperIdempotent` | src/http/routing/ApiRouter.ts:67 | Upper-casing twice is upper-casing once. |
| `Routing.VerbComparedUpperCased` | src/http/routing/ApiRouter.ts:67 | `get`, `Get` and `GET` all compare as `GET`. |
| `Routing.StripApiPrefix` | src/http/routing/ApiRouter.ts:68 | A path that starts with `/api` loses exactly those four characters. Any other path is unchanged. |
| `Routing.StripApiPrefixExamples` | src/http/routing/ApiRouter.ts:68 | Only one prefix is removed, and it is not segment-aware: `/apiary` becomes `ary`. |
| `Routing.CompileRouteLayout` | src/http/routing/ApiRouter.ts:46-59 | A compiled route keeps its verb and has no error handler. Its path is the stripped concatenation and never ends in `/`. Its chain is class middlewares, then handler middlewares, then the bound handler, with length \|class\|+\|handler\|+1. |
| `Routing.AbsentHandlerHasOnlyClassMiddlewares` | src/http/routing/ApiRouter.ts:51-57 | A handler with no `@Use` entry gets the class middlewares followed by itself. |
| `Routing.MethodMiddlewaresAsWritten` | src/http/routing/ApiRouter.ts:51 | As written, an absent handler name that names an `Object.prototype` member reads that member. Spreading it into the chain throws a TypeError. |
| `Routing.InheritedHandlerNameBreaksCompilation` | src/http/routing/ApiRouter.ts:51-57 | A routed method named `toString` with no `@Use` breaks construction as written. The model gives it no route middlewares. |
| `Routing.CompileAll` | src/http/routing/ApiRouter.ts:46-59 | Exactly one compiled route per definition, in the same order. |
| `Routing.StopIndex` | src/http/routing/ApiRouter.ts:77-82 | Gives the first position that does not call `next` before the last position, or the last position. Every earlier position calls `next`. |
| `Routing.ExecuteClosedForm` | src/http/routing/ApiRouter.ts:77-82 | Steps run in order up to the first one that does not call `next`, and its response or error settles the run. If all call `next`, the terminal step re-enters itself until the stack overflows. Steps are modelled as stateless and as calling `next` synchronously. |
| `Routing.ShortCircuit` | src/http/routing/ApiRouter.ts:77-82 | A step reached by `next` calls that returns without calling `next` yields its own result. No later step runs. |
| `Routing.StepRunsIffPredecessorsCalledNext` | src/http/routing/ApiRouter.ts:77-82 | The m-th step run is at position m, or the last position once replays start. Step j runs if and only if steps 0..j-1 each called `next`. |
| `Routing.TerminalNextOverflows` | src/http/routing/ApiRouter.ts:81 | If every step calls `next`, the run visits each position once, then re-enters the last one, and ends in a RangeError. This holds for stateless steps that call `next` synchronously. |
| `Routing.CompiledChainOrder` | src/http/routing/ApiRouter.ts:57-82 | In a compiled route, the m-th step run is the m-th class middleware, then the handler's own middlewares in order, then the bound handler. The bound handler runs exactly when every class and handler middleware called `next`. |
| `Routing.DefaultErrorHandlerReportsPath` | src/http/routing/ApiRouter.ts:29-37 | The default instance handler answers any error with 500, `success: false` and the unstripped pathname. |
| `Routing.GenericServerError` | src/http/routing/ApiRouter.ts:94-97 | The last-resort response has status 500 and body `{success: false, message: "Internal Server Error"}`. |
| `Routing.NotFoundResponse` | src/http/routing/ApiRouter.ts:102 | The not-found response has status 404 and body `{sucess: false, message: "Not Found"}`. |
| `Routing.FindRoute` | src/http/routing/ApiRouter.ts:70-73 | The scan finds the first route whose verb equals the request verb and whose matcher accepts, or stops at the first decode failure. It reports no route exactly when every route with that verb rejects the path. |
| `Routing.OtherVerbsNotConsulted` | src/http/routing/ApiRouter.ts:71-72 | Matchers of routes with another verb never influence the scan. |
| `Routing.DispatchFirstMatch` | src/http/routing/ApiRouter.ts:66-85 | The first route in registration order that matches the normalised verb and path handles the request, with the parameters its matcher captured. |
| `Routing.DispatchNotFound` | src/http/routing/ApiRouter.ts:102 | When nothing matches, the answer is 404 with the `sucess` key and no `success` key. |
| `Routing.DecodeErrorRejects` | src/http/routing/ApiRouter.ts:72 | A decode failure in the first applicable matcher rejects `handle` with a URIError, whatever the error handlers are. |
| `Routing.ThrowAnsweredByInstanceHandler` | src/http/routing/ApiRouter.ts:86-92 | For a compiled route, which has no handler of its own, a throwing chain is answered by the instance handler with the thrown value. |
| `Routing.InstanceHandlerDecides` | src/http/routing/ApiRouter.ts:84-92 | For routes with no handler of their own, as the constructor builds them, a throw from the chain of the route that handles the request is answered by the instance handler with the thrown value. The generic 500 is never reached. |
| `Routing.SingleRouteScenario` | src/http/routing/ApiRouter.ts:66-85 | `GET /api/users/42` against `GET /users/:id` with no middleware reaches the handler with `id = "42"` and returns its response. |
| `Routing.ApiRouter.Init` | src/http/routing/ApiRouter.ts:27-40 | A new router has no routes, the given base path and the default instance error handler. |
| `Routing.ApiRouter.Create` | src/http/routing/ApiRouter.ts:39-60 | Construction fails with a TypeError exactly when some route's handler is not a function of the controller. Otherwise the routes are the registered definitions compiled in order, and the router is valid. |
| `Routing.ApiRouter.OnError` | src/http/routing/ApiRouter.ts:62-64 | Replaces only the instance error handler. Routes and base path are unchanged, and validity is kept. |
| `Routing.ApiRouter.Handle` | src/http/routing/ApiRouter.ts:66-103 | The scan loop settles exactly as `Dispatch` on the router's current routes and instance handler. It changes no state. On a valid router, a throw from the handling route's chain is answered by the instance error handler with the thrown value. |

## Findings

| source | as written | input that shows it | evidently intended | confidence | as-written member | corrected member |
|---|---|---|---|---|---|---|
| src/http/decorators/RoutingMapping.ts:30 | `map[propertyKey] \|\| []` on a plain object returns inherited `Object.prototype` members. Spreading one throws a TypeError. | `@Use(mw)` on a controller method named `toString` | A handler with no entry starts from `[]` | not executed; high (standard JavaScript property lookup) | `RoutingMapping.UseOnInheritedNameThrows` | `RoutingMapping.AddRouteMiddlewares` |
| src/http/routing/ApiRouter.ts:51 | `routeMwsMap[route.handlerName] \|\| []` returns an inherited member. Spreading it at line 57 throws a TypeError during construction. | A routed method named `toString` with no `@Use` | A handler with no entry has no route middlewares | not executed; high (standard JavaScript property lookup) | `Routing.InheritedHandlerNameBreaksCompilation` | `Routing.AbsentHandlerHasOnlyClassMiddlewares` |

The rest of the model uses the corrected lookup. For a name in
`RoutingMapping.ObjectPrototypeMembers`, `RoutingMapping.Use` and `ApiRouter.Create`
therefore do what the authors evidently intended, not what the code does.

## Left out

- The `Reflect.defineMetadata` / `Reflect.getMetadata` branch and the `reflect-metadata` library are foreign code. The fallback table's contract stands in for them. One consequence: `reflect-metadata` also finds a parent class's metadata through the prototype chain, and that inheritance is not modelled.
- Aliasing of stored values is not modelled. `RequestMapping` pushes into the stored array, and the readers return the stored array and object themselves, so a caller that mutates them changes the registry. The model stores values.
- Object identity of the inner `Map` is not modelled. `MetadataStore.GetMap`: "the same map on later calls" is stated as the same stored value with the store unchanged.
- `path-to-regexp` pattern compilation is not modelled. Errors it raises for malformed patterns during construction are not modelled either. The matcher is the abstract `Env.matchPath`.
- Middlewares that post-process the result of `next()`, call `next` more than once, or mutate the shared `params` object are not modelled. A step either responds, throws, or returns what `next()` returns, and sees the matcher's params.
- `Routing.Execute`: steps are modelled as stateless (`Env.act` depends only on the step, the request and the params) and as calling `next()` before any `await`. In the source, a terminal step that awaits before calling `next()` re-enters through the promise queue, so the stack never grows and `handle` never settles. A terminal step that stops calling `next()` on a later re-entry answers from that re-entry instead of overflowing. Neither case is modelled.
- `Routing.Execute`: the call-stack limit is counted only for terminal re-entries (`Env.maxReplays`). An extremely long middleware chain could also overflow in JavaScript.
- `Routing.ToUpper` upper-cases ASCII letters only, because JavaScript's full Unicode case mapping (for example `ß` becomes `SS`) is out of scope. `req.method` being `undefined` is not modelled, because the request type always carries a method string.
- Promises and `async`/`await` are not modelled. The chain is strictly sequential, so it is modelled synchronously, and a rejected promise is an `Outcome` of `Threw`.
- `NextRequest`, `NextResponse.json` and `http-status-codes` are framework types. A response is a status plus a JSON object with string and boolean members. The reason phrase for 500 is the constant "Internal Server Error".
- `createNextRoute` and `createNextRouteLazy` bind one `handle` to seven verb keys, and `reflect-once.ts` probes the runtime and loads a library. Both are thin adapters over `handle` and environment probing.
- The order in which TypeScript applies stacked decorators is not modelled. The model takes the decorator calls in the order they run.
- `src/types` (the `HTTP_METHOD` union) is not part of this model. The seven verbs come from the keys `createNextRoute` binds.
