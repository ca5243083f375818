# molecuel/http static route binder, in Dafny

This project models the static route binder of the molecuel HTTP module,
`MlclHttp.initRoutes`, in both snapshots of the source: `lib/MlclHttp.ts` and
`src/MlclHttp.ts`. It also models the request handlers the binder installs.

At startup the binder does four things:

1. It appends the fixed health route `GET /mlclhttp/health`, whose handler sets status 200.
2. It builds the two-level index `sortedDataFactories` of data factories, keyed by
   `targetName` then `targetProperty`. When a key repeats, the later factory wins.
3. It walks the configured routes (`http.routes`) in order and looks up `class.property`
   in the index. A route with no factory is skipped.
4. For each matched route it registers a handler on the core router with the verb of
   the factory's operation: create and update use POST, replace uses PUT, read uses GET,
   delete uses DELETE. Any other operation registers nothing.

When a handler runs, it merges the request maps as `Object.assign` does, where a later
source wins. It then renders the call arguments with `core.renderDataParams` and awaits
the factory method. The four writing handlers set status 201, 200, 200 or 204 on success
and 500 when the call throws. The read handler sets the body to the returned value. It
sets the content type only when the factory's `resultType` is truthy, and it has no catch.

Modules:

- `Wrappers` (wrappers.dfy): `Option` and `Result`.
- `Props` (props.dfy): property maps, `Object.assign` (`Assign`), and the per-request merge (`Merged`).
- `Operations` (operations.dfy): operation tokens, the verb table and the success statuses.
- `Factories` (factories.dfy): factory descriptors, the index, the indexing loop (`BuildIndex`) and the `_.get` lookup.
- `Router` (router.dfy): the core router's append-only route table, a class holding a `seq` of layers.
- `Handlers` (handlers.dfy): the Koa context as a class, and the handler bodies. `Run` assigns the context's fields in place. `Effect` is the function that specifies it.
- `Binder` (binder.dfy): `initRoutes` for both snapshots. The per-snapshot dispatch is `BindLib` (an if/else-if chain) and `BindSrc` (a `switch` with an empty `default`). `BoundRoutes` is the function the configured-route loop is proved against.

A `Snapshot` value (`Lib` or `Src`) selects the merge rule. `Lib` also merges
`ctx.request` for create, update and replace. `Src` merges only `ctx.query` then
`ctx.params` in all five handlers.

Behaviour of the code that the model keeps as written:

- Error responses carry only status 500. No handler sets an error body (lib/MlclHttp.ts:86, 99, 112, 135). The tests expect the error message as the body (test/index.ts:249, 272, 294, 314); nothing in the binder produces it.
- A read failure is not caught by the read handler (lib/MlclHttp.ts:116-125).
- The merge uses `ctx.query`, then `ctx.params`, and in `lib` for create, update and replace only, `ctx.request` (lib/MlclHttp.ts:78, 91, 104; read and delete at 117 and 128 merge query and params only). There is no separate body source: `ctx.request` is Koa's request object, and its own enumerable properties, merged as they are, include the `body` the body parser sets (lib/MlclHttp.ts:38).
- `renderDataParams` runs before the `try`, so the handler does not catch a rendering (coercion) failure; it escapes as `Outcome.escaped`, as a read failure does.
- The binder recognises only the five tokens create, update, replace, read and delete. It does not recognise get, post or put.

## Model

| member | source | states |
|---|---|---|
| Props.Assign | lib/MlclHttp.ts:78 | `Object.assign(target, ...sources)`: the result's keys are the target's plus every source's; each key holds the value of the last source that defines it, or the target's value when no source does |
| Props.Merged | lib/MlclHttp.ts:117 | the merged props of a request: the keys of query, params and (when the request is merged) request; request overrides params, and params overrides query, on a shared key |
| Operations.ParseOperation | lib/MlclHttp.ts:76-126 | operation recognition by strict equality is the inverse of the token table; no other token is recognised |
| Operations.ParseOperationComplete | src/MlclHttp.ts:49-103 | each operation's own token selects that operation, so together with `ParseOperation` a token is recognised exactly when it is one of the five |
| Operations.TokenVerbTable | src/MlclHttp.ts:48-117 | exactly the tokens create, update, replace, read and delete register a route; create and update map to POST, replace to PUT, read to GET, delete to DELETE |
| Factories.IndexOfNames | lib/MlclHttp.ts:62-65 | after indexing, a `targetName` is an outer key exactly when some factory has that `targetName` (the inner object is created only on first use) |
| Factories.IndexOfKeys | src/MlclHttp.ts:34-39 | after indexing, the lookup of (`targetName`, `targetProperty`) finds a factory exactly when some factory in the list has that key |
| Factories.IndexOfLastWins | lib/MlclHttp.ts:66 | the factory the index holds under a key is the last one in the list with that key, so a later factory overrides an earlier one |
| Factories.BuildIndex | src/MlclHttp.ts:33-39 | the in-place indexing loop (create the inner object on first use, then assign) yields the index `IndexOf` of the whole factory list |
| Handlers.Effect | lib/MlclHttp.ts:77-137 | health sets status 200. Writing handlers leave body and type alone and never let a factory throw escape; status is 500 iff the call threw, otherwise 201/200/200/204. Read leaves status alone, sets the body to the returned value, sets the type only for a truthy `resultType`, and lets a throw escape unchanged. A rendering failure escapes every factory handler and changes nothing |
| Handlers.Run | src/MlclHttp.ts:50-114 | running a handler assigns `ctx.status`, `ctx.body` and `ctx.type` exactly as `Effect` says, leaves the request maps unchanged, and returns the escaping error |
| Binder.RouteEntry | lib/MlclHttp.ts:72-73 | one configured route contributes at most one layer: exactly one when `_.get` finds a factory whose operation is one of the five tokens, none otherwise (in particular none when no factory has its key) |
| Binder.FactoryEntry | src/MlclHttp.ts:48-118 | the operation dispatch for one factory registers exactly one layer when its operation is one of the five tokens, and none otherwise |
| Binder.BoundRoutes | lib/MlclHttp.ts:70-140 | the configured-route loop appends at most one layer per configured route in total: never more layers than configured routes |
| Binder.MatchedRouteBound | lib/MlclHttp.ts:72-138 | every configured route whose key finds a factory with a recognised operation has its layer in the table, with that operation's verb, the route's url, and the factory's handler with the snapshot's merge rule |
| Binder.BoundLayersComeFromRoutes | lib/MlclHttp.ts:71-138 | every bound layer has a factory handler. Its verb is that of its operation, and its operation's token is the factory's `operation`. Its merge rule is the snapshot's. Its path and factory are those of one configured route whose key the index maps to that factory |
| Binder.BoundRoutesAppend | src/MlclHttp.ts:42-120 | the table for routes `a + b` is the table for `a` followed by the table for `b`, so layers follow configured-route order |
| Binder.BoundRoutesSnoc | lib/MlclHttp.ts:70-73 | one more configured route appends exactly its own contribution |
| Binder.BoundRoutesStep | src/MlclHttp.ts:42-44 | the table for the first k + 1 configured routes is the table for the first k followed by route k's contribution |
| Binder.BindAll | src/MlclHttp.ts:42-120 | the configured-route loop appends `BoundRoutes` of the configured routes to the route table and nothing else |
| Binder.UnmatchedRouteSkipped | src/MlclHttp.ts:42-45 | a configured route whose key has no factory appends nothing |
| Binder.SnapshotsBindSameTable | src/MlclHttp.ts:48-117 | the `switch` dispatch of `src` and the if/else-if chain of `lib` register the same verbs, paths, operations and factories in the same order; they differ only in that `src` never merges `ctx.request` |
| Binder.BindLib | lib/MlclHttp.ts:76-138 | the if/else-if dispatch appends the layer of the factory's operation, with `ctx.request` merged for create, update and replace, or nothing for another token |
| Binder.BindSrc | src/MlclHttp.ts:48-118 | the `switch` dispatch appends the layer of the factory's operation, merging only query and params, and its `default` appends nothing |
| Binder.BindRoute | lib/MlclHttp.ts:71-74 | one loop iteration appends exactly the route's contribution: nothing when `_.get` finds no factory |
| Binder.InitRoutes | lib/MlclHttp.ts:55-144 | the route table becomes the old table, then the health route `GET /mlclhttp/health`, then `BoundRoutes` of the factory index over the configured routes |
| Router.CoreRouter.Get | lib/MlclHttp.ts:58 | registering appends one layer at the end of the route table and changes nothing else |
| Router.CoreRouter.Post | lib/MlclHttp.ts:77 | `coreRouter.post` (also lib/MlclHttp.ts:90 and src/MlclHttp.ts:50, 64) appends one POST layer at the end of the route table and changes nothing else |
| Router.CoreRouter.Put | lib/MlclHttp.ts:103 | `coreRouter.put` (also src/MlclHttp.ts:78) appends one PUT layer at the end of the route table and changes nothing else |
| Router.CoreRouter.Delete | lib/MlclHttp.ts:127 | `coreRouter.delete` (also src/MlclHttp.ts:104) appends one DELETE layer at the end of the route table and changes nothing else |
| Handlers.Context.constructor | lib/MlclHttp.ts:77 | the context a handler receives holds the request's query, params and request maps, with Koa's initial response: status 404, no body, no type |

## Left out

- The body parser `initAppBodyParser` (stream inflation, raw-body reading, `JSON.parse`): it is I/O and is not part of this model.
- `initRouter` and `initListen`: they only mount the router on Koa and listen on port 3000.
- `core.renderDataParams` is an external function. Its declared-parameter coercion is not visible, so it is a parameter of the model (`Renderer`) from the merged map to an argument list, or a thrown error.
- Calling the factory method is likewise a parameter (`Invoker`). The component lookup `di.getInstance(factory.targetName)` at binding time, and async/await, are folded into it.
- Matching a request path to a layer, path parameters, wildcards and chaining belong to koa-router. The route table records only verb, path and handler.
- Koa's implicit behaviour on assignment is not modelled. When a body is assigned, Koa sets status 200 if the status was never set explicitly; when the body assigned is null or undefined, it sets 204 unless the status is already 204, 205 or 304. A read that returns `Null` is the case this changes. Koa's body setter also sets the content type when none is set (text/html or text/plain for a string, application/json for an object) and removes it for a null body; a read whose factory has no truthy `resultType` is where this differs from `Effect`, which keeps the content type as it was. The MIME lookup on `ctx.type` is not modelled either. `Effect` for a read therefore leaves the status as it was.
- An error that escapes a handler (a read failure or a rendering failure) propagates through the body parser's `await next()` (lib/MlclHttp.ts:47) to Koa's application error handler, which answers status 500 with the status text rather than the failure's message. That handler is outside the model; `Effect` reports the error as escaped and leaves the response unchanged.
- Handlers.Effect: Koa's status setter clears an existing body when the status assigned is 204, as in the delete handler (lib/MlclHttp.ts:133, src/MlclHttp.ts:110). `Effect` says a writing handler leaves the body as it was, so a delete on a context that already had a body is not modelled as clearing it.
- Binder.BindRoute: `_.get(index, cls + "." + property)` parses its path, splitting at every dot and reading bracket and quoted segments (`a[0]`, `a["b"]`). The model looks up `cls` then `property` directly, so a class or property name containing `.`, `[` or `]` is not modelled.
- Factories.BuildIndex: keys that a JavaScript object inherits from its prototype (such as `constructor` or `__proto__`) are not modelled. The index is a plain map.
- Props.Assign: `Object.assign` copies with [[Set]], so an own `__proto__` key in a source calls the prototype setter and is not copied as a property. `Assign` copies it like any other key.
- Props.Merged: `Object.assign` gives the merged object a key order (query keys, then new params keys, then new request keys) that `renderDataParams` could observe. `Props` is a `map`, so the model has no key order, and two merges with the same keys and values in a different order are the same to `Renderer`.
- Binder.InitRoutes: if `core.getDataFactories()` or `config.getConfig("http.routes")` returns `undefined`, the `for...of` loop throws (lib/MlclHttp.ts:62 and 70, src/MlclHttp.ts:34 and 42), after the health route is already on the table. `InitRoutes` takes both lists as sequences and always completes.
- The factory's truthiness check `if (factory)` is always true for a descriptor object, so it is modelled as "found".
- Values are a small tagged type: text, integral numbers only (a JavaScript number is a double; no value is used in arithmetic), boolean and null. Nested objects, arrays (such as the array `ctx.query` holds for a repeated query key) and `undefined` are not distinguished.
- The lodash library, the DI container and the Koa wrapper classes (`MlclHttpRouter`, `MlclHttpCoreRouter`, `MlclHttpMiddleware`) have no logic of their own.
